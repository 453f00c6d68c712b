/**
 The Postgres store's methods, and the bus, as they run in one process: each takes steps of the protocol,
 and between any two of its own steps everybody else may take any number of theirs.
 */
module Postgres {
  import opened Events
  import opened Protocol
  import opened AppendSafety
  import opened DispatchSafety
  import opened Continuations
  import opened DispatchOrder
  import opened Streams

  // ---------- The rows a claim selects ----------

  /** The claimable ids from `from` on, in id order. */
  function PendingFrom<E>(s: State<E>, from: nat): (r: seq<nat>)
    ensures forall j | 0 <= j < |r| :: Claimable(s, r[j])
    decreases s.nextId - from
  {
    if from >= s.nextId then []
    else (if Claimable(s, from) then [from] else []) + PendingFrom(s, from + 1)
  }

  function Pending<E>(s: State<E>): (r: seq<nat>)
    ensures forall j | 0 <= j < |r| :: Claimable(s, r[j])
  {
    PendingFrom(s, 0)
  }

  /** ORDER BY id LIMIT batchSize. */
  function FirstPending<E>(s: State<E>, batchSize: nat): (r: seq<nat>)
    ensures forall j | 0 <= j < |r| :: Claimable(s, r[j])
  {
    if |Pending(s)| <= batchSize then Pending(s) else Pending(s)[..batchSize]
  }

  lemma {:induction false} PendingFromIsComplete<E>(s: State<E>, from: nat)
    ensures Ascending(PendingFrom(s, from))
    ensures forall j | 0 <= j < |PendingFrom(s, from)| :: from <= PendingFrom(s, from)[j]
    ensures forall i | from <= i < s.nextId && Claimable(s, i) :: i in PendingFrom(s, from)
    decreases s.nextId - from
  {
    if from < s.nextId {
      PendingFromIsComplete(s, from + 1);
    }
  }

  lemma FirstPendingIsFirst<E>(s: State<E>, batchSize: nat)
    requires Tables(s)
    ensures FirstClaimable(s, batchSize, FirstPending(s, batchSize))
  {
    PendingFromIsComplete(s, 0);
    var all, ids := Pending(s), FirstPending(s, batchSize);
    forall i | Claimable(s, i) && i !in ids
      ensures |ids| == batchSize && forall j | 0 <= j < |ids| :: ids[j] < i
    {
      assert i in all;
      var p :| 0 <= p < |all| && all[p] == i;
      assert forall j | 0 <= j < |ids| :: ids[j] == all[j];
    }
  }

  // ---------- Whose step it is ----------

  datatype Mine = Nothing | OwnAppend(t: nat) | OwnClaim(d: nat)

  /** The steps that others take: other appends, other claims, and the server on its own. */
  ghost predicate Foreign<E>(step: Step<E>, mine: Mine) {
    match step
    case HeadCheck(t, _) => mine != OwnAppend(t)
    case InsertEvent(t) => mine != OwnAppend(t)
    case InsertOutbox(t) => mine != OwnAppend(t)
    case CommitAppend(t) => mine != OwnAppend(t)
    case ReportError(t) => mine != OwnAppend(t)
    case Publish(d, _) => mine != OwnClaim(d)
    case CrashPublishing(d, _) => mine != OwnClaim(d)
    case CommitClaim(d) => mine != OwnClaim(d)
    case CommitClaimError(d) => mine != OwnClaim(d)
    case ReleaseClaim(d) => mine != OwnClaim(d)
    case Abandon(d) => mine != OwnClaim(d)
    case _ => true
  }

  /** What others can do to an append whose caller is still at work: the server may have rolled it back. */
  ghost predicate KeptTx<E>(x: Tx<E>, y: Tx<E>) {
    && (x.phase.Begun? || x.phase.Inserting? ==> y == x || y == x.(phase := Failed))
    && (x.phase.Failed? ==> y == x)
  }

  /** What others can do to a claim whose dispatcher is still at work: the server may have dropped it. */
  ghost predicate KeptSession(x: Session, y: Session) {
    x.running && !x.sent ==> y == x || y == x.(live := false)
  }

  ghost predicate Kept<E>(s: State<E>, s': State<E>, mine: Mine) {
    && |s.txs| <= |s'.txs|
    && |s.sessions| <= |s'.sessions|
    && match mine
       case Nothing => true
       case OwnAppend(t) => t < |s.txs| ==> KeptTx(s.txs[t], s'.txs[t])
       case OwnClaim(d) => d < |s.sessions| ==> KeptSession(s.sessions[d], s'.sessions[d])
  }

  lemma ForeignStepKeeps<E>(s: State<E>, step: Step<E>, mine: Mine)
    requires Enabled(s, step) && Foreign(step, mine)
    ensures Kept(s, After(s, step), mine)
  {
  }

  lemma KeptTransitive<E>(a: State<E>, b: State<E>, c: State<E>, mine: Mine)
    requires Kept(a, b, mine) && Kept(b, c, mine)
    ensures Kept(a, c, mine)
  {
  }

  lemma {:induction false} OthersKeep<E>(bus: Bus, steps: seq<Step<E>>, n: nat, mine: Mine)
    requires n <= |steps| && Run(bus, steps).Some? && Run(bus, steps[..n]).Some?
    requires forall i | n <= i < |steps| :: Foreign(steps[i], mine)
    ensures Kept(Run(bus, steps[..n]).value, Run(bus, steps).value, mine)
  {
    if n == |steps| {
      assert steps[..n] == steps;
    } else {
      var before, step := steps[..|steps| - 1], steps[|steps| - 1];
      assert before[..n] == steps[..n];
      OthersKeep(bus, before, n, mine);
      var b := Run(bus, before).value;
      ForeignStepKeeps(b, step, mine);
      KeptTransitive(Run(bus, steps[..n]).value, b, After(b, step), mine);
    }
  }

  // ---------- What Append tells its caller ----------

  /** An error leaves it open whether the batch is, or will be, stored. */
  ghost predicate Answers<E>(x: Tx<E>, id: Uuid, expected: nat, batch: seq<Envelope<E>>, r: Result<()>) {
    && x.stream == id && x.expected == expected && x.batch == batch
    && match r
       case Ok(_) => x.phase == Committed(true)
       case Err(ConcurrencyConflict) => x.phase.Conflicted?
       case Err(_) => x.phase.InDoubt? || x.phase.Failed? || x.phase == Committed(false)
  }

  /** Append t is open, past its head check, with n rows of its batch in the events table and m in the outbox. */
  ghost predicate Inserted<E>(
    s: State<E>, t: nat, id: Uuid, expected: nat, batch: seq<Envelope<E>>, n: nat, m: nat) {
    t < |s.txs| && s.txs[t].phase.Inserting? && s.txs[t].rows == n && |s.txs[t].ids| == m &&
    s.txs[t].stream == id && s.txs[t].expected == expected && s.txs[t].batch == batch
  }

  /** The version is not the committed length of the stream. */
  ghost predicate Stale<E>(s: State<E>, id: Uuid, expected: nat) {
    |Stream(s.events, id)| != expected
  }

  lemma ConflictIsStale<E>(bus: Bus, steps: seq<Step<E>>, s: State<E>, step: Step<E>, t: nat)
    requires Run(bus, steps) == Some(s) && Enabled(s, step)
    requires step == InsertEvent(t) || (step.HeadCheck? && step.t == t)
    ensures t < |s.txs|
    ensures After(s, step).txs[t].phase.Conflicted? ==>
      Stale(After(s, step), s.txs[t].stream, s.txs[t].expected)
  {
    RunKeepsAppendInv(bus, steps);
    if After(s, step).txs[t].phase.Conflicted? {
      ConflictMeansStale(s, step, t);
      OtherStepsKeepEvents(s, step);
    }
  }

  /** Nothing but append t has changed, and it has stored nothing. */
  ghost predicate OnlyOwn<E>(s: State<E>, s': State<E>, t: nat) {
    && s'.events == s.events && |s'.txs| == |s.txs|
    && forall u | 0 <= u < |s.txs| && u != t :: s'.txs[u] == s.txs[u]
  }

  /** No append is open, or none but t. */
  ghost predicate NoneOpen<E>(s: State<E>) {
    forall u | 0 <= u < |s.txs| :: !s.txs[u].Open()
  }

  ghost predicate NoneOpenBut<E>(s: State<E>, t: nat) {
    forall u | 0 <= u < |s.txs| && u != t :: !s.txs[u].Open()
  }

  method SelectHead<E>(events: map<Key, Envelope<E>>, stream: Uuid) returns (head: nat)
    ensures IsHead(events, stream, head)
  {
    head := 0;
    var keys := events.Keys;
    ghost var seen: set<Key> := {};
    while keys != {}
      invariant seen + keys == events.Keys && seen !! keys
      invariant forall k | k in seen && k.stream == stream :: k.sequence <= head
      invariant Key(stream, head) in seen || (head == 0 && forall k | k in seen :: k.stream != stream)
      decreases keys
    {
      var k :| k in keys;
      if k.stream == stream && (k.sequence > head || head == 0) {
        head := k.sequence;
      }
      keys := keys - {k};
      seen := seen + {k};
    }
  }

  /** SELECT … WHERE aggregate_id = $1 ORDER BY sequence. */
  method SelectStream<E>(events: map<Key, Envelope<E>>, stream: Uuid) returns (out: seq<Envelope<E>>)
    requires EventsOk(events)
    ensures LoadResult(events, stream, out) && out == Stream(events, stream)
  {
    ghost var rows := Stream(events, stream);
    StreamIsStream(events, stream);
    out := [];
    while Key(stream, |out| + 1) in events
      invariant |out| <= |rows| && out == rows[..|out|]
      decreases |rows| - |out|
    {
      assert events[Key(stream, |out| + 1)] == rows[|out|];
      out := out + [events[Key(stream, |out| + 1)]];
    }
    StreamIsLoadResult(events, stream);
  }

  // ---------- Other writers ----------

  /** From the n-th step on, no append to the stream has been applied, other than mine. */
  ghost predicate NoOtherWriter<E>(bus: Bus, steps: seq<Step<E>>, n: nat, id: Uuid, mine: Mine) {
    forall i {:trigger Writes(bus, steps, i, id, mine)} | n <= i < |steps| :: !Writes(bus, steps, i, id, mine)
  }

  ghost predicate Writes<E>(bus: Bus, steps: seq<Step<E>>, i: nat, id: Uuid, mine: Mine)
    requires i < |steps|
  {
    && Run(bus, steps[..i]).Some?
    && WritesIn(Run(bus, steps[..i]).value, steps[i], id, mine)
  }

  ghost predicate WritesIn<E>(s: State<E>, step: Step<E>, id: Uuid, mine: Mine) {
    && (step.CommitAppend? || step.ServerCommit?)
    && step.t < |s.txs| && s.txs[step.t].stream == id && mine != OwnAppend(step.t)
  }

  /** What my append has added to the stream. */
  function Added<E>(s: State<E>, id: Uuid, mine: Mine): seq<Envelope<E>> {
    if mine.OwnAppend? && mine.t < |s.txs| && s.txs[mine.t].phase.Committed? && s.txs[mine.t].stream == id
    then s.txs[mine.t].batch else []
  }

  lemma StepAdds<E>(s: State<E>, step: Step<E>, id: Uuid, mine: Mine, before: seq<Envelope<E>>)
    requires AppendInv(s) && Enabled(s, step) && !WritesIn(s, step, id, mine)
    requires Stream(s.events, id) == before + Added(s, id, mine)
    ensures Stream(After(s, step).events, id) == before + Added(After(s, step), id, mine)
  {
    if step.CommitAppend? || step.ServerCommit? {
      ApplyExtendsStream(s, step.t, step.CommitAppend?, id);
    } else {
      OtherStepsKeepEvents(s, step);
      OtherStepsAddNothing(s, step, id, mine);
    }
  }

  lemma OtherStepsAddNothing<E>(s: State<E>, step: Step<E>, id: Uuid, mine: Mine)
    requires Enabled(s, step) && !step.CommitAppend? && !step.ServerCommit?
    ensures Added(After(s, step), id, mine) == Added(s, id, mine)
  {
  }

  /** Without other writers the stream has grown by what my append added, if it was applied. */
  lemma {:induction false} OnlyMineAdded<E>(bus: Bus, steps: seq<Step<E>>, n: nat, id: Uuid, mine: Mine)
    requires n <= |steps| && Run(bus, steps).Some? && Run(bus, steps[..n]).Some?
    requires NoOtherWriter(bus, steps, n, id, mine)
    requires mine.OwnAppend? ==> |Run(bus, steps[..n]).value.txs| <= mine.t
    ensures var s, s' := Run(bus, steps[..n]).value, Run(bus, steps).value;
      Stream(s'.events, id) == Stream(s.events, id) + Added(s', id, mine)
  {
    if n == |steps| {
      assert steps[..n] == steps;
    } else {
      var last := |steps| - 1;
      var before, step := steps[..last], steps[last];
      assert before[..n] == steps[..n];
      forall i | n <= i < last ensures !Writes(bus, before, i, id, mine) {
        assert before[..i] == steps[..i];
        assert !Writes(bus, steps, i, id, mine);
      }
      OnlyMineAdded(bus, before, n, id, mine);
      RunKeepsAppendInv(bus, before);
      assert !Writes(bus, steps, last, id, mine);
      StepAdds(Run(bus, before).value, step, id, mine, Stream(Run(bus, steps[..n]).value.events, id));
    }
  }

  lemma {:induction false} CommittedStays<E>(bus: Bus, steps: seq<Step<E>>, n: nat, t: nat)
    requires n <= |steps| && Run(bus, steps).Some? && Run(bus, steps[..n]).Some?
    requires t < |Run(bus, steps[..n]).value.txs| && Run(bus, steps[..n]).value.txs[t].phase.Committed?
    ensures t < |Run(bus, steps).value.txs| && Run(bus, steps).value.txs[t] == Run(bus, steps[..n]).value.txs[t]
  {
    if n == |steps| {
      assert steps[..n] == steps;
    } else {
      var before := steps[..|steps| - 1];
      assert before[..n] == steps[..n];
      CommittedStays(bus, before, n, t);
      StepKeepsCommitted(Run(bus, before).value, steps[|steps| - 1], t);
    }
  }

  lemma StepKeepsCommitted<E>(s: State<E>, step: Step<E>, t: nat)
    requires Enabled(s, step) && t < |s.txs| && s.txs[t].phase.Committed?
    ensures t < |After(s, step).txs| && After(s, step).txs[t] == s.txs[t]
  {
  }

  /** The arguments of an append do not change. */
  lemma {:induction false} ArgumentsStay<E>(bus: Bus, steps: seq<Step<E>>, n: nat, t: nat)
    requires n <= |steps| && Run(bus, steps).Some? && Run(bus, steps[..n]).Some?
    requires t < |Run(bus, steps[..n]).value.txs|
    ensures t < |Run(bus, steps).value.txs| &&
            SameArguments(Run(bus, steps[..n]).value.txs[t], Run(bus, steps).value.txs[t])
  {
    if n == |steps| {
      assert steps[..n] == steps;
    } else {
      var before := steps[..|steps| - 1];
      assert before[..n] == steps[..n];
      ArgumentsStay(bus, before, n, t);
      StepKeepsArguments(Run(bus, before).value, steps[|steps| - 1], t);
    }
  }

  ghost predicate SameArguments<E>(x: Tx<E>, y: Tx<E>) {
    y.stream == x.stream && y.expected == x.expected && y.batch == x.batch
  }

  lemma StepKeepsArguments<E>(s: State<E>, step: Step<E>, t: nat)
    requires Enabled(s, step) && t < |s.txs|
    ensures t < |After(s, step).txs| && SameArguments(s.txs[t], After(s, step).txs[t])
  {
  }

  /** My append has been applied by the m-th step, or there was none: it is all that the stream has gained. */
  lemma OnlyMine<E>(bus: Bus, steps: seq<Step<E>>, n: nat, m: nat, id: Uuid, mine: Mine, batch: seq<Envelope<E>>)
    requires n <= |steps| && m <= |steps| && NoOtherWriter(bus, steps, n, id, mine)
    requires Run(bus, steps).Some? && Run(bus, steps[..n]).Some? && Run(bus, steps[..m]).Some?
    requires match mine
      case OwnAppend(t) =>
        var s, s' := Run(bus, steps[..n]).value, Run(bus, steps[..m]).value;
        && |s.txs| <= t < |s'.txs|
        && s'.txs[t].phase.Committed? && s'.txs[t].stream == id && s'.txs[t].batch == batch
      case Nothing => batch == []
      case OwnClaim(_) => batch == []
    ensures Stream(Run(bus, steps).value.events, id) == Stream(Run(bus, steps[..n]).value.events, id) + batch
  {
    OnlyMineAdded(bus, steps, n, id, mine);
    if mine.OwnAppend? {
      CommittedStays(bus, steps, m, mine.t);
    }
  }

  // ---------- What a dispatcher holds ----------

  datatype OutboxEntry<+E> = OutboxEntry(id: nat, env: Envelope<E>)

  function Ids<E>(entries: seq<OutboxEntry<E>>): (r: seq<nat>)
    ensures |r| == |entries|
    ensures forall i | 0 <= i < |r| :: r[i] == entries[i].id
  {
    seq(|entries|, i requires 0 <= i < |entries| => entries[i].id)
  }

  function EntriesOf<E>(outbox: map<nat, Envelope<E>>, ids: seq<nat>): (r: seq<OutboxEntry<E>>)
    requires forall j | 0 <= j < |ids| :: ids[j] in outbox
    ensures |r| == |ids|
    ensures forall j | 0 <= j < |ids| :: r[j] == OutboxEntry(ids[j], outbox[ids[j]])
  {
    seq(|ids|, j requires 0 <= j < |ids| => OutboxEntry(ids[j], outbox[ids[j]]))
  }

  /** The last step claimed these rows, the first that could be claimed. */
  ghost predicate ClaimedFirst<E>(bus: Bus, steps: seq<Step<E>>, batchSize: int, ids: seq<nat>) {
    && batchSize > 0 && steps != []
    && steps[|steps| - 1] == Claim(batchSize, ids)
    && Run(bus, steps[..|steps| - 1]).Some?
    && FirstClaimable(Run(bus, steps[..|steps| - 1]).value, batchSize, ids)
  }

  lemma FirstIsClaimable<E>(bus: Bus, steps: seq<Step<E>>, s: State<E>, batchSize: nat)
    requires Run(bus, steps) == Some(s)
    ensures FirstClaimable(s, batchSize, FirstPending(s, batchSize))
    ensures FirstPending(s, batchSize) != [] ==> Enabled(s, Step<E>.Claim(batchSize, FirstPending(s, batchSize)))
  {
    RunKeepsAppendInv(bus, steps);
    FirstPendingIsFirst(s, batchSize);
  }

  /** From s to s', claim d published its current entry, and every handler returned nil. */
  ghost predicate PublishedByAll<E>(s: State<E>, s': State<E>, d: nat) {
    && CanPublish(s, d)
    && s' == After(s, Step<E>.Publish(d, AllNil(|Subscribers(s.bus, CurrentEntry(s, d).eventType)|)))
  }

  /** The dispatcher is at work on claim d: it has published n of the entries, and stopped or not. */
  ghost predicate Working<E>(s: State<E>, d: nat, ids: seq<nat>, n: nat, stopped: bool) {
    && d < |s.sessions|
    && var x := s.sessions[d];
    && x.running && !x.sent && !x.marked
    && x.ids == ids && x.published == n && x.stopped == stopped
  }

  /** The dispatcher has ended claim d. */
  ghost predicate Ended<E>(s: State<E>, d: nat, ids: seq<nat>, n: nat, stopped: bool) {
    && d < |s.sessions|
    && var x := s.sessions[d];
    && !x.running && x.ids == ids && x.published == n && x.stopped == stopped
  }

  /** Of the entries of a claim, the first n are dispatched and the others are not. */
  ghost predicate MarkedExactly<E>(s: State<E>, ids: seq<nat>, n: nat) {
    forall j | 0 <= j < |ids| :: ids[j] in s.dispatched <==> j < n
  }

  lemma CommitMarksExactly<E>(bus: Bus, steps: seq<Step<E>>, s: State<E>, d: nat)
    requires Run(bus, steps) == Some(s) && Enabled(s, CommitClaim(d))
    ensures MarkedExactly(ApplyMarks(s, d), s.sessions[d].ids, s.sessions[d].published)
  {
    RunKeepsDispatchInv(bus, steps);
    var x := s.sessions[d];
    assert SessionOk(s.outbox, s.dispatched, x);
    forall j | 0 <= j < |x.ids| ensures x.ids[j] in Elements(x.ids[..x.published]) <==> j < x.published {
      assert j < x.published ==> x.ids[..x.published][j] == x.ids[j];
    }
  }

  lemma ReleaseFrees<E>(bus: Bus, steps: seq<Step<E>>, s: State<E>, d: nat)
    requires Run(bus, steps) == Some(s) && Enabled(s, ReleaseClaim(d)) && s.sessions[d].live
    ensures var s' := After(s, Step<E>.ReleaseClaim(d));
      !s'.sessions[d].marked && forall j | 0 <= j < |s.sessions[d].ids| :: Claimable(s', s.sessions[d].ids[j])
  {
    RunKeepsDispatchInv(bus, steps);
    assert SessionOk(s.outbox, s.dispatched, s.sessions[d]);
    forall j | 0 <= j < |s.sessions[d].ids|
      ensures Claimable(After(s, Step<E>.ReleaseClaim(d)), s.sessions[d].ids[j])
    {
      ReleasedRowsAreFree(s, ReleaseClaim(d), d, j);
    }
  }

  // ---------- The store ----------

  class Store<E> {
    const bus: Bus
    /** Nothing fails, and nobody else is at work. */
    const calm: bool
    var s: State<E>
    ghost var steps: seq<Step<E>>

    /** The state is the one that a run of the protocol has reached. */
    ghost predicate Valid()
      reads this
    {
      Run(bus, steps) == Some(s)
    }

    constructor (bus: Bus, calm: bool)
      ensures Valid() && steps == [] && this.bus == bus && this.calm == calm
    {
      this.bus := bus;
      this.calm := calm;
      s := Init(bus);
      steps := [];
    }

    method Take(step: Step<E>)
      requires Valid() && Enabled(s, step)
      modifies this
      ensures Valid() && s == After(old(s), step) && steps == old(steps) + [step]
    {
      s := After(s, step);
      steps := steps + [step];
      assert steps[..|steps| - 1] == old(steps);
    }

    /** Whatever everybody else does meanwhile. The body takes no step; callers rely on the contract only,
        which admits any run of foreign steps. */
    method Others(mine: Mine)
      requires Valid()
      modifies this
      ensures Valid() && old(steps) <= steps
      ensures forall i | |old(steps)| <= i < |steps| :: Foreign(steps[i], mine)
      ensures calm ==> s == old(s) && steps == old(steps)
    {
    }

    method Interleave(mine: Mine)
      requires Valid()
      modifies this
      ensures Valid() && old(steps) <= steps && Kept(old(s), s, mine)
      ensures calm ==> s == old(s) && steps == old(steps)
    {
      ghost var before := steps;
      Others(mine);
      assert steps[..|before|] == before;
      OthersKeep(bus, steps, |before|, mine);
    }

    /** Whether a statement, a commit or the connection fails. */
    method Fault() returns (fault: bool)
      ensures calm ==> !fault
    {
      fault := *;
      if calm {
        fault := false;
      }
    }

    // ---------- Append ----------

    /** The statement, the commit or the connection failed: Append reports an error. */
    method GiveUp(t: nat)
      requires Valid() && t < |s.txs| && (s.txs[t].phase.Begun? || s.txs[t].phase.Inserting?)
      modifies this
      ensures Valid() && old(steps) <= steps
      ensures t < |s.txs| && s.txs[t] == old(s.txs[t]).(phase := InDoubt)
    {
      Take(ReportError(t));
    }

    method CheckHead(t: nat) returns (r: Result<()>)
      requires Valid() && t < |s.txs| && s.txs[t].phase.Begun? && s.txs[t].rows == 0 == |s.txs[t].ids|
      modifies this
      ensures Valid() && old(steps) <= steps && t < |s.txs|
      ensures var x := old(s.txs[t]);
        if r.Ok? then Inserted(s, t, x.stream, x.expected, x.batch, 0, 0)
        else Answers(s.txs[t], x.stream, x.expected, x.batch, r)
      ensures r == Err(ConcurrencyConflict) ==> Stale(s, old(s.txs[t]).stream, old(s.txs[t]).expected)
      ensures calm && !Stale(old(s), old(s.txs[t]).stream, old(s.txs[t]).expected) ==> r.Ok? && OnlyOwn(old(s), s, t)
    {
      Interleave(OwnAppend(t));
      if s.txs[t].phase.Failed? {
        return Err(Other);
      }
      var fault := Fault();
      if fault {
        GiveUp(t);
        return Err(Other);
      }
      var head := SelectHead(s.events, s.txs[t].stream);
      ConflictIsStale(bus, steps, s, HeadCheck(t, head), t);
      Take(HeadCheck(t, head));
      r := if s.txs[t].phase.Conflicted? then Err(ConcurrencyConflict) else Ok(());
    }

    /** insertEvent: one row in each table. */
    method InsertRow(t: nat, n: nat) returns (r: Result<()>)
      requires Valid() && t < |s.txs| && n < |s.txs[t].batch|
      requires Inserted(s, t, s.txs[t].stream, s.txs[t].expected, s.txs[t].batch, n, n)
      modifies this
      ensures Valid() && old(steps) <= steps && t < |s.txs|
      ensures var x := old(s.txs[t]);
        if r.Ok? then Inserted(s, t, x.stream, x.expected, x.batch, n + 1, n + 1)
        else Answers(s.txs[t], x.stream, x.expected, x.batch, r)
      ensures r == Err(ConcurrencyConflict) ==> Stale(s, old(s.txs[t]).stream, old(s.txs[t]).expected)
      ensures calm && NoneOpenBut(old(s), t) && !Stale(old(s), old(s.txs[t]).stream, old(s.txs[t]).expected) ==>
        r.Ok? && OnlyOwn(old(s), s, t)
    {
      r := InsertEventRow(t, n);
      if r.Ok? {
        r := InsertOutboxRow(t, n);
      }
    }

    /** While another append holds the key, the insert waits; here the wait ends when the holder does, or when
        the caller's context is cancelled. */
    method InsertEventRow(t: nat, n: nat) returns (r: Result<()>)
      requires Valid() && t < |s.txs| && n < |s.txs[t].batch|
      requires Inserted(s, t, s.txs[t].stream, s.txs[t].expected, s.txs[t].batch, n, n)
      modifies this
      ensures Valid() && old(steps) <= steps && t < |s.txs|
      ensures var x := old(s.txs[t]);
        if r.Ok? then Inserted(s, t, x.stream, x.expected, x.batch, n + 1, n)
        else Answers(s.txs[t], x.stream, x.expected, x.batch, r)
      ensures r == Err(ConcurrencyConflict) ==> Stale(s, old(s.txs[t]).stream, old(s.txs[t]).expected)
      ensures calm && NoneOpenBut(old(s), t) && !Stale(old(s), old(s.txs[t]).stream, old(s.txs[t]).expected) ==>
        r.Ok? && OnlyOwn(old(s), s, t)
    {
      Interleave(OwnAppend(t));
      if s.txs[t].phase.Failed? {
        return Err(Other);
      }
      var fault := Fault();
      var k := KeyOf(s.txs[t].batch[n]);
      if fault || exists u :: 0 <= u < |s.txs| && u != t && s.txs[u].Holds(k) {
        GiveUp(t);
        return Err(Other);
      }
      ConflictIsStale(bus, steps, s, InsertEvent(t), t);
      Take(InsertEvent(t));
      r := if s.txs[t].phase.Conflicted? then Err(ConcurrencyConflict) else Ok(());
    }

    method InsertOutboxRow(t: nat, n: nat) returns (r: Result<()>)
      requires Valid() && t < |s.txs| && n < |s.txs[t].batch|
      requires Inserted(s, t, s.txs[t].stream, s.txs[t].expected, s.txs[t].batch, n + 1, n)
      modifies this
      ensures Valid() && old(steps) <= steps && t < |s.txs| && r != Err(ConcurrencyConflict)
      ensures var x := old(s.txs[t]);
        if r.Ok? then Inserted(s, t, x.stream, x.expected, x.batch, n + 1, n + 1)
        else Answers(s.txs[t], x.stream, x.expected, x.batch, r)
      ensures calm ==> r.Ok? && OnlyOwn(old(s), s, t)
    {
      Interleave(OwnAppend(t));
      if s.txs[t].phase.Failed? {
        return Err(Other);
      }
      var fault := Fault();
      if fault {
        GiveUp(t);
        return Err(Other);
      }
      Take(InsertOutbox(t));
      return Ok(());
    }

    /** When nothing fails, nobody else is at work and the version is current, the batch is stored. */
    method Append(id: Uuid, expected: nat, batch: seq<Envelope<E>>) returns (r: Result<()>, ghost t: nat)
      requires Valid() && (batch != [] ==> WellFormedBatch(id, expected, batch))
      modifies this
      ensures Valid() && old(steps) <= steps && Grows(old(s.events), s.events)
      ensures batch == [] ==> r == Ok(()) && s == old(s) && steps == old(steps)
      ensures batch != [] ==>
        && t == |old(s.txs)| < |s.txs| && old(steps) + [Begin(id, expected, batch)] <= steps
        && Answers(s.txs[t], id, expected, batch, r)
      ensures batch != [] && r == Err(ConcurrencyConflict) ==> Stale(s, id, expected)
      ensures batch != [] && r.Ok? ==> StoredAt(Stream(s.events, id), expected, batch)
      ensures calm && batch != [] && NoneOpen(old(s)) && !Stale(old(s), id, expected) ==>
        r.Ok? && Stream(s.events, id) == Stream(old(s.events), id) + batch
    {
      if batch == [] {
        return Ok(()), 0;
      }
      ghost var before := steps;
      t := |s.txs|;
      r := InTransaction(id, expected, batch);
      assert steps[..|before|] == before;
      StreamsGrow(bus, steps, |before|);
      RunKeepsAppendInv(bus, steps);
      if r.Ok? {
        CommittedInPlace(s, t);
      }
    }

    method InTransaction(id: Uuid, expected: nat, batch: seq<Envelope<E>>) returns (r: Result<()>)
      requires Valid() && WellFormedBatch(id, expected, batch)
      modifies this
      ensures Valid() && old(steps) + [Begin(id, expected, batch)] <= steps
      ensures |old(s.txs)| < |s.txs| && Answers(s.txs[|old(s.txs)|], id, expected, batch, r)
      ensures r == Err(ConcurrencyConflict) ==> Stale(s, id, expected)
      ensures calm && NoneOpen(old(s)) && !Stale(old(s), id, expected) ==>
        r.Ok? && Stream(s.events, id) == Stream(old(s.events), id) + batch
    {
      // Opening the transaction reads nothing and locks nothing: what others do before it they may do after it.
      var t := |s.txs|;
      ghost var s0 := s;
      Take(Begin(id, expected, batch));
      ghost var s1, steps1 := s, steps;
      r := CheckHead(t);
      var n := 0;
      while r.Ok? && n < |batch|
        invariant Valid() && steps1 <= steps && n <= |batch| && t < |s.txs|
        invariant if r.Ok? then Inserted(s, t, id, expected, batch, n, n) else Answers(s.txs[t], id, expected, batch, r)
        invariant r == Err(ConcurrencyConflict) ==> Stale(s, id, expected)
        invariant calm && NoneOpen(s0) && !Stale(s0, id, expected) ==> r.Ok? && OnlyOwn(s1, s, t)
        decreases if r.Ok? then |batch| - n + 1 else 0
      {
        r := InsertRow(t, n);
        n := n + 1;
      }
      if r.Ok? {
        r := CommitInserted(t);
      }
    }

    /** The commit that ends the transaction. */
    method CommitInserted(t: nat) returns (r: Result<()>)
      requires Valid() && t < |s.txs|
      requires Inserted(s, t, s.txs[t].stream, s.txs[t].expected, s.txs[t].batch, |s.txs[t].batch|, |s.txs[t].batch|)
      modifies this
      ensures Valid() && old(steps) <= steps && t < |s.txs| && r != Err(ConcurrencyConflict)
      ensures var x := old(s.txs[t]);
        && Answers(s.txs[t], x.stream, x.expected, x.batch, r)
        && (calm ==> r.Ok? && Stream(s.events, x.stream) == Stream(old(s.events), x.stream) + x.batch)
    {
      Interleave(OwnAppend(t));
      if s.txs[t].phase.Failed? {
        return Err(Other);
      }
      var fault := Fault();
      if fault {
        GiveUp(t);
        return Err(Other);
      }
      RunKeepsAppendInv(bus, steps);
      ApplyExtendsStream(s, t, true, s.txs[t].stream);
      Take(CommitAppend(t));
      return Ok(());
    }

    // ---------- Load ----------

    method Load(id: Uuid) returns (r: Result<seq<Envelope<E>>>)
      requires Valid()
      modifies this
      ensures Valid() && old(steps) <= steps && Grows(old(s.events), s.events)
      ensures r.Ok? ==> LoadResult(s.events, id, r.value) && r.value == Stream(s.events, id) && r.value != []
      ensures r == Err(StreamNotFound) ==> Stream(s.events, id) == []
      ensures r != Err(ConcurrencyConflict)
      ensures calm ==> s == old(s)
      ensures calm ==> r == if Stream(s.events, id) == [] then Err(StreamNotFound) else Ok(Stream(s.events, id))
    {
      ghost var before := steps;
      Interleave(Nothing);
      assert steps[..|before|] == before;
      StreamsGrow(bus, steps, |before|);
      var fault := Fault();
      if fault {
        return Err(Other);
      }
      RunKeepsAppendInv(bus, steps);
      var out := SelectStream(s.events, id);
      return if out == [] then Err(StreamNotFound) else Ok(out);
    }

    // ---------- Claim ----------

    /** None is the empty claim, whose Commit and Release do nothing. */
    method Claim(batchSize: int) returns (r: Result<Option<nat>>, entries: seq<OutboxEntry<E>>)
      requires Valid()
      modifies this
      ensures Valid() && old(steps) <= steps
      ensures batchSize <= 0 ==> r == Ok(None) && s == old(s)
      ensures r.Err? ==> r == Err(Other) && entries == [] && !calm
      ensures r == Ok(None) ==> entries == [] && (batchSize > 0 ==> FirstPending(s, batchSize) == [])
      ensures r.Ok? && r.value.Some? ==>
        var d := r.value.value;
        && 0 < |entries| <= batchSize
        && |old(s.sessions)| <= d && Working(s, d, Ids(entries), 0, false)
        && |old(steps)| < |steps| && ClaimedFirst(bus, steps, batchSize, Ids(entries))
        && forall i | 0 <= i < |entries| :: entries[i].id in s.outbox && s.outbox[entries[i].id] == entries[i].env
      ensures calm && r == Ok(None) ==> s == old(s)
      ensures calm && r.Ok? && r.value.Some? ==>
        Ids(entries) == FirstPending(old(s), batchSize) && Enabled(old(s), Step<E>.Claim(batchSize, Ids(entries))) &&
        s == After(old(s), Step<E>.Claim(batchSize, Ids(entries))) && r.value.value == |old(s.sessions)|
    {
      entries := [];
      if batchSize <= 0 {
        return Ok(None), entries;
      }
      Interleave(Nothing);
      var fault := Fault();
      if fault {
        return Err(Other), entries;
      }
      var ids := FirstPending(s, batchSize);
      FirstIsClaimable(bus, steps, s, batchSize);
      if ids == [] {
        fault := Fault();
        return if fault then Err(Other) else Ok(None), entries;
      }
      entries := EntriesOf(s.outbox, ids);
      assert Ids(entries) == ids;
      var d := |s.sessions|;
      ghost var before := steps;
      Take(Step.Claim(batchSize, ids));
      assert steps[..|steps| - 1] == before;
      return Ok(Some(d)), entries;
    }

    /** What n handlers return, true for nil. */
    method RunHandlers(n: nat) returns (results: seq<bool>)
      ensures |results| == n && (calm ==> results == AllNil(n))
    {
      results := [];
      while |results| < n
        invariant |results| <= n
        invariant calm ==> forall i | 0 <= i < |results| :: results[i]
      {
        var fault := Fault();
        results := results + [!fault];
      }
    }

    /** Bus.Publish for one entry of a claim: every subscribed handler runs, whatever the others return. */
    method Publish(d: nat, entry: OutboxEntry<E>, ghost ids: seq<nat>, ghost n: nat) returns (ok: bool)
      requires Valid() && Working(s, d, ids, n, false) && n < |ids| && entry.id == ids[n]
      modifies this
      ensures Valid() && old(steps) <= steps
      ensures Working(s, d, ids, if ok then n + 1 else n, !ok)
      ensures s.log != [] && entry.id in s.outbox &&
        var last, env := s.log[|s.log| - 1], s.outbox[entry.id];
        && last.id == entry.id && last.env == env
        && last.handlers == (if env.eventType in s.bus then s.bus[env.eventType] else [])
        && |last.results| == |last.handlers|
        && (ok <==> forall j | 0 <= j < |last.results| :: last.results[j])
      ensures calm ==> ok && PublishedByAll(old(s), s, d)
    {
      Interleave(OwnClaim(d));
      RunKeepsDispatchInv(bus, steps);
      assert SessionOk(s.outbox, s.dispatched, s.sessions[d]);
      var handlers := Subscribers(s.bus, CurrentEntry(s, d).eventType);
      var results := RunHandlers(|handlers|);
      var delivery := Deliver(s, d, results);
      ok := delivery.Ok();
      assert forall j | 0 <= j < |results| :: results[j] in results;
      Take(Step.Publish(d, results));
    }

    /** UPDATE … SET dispatched_at for the delivered ids, if any, and the commit. What a dispatcher has
        delivered is a prefix of its entries. */
    method Commit(d: nat, delivered: seq<nat>, ghost ids: seq<nat>, ghost n: nat, ghost stopped: bool)
      returns (r: Result<()>)
      requires Valid() && Working(s, d, ids, n, stopped) && n <= |ids| && delivered == ids[..n]
      modifies this
      ensures Valid() && old(steps) <= steps
      ensures Ended(s, d, ids, n, stopped)
      ensures r.Ok? ==> s.sessions[d].marked && MarkedExactly(s, ids, n)
      ensures calm && old(s.sessions[d]).live ==>
        r.Ok? && Enabled(old(s), Step<E>.CommitClaim(d)) && s == After(old(s), Step<E>.CommitClaim(d))
    {
      Interleave(OwnClaim(d));
      var fault := Fault();
      if fault || !s.sessions[d].live {
        Take(Step.CommitClaimError(d));
        return Err(Other);
      }
      CommitMarksExactly(bus, steps, s, d);
      Take(Step.CommitClaim(d));
      return Ok(());
    }

    /** The rollback reports an error when the connection is lost. */
    method Release(d: nat, ghost ids: seq<nat>, ghost n: nat, ghost stopped: bool) returns (r: Result<()>)
      requires Valid() && Working(s, d, ids, n, stopped)
      modifies this
      ensures Valid() && old(steps) <= steps
      ensures Ended(s, d, ids, n, stopped)
      ensures r.Ok? ==> !s.sessions[d].Open() && !s.sessions[d].marked
      ensures r.Ok? ==> forall j | 0 <= j < |ids| :: Claimable(s, ids[j])
    {
      Interleave(OwnClaim(d));
      var fault := Fault();
      if fault || !s.sessions[d].live {
        Take(Step.Abandon(d));
        return Err(Other);
      }
      ReleaseFrees(bus, steps, s, d);
      Take(Step.ReleaseClaim(d));
      return Ok(());
    }
  }
}
