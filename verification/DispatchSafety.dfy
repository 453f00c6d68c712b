/** What every step keeps true of claims and deliveries, with any number of dispatchers. */
module DispatchSafety {
  import opened Events
  import opened Protocol
  import opened AppendSafety

  // ---------- The invariant ----------

  /** Some Publish of this row ran every handler subscribed at that moment, and all of them returned nil. */
  ghost predicate Delivered<E>(log: seq<Delivery<E>>, id: nat) {
    exists p :: 0 <= p < |log| && log[p].id == id && log[p].Ok()
  }

  ghost predicate SessionOk<E>(outbox: map<nat, Envelope<E>>, dispatched: set<nat>, x: Session) {
    && x.published <= |x.ids|
    && Ascending(x.ids)
    && (forall j | 0 <= j < |x.ids| :: x.ids[j] in outbox)
    && (x.live ==> !x.marked && forall j | 0 <= j < |x.ids| :: x.ids[j] !in dispatched)
    && (x.running ==> !x.marked && !x.sent)
    && (x.marked ==> forall j | 0 <= j < x.published :: x.ids[j] in dispatched)
  }

  /** Every entry that a session counts as published has been delivered. */
  ghost predicate PublishedOk<E>(log: seq<Delivery<E>>, x: Session) {
    forall j | 0 <= j < x.published && j < |x.ids| :: Delivered(log, x.ids[j])
  }

  /** Two transactions never lock the same row. */
  ghost predicate Disjoint(x: Session, y: Session) {
    x.live && y.live ==> forall i, j | 0 <= i < |x.ids| && 0 <= j < |y.ids| :: x.ids[i] != y.ids[j]
  }

  /** The row was marked by a session that had claimed and published it. */
  ghost predicate MarkedBy(sessions: seq<Session>, id: nat) {
    exists d, j :: 0 <= d < |sessions| && sessions[d].marked &&
                   0 <= j < sessions[d].published && j < |sessions[d].ids| && sessions[d].ids[j] == id
  }

  ghost predicate Sessions<E>(s: State<E>) {
    && (forall d | 0 <= d < |s.sessions| ::
          SessionOk(s.outbox, s.dispatched, s.sessions[d]) && PublishedOk(s.log, s.sessions[d]))
    && (forall d, e | 0 <= d < |s.sessions| && 0 <= e < |s.sessions| && d != e ::
          Disjoint(s.sessions[d], s.sessions[e]))
  }

  /** What was published are rows of the outbox. */
  ghost predicate LogOk<E>(outbox: map<nat, Envelope<E>>, log: seq<Delivery<E>>) {
    forall p | 0 <= p < |log| :: log[p].id in outbox && log[p].env == outbox[log[p].id]
  }

  ghost predicate Marks<E>(s: State<E>) {
    && s.dispatched <= s.outbox.Keys
    && (forall i {:trigger Delivered(s.log, i)} | i in s.dispatched :: Delivered(s.log, i))
    && (forall i {:trigger MarkedBy(s.sessions, i)} | i in s.dispatched :: MarkedBy(s.sessions, i))
    && LogOk(s.outbox, s.log)
    && Publishes(s.log) == |s.dispatched| + Unmarked(s.sessions)
  }

  ghost predicate DispatchInv<E>(s: State<E>) {
    Sessions(s) && Marks(s)
  }

  // ---------- Counting ----------

  /** Successful publishes. */
  ghost function Publishes<E>(log: seq<Delivery<E>>): nat {
    if log == [] then 0
    else Publishes(log[..|log| - 1]) + if log[|log| - 1].Ok() then 1 else 0
  }

  function Weight(x: Session): nat {
    if x.marked then 0 else x.published
  }

  /** Successful publishes of sessions whose marks have not taken effect: failed, crashed or still open. */
  function Unmarked(sessions: seq<Session>): nat {
    if sessions == [] then 0
    else Unmarked(sessions[..|sessions| - 1]) + Weight(sessions[|sessions| - 1])
  }

  function UnmarkedSessions(sessions: seq<Session>): nat {
    if sessions == [] then 0
    else UnmarkedSessions(sessions[..|sessions| - 1]) + if sessions[|sessions| - 1].marked then 0 else 1
  }

  lemma {:induction false} UnmarkedUpdate(sessions: seq<Session>, d: nat, x: Session)
    requires d < |sessions|
    ensures Unmarked(sessions[d := x]) + Weight(sessions[d]) == Unmarked(sessions) + Weight(x)
  {
    var last := |sessions| - 1;
    if d == last {
      assert sessions[d := x][..last] == sessions[..last];
    } else {
      UnmarkedUpdate(sessions[..last], d, x);
      assert sessions[d := x][..last] == sessions[..last][d := x];
    }
  }

  lemma UnmarkedExtend(sessions: seq<Session>, x: Session)
    ensures Unmarked(sessions + [x]) == Unmarked(sessions) + Weight(x)
  {
    assert (sessions + [x])[..|sessions|] == sessions;
  }

  lemma PublishesExtend<E>(log: seq<Delivery<E>>, delivery: Delivery<E>)
    ensures Publishes(log + [delivery]) == Publishes(log) + if delivery.Ok() then 1 else 0
  {
    assert (log + [delivery])[..|log|] == log;
  }

  lemma {:induction false} ElementsSize(ids: seq<nat>)
    requires Ascending(ids)
    ensures |Elements(ids)| == |ids|
  {
    if ids != [] {
      var last := |ids| - 1;
      ElementsSize(ids[..last]);
      assert ids == ids[..last] + [ids[last]];
      assert Elements(ids) == Elements(ids[..last]) + {ids[last]};
    }
  }

  // ---------- Preservation ----------

  lemma ApplyKeepsRows<E>(s: State<E>, t: nat, acknowledged: bool)
    requires AppendInv(s) && t < |s.txs| && s.txs[t].Open() && s.txs[t].Complete()
    ensures var outbox := ApplyAppend(s, t, acknowledged).outbox;
      forall i | i in s.outbox :: i in outbox && outbox[i] == s.outbox[i]
  {
    assert TxOk(s, s.txs[t]);
    ApplyGrowsOutbox(s.outbox, s.txs[t]);
  }

  /** Rows are only added to the outbox. */
  lemma OutboxGrows<E>(s: State<E>, step: Step<E>)
    requires AppendInv(s) && Enabled(s, step)
    ensures forall i | i in s.outbox :: i in After(s, step).outbox && After(s, step).outbox[i] == s.outbox[i]
  {
    if step.CommitAppend? || step.ServerCommit? {
      ApplyKeepsRows(s, step.t, step.CommitAppend?);
    } else {
      OtherStepsKeepEvents(s, step);
    }
  }

  /** Appends, Subscribe. */
  lemma AppendSideKeeps<E>(s: State<E>, s': State<E>)
    requires DispatchInv(s)
    requires s'.dispatched == s.dispatched && s'.sessions == s.sessions && s'.log == s.log
    requires forall i | i in s.outbox :: i in s'.outbox && s'.outbox[i] == s.outbox[i]
    ensures DispatchInv(s')
  {
    forall d | 0 <= d < |s'.sessions|
      ensures SessionOk(s'.outbox, s'.dispatched, s'.sessions[d]) && PublishedOk(s'.log, s'.sessions[d])
    {
      assert SessionOk(s.outbox, s.dispatched, s.sessions[d]);
    }
  }

  lemma ClaimKeeps<E>(s: State<E>, batchSize: nat, ids: seq<nat>)
    requires DispatchInv(s) && Enabled(s, Claim(batchSize, ids))
    ensures DispatchInv(After(s, Claim(batchSize, ids)))
  {
    var x := Session(ids, 0, false, true, true, false, false);
    UnmarkedExtend(s.sessions, x);
    MarksKept(s, s.sessions + [x], s.log);
    ClaimKeepsSessions(s, batchSize, ids, x);
  }

  lemma ClaimKeepsSessions<E>(s: State<E>, batchSize: nat, ids: seq<nat>, x: Session)
    requires Sessions(s) && ClaimResult(s, batchSize, ids) && x == Session(ids, 0, false, true, true, false, false)
    ensures Sessions(s.(sessions := s.sessions + [x]))
  {
    var s' := s.(sessions := s.sessions + [x]);
    assert forall j | 0 <= j < |ids| :: Claimable(s, ids[j]);
    forall d | 0 <= d < |s.sessions| ensures Disjoint(s.sessions[d], x) && Disjoint(x, s.sessions[d]) {
      assert s.sessions[d].live ==> forall j | 0 <= j < |ids| :: ids[j] !in s.sessions[d].ids;
    }
    forall d | 0 <= d < |s'.sessions|
      ensures SessionOk(s'.outbox, s'.dispatched, s'.sessions[d]) && PublishedOk(s'.log, s'.sessions[d])
    {
      assert d < |s.sessions| ==> SessionOk(s.outbox, s.dispatched, s.sessions[d]) && PublishedOk(s.log, s.sessions[d]);
    }
    forall d, e | 0 <= d < |s'.sessions| && 0 <= e < |s'.sessions| && d != e
      ensures Disjoint(s'.sessions[d], s'.sessions[e])
    {
      assert d < |s.sessions| && e < |s.sessions| ==> Disjoint(s.sessions[d], s.sessions[e]);
    }
  }

  lemma MarkedByKept<E>(s: State<E>, id: nat, sessions: seq<Session>)
    requires Marks(s) && id in s.dispatched && |sessions| >= |s.sessions|
    requires forall d | 0 <= d < |s.sessions| && s.sessions[d].marked :: sessions[d] == s.sessions[d]
    ensures MarkedBy(sessions, id)
  {
    assert MarkedBy(s.sessions, id);
    var d, j :| 0 <= d < |s.sessions| && s.sessions[d].marked &&
                0 <= j < s.sessions[d].published && j < |s.sessions[d].ids| && s.sessions[d].ids[j] == id;
    assert sessions[d].ids[j] == id;
  }

  lemma DeliveredKept<E>(log: seq<Delivery<E>>, log': seq<Delivery<E>>, id: nat)
    requires log <= log' && Delivered(log, id)
    ensures Delivered(log', id)
  {
    var p :| 0 <= p < |log| && log[p].id == id && log[p].Ok();
    assert log'[p].id == id;
  }

  lemma MarksKept<E>(s: State<E>, sessions: seq<Session>, log': seq<Delivery<E>>)
    requires Marks(s) && |sessions| >= |s.sessions| && s.log <= log'
    requires forall d | 0 <= d < |s.sessions| && s.sessions[d].marked :: sessions[d] == s.sessions[d]
    ensures forall i {:trigger Delivered(log', i)} | i in s.dispatched :: Delivered(log', i)
    ensures forall i {:trigger MarkedBy(sessions, i)} | i in s.dispatched :: MarkedBy(sessions, i)
  {
    forall i | i in s.dispatched ensures Delivered(log', i) && MarkedBy(sessions, i) {
      assert Delivered(s.log, i);
      DeliveredKept(s.log, log', i);
      MarkedByKept(s, i, sessions);
    }
  }

  /** A step that replaces one unmarked session by an unmarked one, locks nothing new, and may log a delivery. */
  lemma SessionKeeps<E>(s: State<E>, d: nat, x: Session, log': seq<Delivery<E>>)
    requires DispatchInv(s) && d < |s.sessions| && !s.sessions[d].marked && !x.marked
    requires x.ids == s.sessions[d].ids && (x.live ==> s.sessions[d].live)
    requires SessionOk(s.outbox, s.dispatched, x) && PublishedOk(log', x)
    requires s.log <= log' && Publishes(log') + s.sessions[d].published == Publishes(s.log) + x.published
    requires LogOk(s.outbox, log')
    ensures DispatchInv(SetSession(s, d, x).(log := log'))
  {
    var s' := SetSession(s, d, x).(log := log');
    UnmarkedUpdate(s.sessions, d, x);
    MarksKept(s, s'.sessions, log');
    SessionKeepsSessions(s, d, x, log');
  }

  lemma SessionKeepsSessions<E>(s: State<E>, d: nat, x: Session, log': seq<Delivery<E>>)
    requires Sessions(s) && d < |s.sessions| && s.log <= log'
    requires x.ids == s.sessions[d].ids && (x.live ==> s.sessions[d].live)
    requires SessionOk(s.outbox, s.dispatched, x) && PublishedOk(log', x)
    ensures Sessions(SetSession(s, d, x).(log := log'))
  {
    var s' := SetSession(s, d, x).(log := log');
    forall e | 0 <= e < |s'.sessions|
      ensures SessionOk(s'.outbox, s'.dispatched, s'.sessions[e]) && PublishedOk(s'.log, s'.sessions[e])
    {
      if e != d {
        var y := s.sessions[e];
        assert SessionOk(s.outbox, s.dispatched, y) && PublishedOk(s.log, y);
        forall j | 0 <= j < y.published && j < |y.ids| ensures Delivered(log', y.ids[j]) {
          DeliveredKept(s.log, log', y.ids[j]);
        }
      }
    }
    forall e, f | 0 <= e < |s'.sessions| && 0 <= f < |s'.sessions| && e != f
      ensures Disjoint(s'.sessions[e], s'.sessions[f])
    {
      assert Disjoint(s.sessions[e], s.sessions[f]);
    }
  }

  /** A successful Publish of the next entry, or any Publish that leaves the count alone. */
  lemma DeliveryKeepsPublished<E>(log: seq<Delivery<E>>, delivery: Delivery<E>, x: Session, x': Session)
    requires PublishedOk(log, x) && x'.ids == x.ids
    requires x'.published == x.published ||
      (delivery.Ok() && x'.published == x.published + 1 <= |x.ids| && delivery.id == x.ids[x.published])
    ensures PublishedOk(log + [delivery], x')
  {
    var log' := log + [delivery];
    forall j | 0 <= j < x'.published && j < |x'.ids| ensures Delivered(log', x'.ids[j]) {
      if j < x.published {
        assert Delivered(log, x.ids[j]);
        DeliveredKept(log, log', x.ids[j]);
      } else {
        assert log'[|log|] == delivery;
      }
    }
  }

  /** A Publish, whether it succeeded, failed or never returned. */
  lemma OfferKeeps<E>(s: State<E>, d: nat, delivery: Delivery<E>, x': Session)
    requires DispatchInv(s) && CanPublish(s, d) && delivery == Deliver(s, d, delivery.results)
    requires var x := s.sessions[d];
      x' == if delivery.Ok() then x.(published := x.published + 1) else x.(stopped := x'.stopped, running := x'.running)
    requires x'.running ==> s.sessions[d].running
    ensures DispatchInv(SetSession(s, d, x').(log := s.log + [delivery]))
  {
    var x := s.sessions[d];
    assert SessionOk(s.outbox, s.dispatched, x) && PublishedOk(s.log, x);
    PublishesExtend(s.log, delivery);
    DeliveryKeepsPublished(s.log, delivery, x, x');
    SessionKeeps(s, d, x', s.log + [delivery]);
  }

  lemma PublishKeeps<E>(s: State<E>, step: Step<E>)
    requires DispatchInv(s) && Enabled(s, step) && (step.Publish? || step.CrashPublishing?)
    ensures DispatchInv(After(s, step))
  {
    OfferKeeps(s, step.d, Deliver(s, step.d, step.results), After(s, step).sessions[step.d]);
  }

  /** CommitClaim and ServerMark. */
  lemma MarkKeeps<E>(s: State<E>, d: nat)
    requires DispatchInv(s) && d < |s.sessions| && s.sessions[d].live && s.sessions[d].published <= |s.sessions[d].ids|
    ensures DispatchInv(ApplyMarks(s, d))
  {
    var x := s.sessions[d];
    var s' := ApplyMarks(s, d);
    var marks := Elements(x.ids[..x.published]);
    assert SessionOk(s.outbox, s.dispatched, x) && PublishedOk(s.log, x);
    ElementsSize(x.ids[..x.published]);
    UnmarkedUpdate(s.sessions, d, s'.sessions[d]);
    assert s.dispatched !! marks;
    assert s'.dispatched == s.dispatched + marks;
    MarksKept(s, s'.sessions, s.log);
    forall i | i in s'.dispatched ensures Delivered(s'.log, i) && MarkedBy(s'.sessions, i) {
      if i !in s.dispatched {
        var j :| 0 <= j < x.published && x.ids[j] == i;
        assert s'.sessions[d].ids[j] == i;
      }
    }
    MarkKeepsSessions(s, d);
  }

  lemma MarkKeepsSessions<E>(s: State<E>, d: nat)
    requires Sessions(s) && d < |s.sessions| && s.sessions[d].live && s.sessions[d].published <= |s.sessions[d].ids|
    ensures Sessions(ApplyMarks(s, d))
  {
    var x := s.sessions[d];
    var s' := ApplyMarks(s, d);
    forall e | 0 <= e < |s'.sessions|
      ensures SessionOk(s'.outbox, s'.dispatched, s'.sessions[e]) && PublishedOk(s'.log, s'.sessions[e])
    {
      var y := s.sessions[e];
      assert SessionOk(s.outbox, s.dispatched, y) && PublishedOk(s.log, y) && SessionOk(s.outbox, s.dispatched, x);
      if e != d {
        assert Disjoint(y, x);
      } else {
        assert forall j | 0 <= j < x.published :: x.ids[..x.published][j] == x.ids[j];
      }
    }
    forall e, f | 0 <= e < |s'.sessions| && 0 <= f < |s'.sessions| && e != f
      ensures Disjoint(s'.sessions[e], s'.sessions[f])
    {
      assert Disjoint(s.sessions[e], s.sessions[f]);
    }
  }

  lemma StepKeepsDispatchInv<E>(s: State<E>, step: Step<E>)
    requires AppendInv(s) && DispatchInv(s) && Enabled(s, step)
    ensures DispatchInv(After(s, step))
  {
    match step
    case Claim(batchSize, ids) => ClaimKeeps(s, batchSize, ids);
    case Publish(_, _) => PublishKeeps(s, step);
    case CrashPublishing(_, _) => PublishKeeps(s, step);
    case CommitClaim(d) => MarkKeeps(s, d);
    case ServerMark(d) => MarkKeeps(s, d);
    case CommitClaimError(d) => EndKeeps(s, step, d);
    case ReleaseClaim(d) => EndKeeps(s, step, d);
    case Abandon(d) => EndKeeps(s, step, d);
    case Drop(d) => EndKeeps(s, step, d);
    case _ => OutboxGrows(s, step); AppendSideKeeps(s, After(s, step));
  }

  lemma EndKeeps<E>(s: State<E>, step: Step<E>, d: nat)
    requires DispatchInv(s) && Enabled(s, step)
    requires step in {CommitClaimError(d), ReleaseClaim(d), Abandon(d), Drop(d)}
    ensures DispatchInv(After(s, step))
  {
    assert SessionOk(s.outbox, s.dispatched, s.sessions[d]) && PublishedOk(s.log, s.sessions[d]);
    SessionKeeps(s, d, After(s, step).sessions[d], s.log);
  }

  lemma {:induction false} RunKeepsDispatchInv<E>(bus: Bus, steps: seq<Step<E>>)
    requires Run(bus, steps).Some?
    ensures DispatchInv(Run(bus, steps).value)
  {
    if steps != [] {
      RunKeepsDispatchInv(bus, steps[..|steps| - 1]);
      RunKeepsAppendInv(bus, steps[..|steps| - 1]);
      StepKeepsDispatchInv(Run(bus, steps[..|steps| - 1]).value, steps[|steps| - 1]);
    }
  }

  // ---------- Every state of every run ----------

  /** Nothing is lost: a committed event is still pending in the outbox, or some Publish of it ran every
      handler subscribed at that moment and all of them returned nil. */
  lemma NothingIsLost<E>(s: State<E>, k: Key)
    requires AppendInv(s) && DispatchInv(s) && k in s.events
    ensures exists i :: i in s.outbox && s.outbox[i] == s.events[k] && (i !in s.dispatched || AnsweredNil(s, i))
  {
    assert HasOutboxRow(s.events, s.outbox, k);
    var i :| i in s.outbox && s.outbox[i] == s.events[k];
    if i in s.dispatched {
      assert Delivered(s.log, i);
      DeliveredIsAnswered(s, i);
    }
  }

  /** Some Publish of row id has an answer from each of its handlers, and all answers are nil. */
  ghost predicate AnsweredNil<E>(s: State<E>, id: nat) {
    exists p :: 0 <= p < |s.log| && s.log[p].id == id && id in s.outbox && s.log[p].env == s.outbox[id] &&
                |s.log[p].results| == |s.log[p].handlers| &&
                forall j | 0 <= j < |s.log[p].results| :: s.log[p].results[j]
  }

  lemma DeliveredIsAnswered<E>(s: State<E>, id: nat)
    requires LogOk(s.outbox, s.log) && Delivered(s.log, id)
    ensures AnsweredNil(s, id)
  {
    var p :| 0 <= p < |s.log| && s.log[p].id == id && s.log[p].Ok();
    assert forall j | 0 <= j < |s.log[p].results| :: s.log[p].results[j] in s.log[p].results;
  }

  /** The n-th step is a Publish of row id, which was its claim's next entry; every handler that was subscribed to
      the row's event type at that moment has answered, with nil. */
  ghost predicate PublishedToAll<E>(bus: Bus, steps: seq<Step<E>>, n: nat, id: nat)
    requires n < |steps|
  {
    && Run(bus, steps[..n]).Some? && steps[n].Publish?
    && var s, d, results := Run(bus, steps[..n]).value, steps[n].d, steps[n].results;
    && d < |s.sessions| && s.sessions[d].published < |s.sessions[d].ids|
    && s.sessions[d].ids[s.sessions[d].published] == id && id in s.outbox
    && var eventType := s.outbox[id].eventType;
    && |results| == |if eventType in s.bus then s.bus[eventType] else []|
    && forall j | 0 <= j < |results| :: results[j]
  }

  /** Every successful delivery is the work of such a step. */
  lemma {:induction false} OkWasPublished<E>(bus: Bus, steps: seq<Step<E>>, p: nat) returns (n: nat)
    requires Run(bus, steps).Some? && p < |Run(bus, steps).value.log| && Run(bus, steps).value.log[p].Ok()
    ensures n < |steps| && PublishedToAll(bus, steps, n, Run(bus, steps).value.log[p].id)
  {
    var last := |steps| - 1;
    var before, step := Run(bus, steps[..last]).value, steps[last];
    StepLogs(before, step);
    if p < |before.log| {
      n := OkWasPublished(bus, steps[..last], p);
      assert steps[..last][..n] == steps[..n] && steps[..last][n] == steps[n];
    } else {
      n := last;
      var delivery := After(before, step).log[p];
      assert forall j | 0 <= j < |delivery.results| :: delivery.results[j] in delivery.results;
    }
  }

  lemma StepLogs<E>(s: State<E>, step: Step<E>)
    requires Enabled(s, step)
    ensures s.log <= After(s, step).log
    ensures !step.Publish? && !step.CrashPublishing? ==> After(s, step).log == s.log
    ensures step.Publish? || step.CrashPublishing? ==>
      After(s, step).log == s.log + [Deliver(s, step.d, step.results)]
  {
  }

  /** Nothing is lost, said of the steps of a run: of each committed event, the row is still pending, or one of the
      steps published it and all handlers subscribed at that moment answered nil. */
  lemma NothingIsLostInRuns<E>(bus: Bus, steps: seq<Step<E>>, k: Key)
    requires Run(bus, steps).Some? && k in Run(bus, steps).value.events
    ensures var s := Run(bus, steps).value;
      exists i :: i in s.outbox && s.outbox[i] == s.events[k] &&
                  (i in s.dispatched ==> exists n :: 0 <= n < |steps| && PublishedToAll(bus, steps, n, i))
  {
    RunKeepsAppendInv(bus, steps);
    RunKeepsDispatchInv(bus, steps);
    var s := Run(bus, steps).value;
    assert HasOutboxRow(s.events, s.outbox, k);
    var i :| i in s.outbox && s.outbox[i] == s.events[k];
    if i in s.dispatched {
      assert Delivered(s.log, i);
      var p :| 0 <= p < |s.log| && s.log[p].id == i && s.log[p].Ok();
      var n := OkWasPublished(bus, steps, p);
    }
  }

  /** No claim of the run asks for more than batchSize rows. */
  ghost predicate ClaimsAtMost<E>(steps: seq<Step<E>>, batchSize: nat) {
    forall i | 0 <= i < |steps| && steps[i].Claim? :: steps[i].batchSize <= batchSize
  }

  ghost predicate EntriesAtMost(sessions: seq<Session>, batchSize: nat) {
    forall d | 0 <= d < |sessions| :: |sessions[d].ids| <= batchSize
  }

  lemma StepKeepsEntries<E>(s: State<E>, step: Step<E>, batchSize: nat)
    requires Enabled(s, step) && EntriesAtMost(s.sessions, batchSize) && (step.Claim? ==> step.batchSize <= batchSize)
    ensures EntriesAtMost(After(s, step).sessions, batchSize)
  {
  }

  lemma {:induction false} RunKeepsEntries<E>(bus: Bus, steps: seq<Step<E>>, batchSize: nat)
    requires Run(bus, steps).Some? && ClaimsAtMost(steps, batchSize)
    ensures EntriesAtMost(Run(bus, steps).value.sessions, batchSize)
  {
    if steps != [] {
      RunKeepsEntries(bus, steps[..|steps| - 1], batchSize);
      StepKeepsEntries(Run(bus, steps[..|steps| - 1]).value, steps[|steps| - 1], batchSize);
    }
  }

  /** Redelivery, in every run whose claims ask for at most batchSize rows: successful publishes are the
      dispatched rows, plus what sessions published whose marks never took effect or are still open; at most a
      batch for each such session. */
  lemma RedeliveryBound<E>(bus: Bus, steps: seq<Step<E>>, batchSize: nat)
    requires Run(bus, steps).Some? && ClaimsAtMost(steps, batchSize)
    ensures var s := Run(bus, steps).value;
      && Publishes(s.log) == |s.dispatched| + Unmarked(s.sessions)
      && Publishes(s.log) <= |s.dispatched| + batchSize * UnmarkedSessions(s.sessions)
  {
    var s := Run(bus, steps).value;
    RunKeepsDispatchInv(bus, steps);
    RunKeepsEntries(bus, steps, batchSize);
    UnmarkedBound(s.outbox, s.dispatched, s.sessions, batchSize);
  }

  lemma {:induction false} UnmarkedBound<E>(
    outbox: map<nat, Envelope<E>>, dispatched: set<nat>, sessions: seq<Session>, batchSize: nat)
    requires forall d | 0 <= d < |sessions| :: SessionOk(outbox, dispatched, sessions[d])
    requires forall d | 0 <= d < |sessions| :: |sessions[d].ids| <= batchSize
    ensures Unmarked(sessions) <= batchSize * UnmarkedSessions(sessions)
  {
    if sessions != [] {
      var last := |sessions| - 1;
      UnmarkedBound(outbox, dispatched, sessions[..last], batchSize);
      assert SessionOk(outbox, dispatched, sessions[last]);
      var n := UnmarkedSessions(sessions[..last]);
      assert batchSize * (n + 1) == batchSize * n + batchSize;
    }
  }

  /** The rows locked by claims. */
  ghost function Claimed(sessions: seq<Session>): set<nat> {
    if sessions == [] then {}
    else
      var x := sessions[|sessions| - 1];
      Claimed(sessions[..|sessions| - 1]) + if x.live then Elements(x.ids) else {}
  }

  ghost function ClaimedEntries(sessions: seq<Session>): nat {
    if sessions == [] then 0
    else
      var x := sessions[|sessions| - 1];
      ClaimedEntries(sessions[..|sessions| - 1]) + if x.live then |x.ids| else 0
  }

  /** Some live session among the first n holds the row's lock. */
  ghost predicate LockedBelow(sessions: seq<Session>, n: nat, id: nat) {
    exists d :: 0 <= d < n && d < |sessions| && sessions[d].live && id in sessions[d].ids
  }

  lemma {:induction false} ClaimedIsLocked(sessions: seq<Session>, n: nat)
    requires n <= |sessions|
    ensures forall i :: i in Claimed(sessions[..n]) <==> LockedBelow(sessions, n, i)
  {
    if n > 0 {
      ClaimedIsLocked(sessions, n - 1);
      assert sessions[..n][..n - 1] == sessions[..n - 1];
      forall i ensures i in Claimed(sessions[..n]) <==> LockedBelow(sessions, n, i) {
        assert i in Claimed(sessions[..n - 1]) <==> LockedBelow(sessions, n - 1, i);
        assert LockedBelow(sessions, n, i) <==>
          LockedBelow(sessions, n - 1, i) || (sessions[n - 1].live && i in sessions[n - 1].ids);
      }
    }
  }

  lemma {:induction false} ClaimedSize<E>(s: State<E>, n: nat)
    requires Sessions(s) && n <= |s.sessions|
    ensures |Claimed(s.sessions[..n])| == ClaimedEntries(s.sessions[..n])
  {
    if n > 0 {
      var x := s.sessions[n - 1];
      var before := s.sessions[..n - 1];
      ClaimedSize(s, n - 1);
      assert s.sessions[..n][..n - 1] == before;
      if x.live {
        assert SessionOk(s.outbox, s.dispatched, x);
        ElementsSize(x.ids);
        ClaimIsDisjoint(s, n - 1);
      }
    }
  }

  lemma ClaimIsDisjoint<E>(s: State<E>, n: nat)
    requires Sessions(s) && n < |s.sessions| && s.sessions[n].live
    ensures Claimed(s.sessions[..n]) !! Elements(s.sessions[n].ids)
  {
    ClaimedIsLocked(s.sessions, n);
    forall i | i in Elements(s.sessions[n].ids) ensures i !in Claimed(s.sessions[..n]) {
      forall d | 0 <= d < n && s.sessions[d].live ensures i !in s.sessions[d].ids {
        assert Disjoint(s.sessions[d], s.sessions[n]);
      }
    }
  }

  /** Committed rows that a claim may take. */
  ghost function FreeRows<E>(s: State<E>): set<nat> {
    set i | i in s.outbox && Claimable(s, i)
  }

  /** An undisturbed SELECT finds as many rows as can be claimed, up to its limit. */
  lemma FirstClaimSize<E>(s: State<E>, batchSize: nat, ids: seq<nat>)
    requires FirstClaimable(s, batchSize, ids)
    ensures |ids| == if |FreeRows(s)| <= batchSize then |FreeRows(s)| else batchSize
  {
    ElementsSize(ids);
    assert forall j | 0 <= j < |ids| :: ids[j] in FreeRows(s);
    assert Elements(ids) <= FreeRows(s);
    SubsetSize(Elements(ids), FreeRows(s));
    if |ids| < batchSize {
      assert Elements(ids) == FreeRows(s);
    }
  }

  lemma SubsetSize(a: set<nat>, b: set<nat>)
    requires a <= b
    ensures |a| <= |b|
  {
    assert b == a + (b - a);
  }

  ghost function ClaimedRows<E>(s: State<E>): set<nat> {
    set i | i in s.outbox && Locked(s, i)
  }

  lemma LockedIsPending<E>(s: State<E>, id: nat)
    requires Sessions(s) && Locked(s, id)
    ensures id in s.outbox && id !in s.dispatched && LockedBelow(s.sessions, |s.sessions|, id)
  {
    var d :| 0 <= d < |s.sessions| && s.sessions[d].live && id in s.sessions[d].ids;
    assert SessionOk(s.outbox, s.dispatched, s.sessions[d]);
  }

  lemma ClaimedRowsAreClaimed<E>(s: State<E>)
    requires Sessions(s)
    ensures ClaimedRows(s) == Claimed(s.sessions) && ClaimedRows(s) !! s.dispatched
  {
    ClaimedIsLocked(s.sessions, |s.sessions|);
    assert s.sessions[..|s.sessions|] == s.sessions;
    forall i ensures i in ClaimedRows(s) <==> i in Claimed(s.sessions) {
      assert LockedBelow(s.sessions, |s.sessions|, i) ==> Locked(s, i);
      if Locked(s, i) {
        LockedIsPending(s, i);
      }
    }
    forall i | i in ClaimedRows(s) ensures i !in s.dispatched {
      LockedIsPending(s, i);
    }
  }

  lemma DisjointSizes(all: set<nat>, a: set<nat>, b: set<nat>, c: set<nat>)
    requires all == a + b + c && a !! b !! c
    ensures |all| == |a| + |b| + |c|
  {
  }

  lemma RowsArePartitioned<E>(s: State<E>)
    requires Sessions(s) && s.dispatched <= s.outbox.Keys
    ensures s.outbox.Keys == FreeRows(s) + ClaimedRows(s) + s.dispatched
    ensures FreeRows(s) !! ClaimedRows(s) !! s.dispatched
  {
    ClaimedRowsAreClaimed(s);
  }

  lemma ClaimedRowsSize<E>(s: State<E>)
    requires Sessions(s)
    ensures |ClaimedRows(s)| == ClaimedEntries(s.sessions)
  {
    ClaimedRowsAreClaimed(s);
    ClaimedSize(s, |s.sessions|);
    assert s.sessions[..|s.sessions|] == s.sessions;
  }

  /** Conservation: a committed outbox row is free, claimed or dispatched, and never two of these; live
      claims share no row, so the claimed rows are as many as the entries they hold. */
  lemma RowsAreConserved<E>(s: State<E>)
    requires DispatchInv(s)
    ensures s.outbox.Keys == FreeRows(s) + ClaimedRows(s) + s.dispatched
    ensures FreeRows(s) !! ClaimedRows(s) !! s.dispatched
    ensures |ClaimedRows(s)| == ClaimedEntries(s.sessions)
    ensures |s.outbox.Keys| == |FreeRows(s)| + ClaimedEntries(s.sessions) + |s.dispatched|
  {
    RowsArePartitioned(s);
    ClaimedRowsSize(s);
    DisjointSizes(s.outbox.Keys, FreeRows(s), ClaimedRows(s), s.dispatched);
  }

  /** A row is marked at most once, and only by the session that holds its lock. */
  lemma OnlyTheOwnerMarks<E>(s: State<E>, step: Step<E>, id: nat)
    requires AppendInv(s) && DispatchInv(s) && Enabled(s, step)
    ensures s.dispatched <= After(s, step).dispatched
    ensures id in After(s, step).dispatched - s.dispatched ==>
      && (step.CommitClaim? || step.ServerMark?)
      && s.sessions[step.d].live && id in s.sessions[step.d].ids
      && forall e | 0 <= e < |s.sessions| && e != step.d && s.sessions[e].live :: id !in s.sessions[e].ids
  {
    if step.CommitClaim? || step.ServerMark? {
      var x := s.sessions[step.d];
      forall e | 0 <= e < |s.sessions| && e != step.d && s.sessions[e].live && id in x.ids
        ensures id !in s.sessions[e].ids
      {
        assert Disjoint(x, s.sessions[e]);
      }
    }
  }

  /** Whatever ends a claim without marking, the dispatcher's release or the loss of its connection, makes all
      its rows claimable again. */
  lemma ReleasedRowsAreFree<E>(s: State<E>, step: Step<E>, d: nat, j: nat)
    requires DispatchInv(s) && Enabled(s, step) && (step == ReleaseClaim(d) || step == Drop(d))
    requires d < |s.sessions| && s.sessions[d].live && j < |s.sessions[d].ids|
    ensures Claimable(After(s, step), s.sessions[d].ids[j])
  {
    var x := s.sessions[d];
    assert SessionOk(s.outbox, s.dispatched, x);
    forall e | 0 <= e < |s.sessions| && e != d && s.sessions[e].live ensures x.ids[j] !in s.sessions[e].ids {
      assert Disjoint(x, s.sessions[e]);
    }
  }

  // ---------- Ending a claim ----------

  /** The steps by which a dispatcher ends its claim d: commit, failed commit, release, or being gone. */
  ghost predicate Ends<E>(step: Step<E>, d: nat) {
    match step
    case CommitClaim(e) => e == d
    case CommitClaimError(e) => e == d
    case ReleaseClaim(e) => e == d
    case Abandon(e) => e == d
    case CrashPublishing(e, _) => e == d
    case _ => false
  }

  ghost function EndSteps<E>(steps: seq<Step<E>>, d: nat): nat {
    if steps == [] then 0
    else EndSteps(steps[..|steps| - 1], d) + if Ends(steps[|steps| - 1], d) then 1 else 0
  }

  lemma EndStepStops<E>(s: State<E>, step: Step<E>, d: nat)
    requires DispatchInv(s) && Enabled(s, step)
    ensures var running := d < |s.sessions| && s.sessions[d].running;
      var s' := After(s, step);
      && |s.sessions| <= |s'.sessions|
      && (Ends(step, d) ==> running && !s'.sessions[d].running)
      && (!Ends(step, d) && d < |s.sessions| ==> s'.sessions[d].running == s.sessions[d].running)
      && (|s.sessions| <= d < |s'.sessions| ==> s'.sessions[d].running)
  {
    if step.ServerMark? {
      assert SessionOk(s.outbox, s.dispatched, s.sessions[step.d]);
    }
  }

  /** A dispatcher ends each claim once: a claim that is no longer worked on has been ended by exactly one step. */
  lemma {:induction false} EndedOnce<E>(bus: Bus, steps: seq<Step<E>>, d: nat)
    requires Run(bus, steps).Some?
    ensures var s := Run(bus, steps).value;
      EndSteps(steps, d) == if d < |s.sessions| && !s.sessions[d].running then 1 else 0
  {
    if steps != [] {
      EndedOnce(bus, steps[..|steps| - 1], d);
      RunKeepsDispatchInv(bus, steps[..|steps| - 1]);
      EndStepStops(Run(bus, steps[..|steps| - 1]).value, steps[|steps| - 1], d);
    }
  }
}
