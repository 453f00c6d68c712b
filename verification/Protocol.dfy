/**
 The Postgres store, its outbox, the event bus and any number of appenders and dispatchers,
 as one interleaved transition system.

 Appends run at READ COMMITTED: a statement sees the rows committed when it runs. A row that a
 transaction inserted is held in the transaction until it commits; the primary key of the events
 table makes another insert of the same key wait for it.
 */
module Protocol {
  import opened Events

  // ---------- Appends ----------

  /** InDoubt: Append has reported an error, and the server has not yet ended the transaction.
      Committed(false): the transaction was applied although its caller saw an error. */
  datatype Phase = Begun | Inserting | InDoubt | Committed(acknowledged: bool) | Conflicted | Failed

  /** One call of Append: `rows` event rows and |ids| outbox rows of `batch` are inserted so far. */
  datatype Tx<+E> = Tx(
    stream: Uuid,
    expected: nat,
    batch: seq<Envelope<E>>,
    phase: Phase,
    rows: nat,
    ids: seq<nat>)
  {
    predicate Open() {
      phase.Begun? || phase.Inserting? || phase.InDoubt?
    }

    predicate Complete() {
      rows == |batch| == |ids|
    }

    /** An uncommitted event row with this key is in the table. */
    predicate Holds(k: Key) {
      Open() && exists i :: 0 <= i < rows && i < |batch| && KeyOf(batch[i]) == k
    }
  }

  // ---------- Dispatch ----------

  /** One non-empty claim. The dispatcher's side is `published`, `stopped` and `running`; the
      server's side is `live` (the transaction is open and holds the row locks), `sent` (the commit
      reported an error and may still be applied) and `marked`. */
  datatype Session = Session(
    ids: seq<nat>,
    published: nat,
    stopped: bool,
    running: bool,
    live: bool,
    sent: bool,
    marked: bool)
  {
    predicate Open() {
      running || live
    }
  }

  /** One Publish: `handlers` are the handlers subscribed at that moment, `results` says for those
      that ran whether they returned nil. A crash inside Publish leaves some of them without a result. */
  datatype Delivery<+E> = Delivery(id: nat, env: Envelope<E>, handlers: seq<nat>, results: seq<bool>)
  {
    predicate Ok() {
      |results| == |handlers| && forall r | r in results :: r
    }

    /** The handler ran. */
    predicate Ran(h: nat) {
      h in handlers[..if |results| <= |handlers| then |results| else |handlers|]
    }
  }

  type Bus = map<string, seq<nat>>

  function Subscribers(bus: Bus, eventType: string): seq<nat> {
    if eventType in bus then bus[eventType] else []
  }

  // ---------- States and steps ----------

  /** `events` and `outbox` hold the committed rows; `dispatched` are the outbox ids whose
      dispatched_at is set; `nextId` is the bigserial counter, which no rollback resets. */
  datatype State<+E> = State(
    events: map<Key, Envelope<E>>,
    outbox: map<nat, Envelope<E>>,
    dispatched: set<nat>,
    nextId: nat,
    txs: seq<Tx<E>>,
    bus: Bus,
    sessions: seq<Session>,
    log: seq<Delivery<E>>)

  datatype Step<+E> =
    // Appends
    | Begin(stream: Uuid, expected: nat, batch: seq<Envelope<E>>)
    | HeadCheck(t: nat, head: nat)
    | InsertEvent(t: nat)
    | InsertOutbox(t: nat)
    | SkipId
    | CommitAppend(t: nat)
    | ReportError(t: nat)
    | ServerCommit(t: nat)
    | Rollback(t: nat)
    // Dispatch
    | Subscribe(eventType: string, handler: nat)
    | Claim(batchSize: nat, ids: seq<nat>)
    | Publish(d: nat, results: seq<bool>)
    | CrashPublishing(d: nat, results: seq<bool>)
    | CommitClaim(d: nat)
    | CommitClaimError(d: nat)
    | ServerMark(d: nat)
    | ReleaseClaim(d: nat)
    | Abandon(d: nat)
    | Drop(d: nat)

  function Init<E>(bus: Bus): State<E> {
    State(map[], map[], {}, 1, [], bus, [], [])
  }

  /** SELECT COALESCE(MAX(sequence), 0) over the committed rows of a stream. */
  ghost predicate IsHead<E>(events: map<Key, Envelope<E>>, stream: Uuid, head: nat) {
    && (Key(stream, head) in events || (head == 0 && forall k | k in events :: k.stream != stream))
    && forall k | k in events && k.stream == stream :: k.sequence <= head
  }

  ghost predicate Ascending(ids: seq<nat>) {
    forall i, j | 0 <= i < j < |ids| :: ids[i] < ids[j]
  }

  /** Row locks, which SKIP LOCKED passes over. */
  predicate Locked<E>(s: State<E>, id: nat) {
    exists d :: 0 <= d < |s.sessions| && s.sessions[d].live && id in s.sessions[d].ids
  }

  predicate Claimable<E>(s: State<E>, id: nat) {
    id in s.outbox && id !in s.dispatched && !Locked(s, id)
  }

  function Elements(ids: seq<nat>): (r: set<nat>)
    ensures forall j | 0 <= j < |ids| :: ids[j] in r
  {
    set i | i in ids
  }

  /** What any claim may hold when its SELECT is done: rows that are committed, pending and locked by
      nobody else, in id order. Which of them the SELECT finds is left open, because with several
      dispatchers it locks row by row while others claim and mark. */
  ghost predicate ClaimResult<E>(s: State<E>, batchSize: nat, ids: seq<nat>) {
    && 0 < |ids| <= batchSize
    && Ascending(ids)
    && forall j | 0 <= j < |ids| :: Claimable(s, ids[j])
  }

  /** The claim of a SELECT that nobody disturbs: the first batchSize claimable rows by id. */
  ghost predicate FirstClaimable<E>(s: State<E>, batchSize: nat, ids: seq<nat>) {
    && |ids| <= batchSize
    && Ascending(ids)
    && (forall j | 0 <= j < |ids| :: Claimable(s, ids[j]))
    && forall i | Claimable(s, i) && i !in ids :: |ids| == batchSize && forall j | 0 <= j < |ids| :: ids[j] < i
  }

  ghost predicate TxStep<E>(s: State<E>, t: nat, phase: Phase) {
    t < |s.txs| && s.txs[t].phase == phase
  }

  ghost predicate SessionStep<E>(s: State<E>, d: nat) {
    d < |s.sessions| && s.sessions[d].running
  }

  /** The dispatcher still has an entry to publish. */
  ghost predicate CanPublish<E>(s: State<E>, d: nat) {
    && SessionStep(s, d)
    && !s.sessions[d].stopped
    && s.sessions[d].published < |s.sessions[d].ids|
    && s.sessions[d].ids[s.sessions[d].published] in s.outbox
  }

  function CurrentEntry<E>(s: State<E>, d: nat): Envelope<E>
    requires CanPublish(s, d)
  {
    s.outbox[s.sessions[d].ids[s.sessions[d].published]]
  }

  ghost predicate Enabled<E>(s: State<E>, step: Step<E>) {
    match step
    case Begin(stream, expected, batch) => WellFormedBatch(stream, expected, batch)
    case HeadCheck(t, head) => TxStep(s, t, Begun) && IsHead(s.events, s.txs[t].stream, head)
    case InsertEvent(t) =>
      && TxStep(s, t, Inserting)
      && |s.txs[t].ids| == s.txs[t].rows < |s.txs[t].batch|
      && forall u | 0 <= u < |s.txs| && u != t :: !s.txs[u].Holds(KeyOf(s.txs[t].batch[s.txs[t].rows]))
    case InsertOutbox(t) => TxStep(s, t, Inserting) && s.txs[t].rows == |s.txs[t].ids| + 1
    case SkipId => true
    case CommitAppend(t) => TxStep(s, t, Inserting) && s.txs[t].Complete()
    case ReportError(t) => t < |s.txs| && (s.txs[t].phase.Begun? || s.txs[t].phase.Inserting?)
    case ServerCommit(t) => TxStep(s, t, InDoubt) && s.txs[t].Complete()
    case Rollback(t) => t < |s.txs| && s.txs[t].Open()
    case Subscribe(_, _) => true
    case Claim(batchSize, ids) => ClaimResult(s, batchSize, ids)
    case Publish(d, results) =>
      CanPublish(s, d) && |results| == |Subscribers(s.bus, CurrentEntry(s, d).eventType)|
    case CrashPublishing(d, results) =>
      CanPublish(s, d) && |results| < |Subscribers(s.bus, CurrentEntry(s, d).eventType)|
    case CommitClaim(d) => SessionStep(s, d) && s.sessions[d].live && s.sessions[d].published <= |s.sessions[d].ids|
    case CommitClaimError(d) => SessionStep(s, d)
    case ServerMark(d) =>
      d < |s.sessions| && s.sessions[d].live && s.sessions[d].sent && s.sessions[d].published <= |s.sessions[d].ids|
    case ReleaseClaim(d) => SessionStep(s, d)
    case Abandon(d) => SessionStep(s, d)
    case Drop(d) => d < |s.sessions| && s.sessions[d].live
  }

  /** The events table after inserting the first n rows of batch. */
  function InsertRows<E>(events: map<Key, Envelope<E>>, batch: seq<Envelope<E>>, n: nat): map<Key, Envelope<E>>
    requires n <= |batch|
  {
    if n == 0 then events else InsertRows(events, batch, n - 1)[KeyOf(batch[n - 1]) := batch[n - 1]]
  }

  /** The outbox table after inserting the first n rows of batch under the drawn ids. */
  function InsertOutboxRows<E>(outbox: map<nat, Envelope<E>>, ids: seq<nat>, batch: seq<Envelope<E>>, n: nat)
    : map<nat, Envelope<E>>
    requires n <= |batch| == |ids|
  {
    if n == 0 then outbox else InsertOutboxRows(outbox, ids, batch, n - 1)[ids[n - 1] := batch[n - 1]]
  }

  function SetTx<E>(s: State<E>, t: nat, x: Tx<E>): State<E>
    requires t < |s.txs|
  {
    s.(txs := s.txs[t := x])
  }

  function SetSession<E>(s: State<E>, d: nat, x: Session): State<E>
    requires d < |s.sessions|
  {
    s.(sessions := s.sessions[d := x])
  }

  /** The commit of an append: all its rows become visible in both tables at once. */
  function ApplyAppend<E>(s: State<E>, t: nat, acknowledged: bool): State<E>
    requires t < |s.txs| && s.txs[t].Complete()
  {
    var x := s.txs[t];
    SetTx(s, t, x.(phase := Committed(acknowledged))).(
      events := InsertRows(s.events, x.batch, |x.batch|),
      outbox := InsertOutboxRows(s.outbox, x.ids, x.batch, |x.batch|))
  }

  /** The commit of a claim: the delivered prefix is marked and the locks are gone. */
  function ApplyMarks<E>(s: State<E>, d: nat): State<E>
    requires d < |s.sessions| && s.sessions[d].published <= |s.sessions[d].ids|
  {
    var x := s.sessions[d];
    SetSession(s, d, x.(running := false, live := false, marked := true)).(
      dispatched := s.dispatched + Elements(x.ids[..x.published]))
  }

  function Deliver<E>(s: State<E>, d: nat, results: seq<bool>): Delivery<E>
    requires CanPublish(s, d)
  {
    var env := CurrentEntry(s, d);
    Delivery(s.sessions[d].ids[s.sessions[d].published], env, Subscribers(s.bus, env.eventType), results)
  }

  function After<E>(s: State<E>, step: Step<E>): State<E>
    requires Enabled(s, step)
  {
    match step
    case Begin(stream, expected, batch) => s.(txs := s.txs + [Tx(stream, expected, batch, Begun, 0, [])])
    case HeadCheck(t, head) =>
      SetTx(s, t, s.txs[t].(phase := if head == s.txs[t].expected then Inserting else Conflicted))
    case InsertEvent(t) =>
      var x := s.txs[t];
      SetTx(s, t, if KeyOf(x.batch[x.rows]) in s.events then x.(phase := Conflicted) else x.(rows := x.rows + 1))
    case InsertOutbox(t) =>
      SetTx(s, t, s.txs[t].(ids := s.txs[t].ids + [s.nextId])).(nextId := s.nextId + 1)
    case SkipId => s.(nextId := s.nextId + 1)
    case CommitAppend(t) => ApplyAppend(s, t, true)
    case ReportError(t) => SetTx(s, t, s.txs[t].(phase := InDoubt))
    case ServerCommit(t) => ApplyAppend(s, t, false)
    case Rollback(t) => SetTx(s, t, s.txs[t].(phase := Failed))
    case Subscribe(eventType, handler) =>
      s.(bus := s.bus[eventType := Subscribers(s.bus, eventType) + [handler]])
    case Claim(_, ids) => s.(sessions := s.sessions + [Session(ids, 0, false, true, true, false, false)])
    case Publish(d, results) =>
      var delivery := Deliver(s, d, results);
      var x := s.sessions[d];
      SetSession(s, d, if delivery.Ok() then x.(published := x.published + 1) else x.(stopped := true)).(
        log := s.log + [delivery])
    case CrashPublishing(d, results) =>
      SetSession(s, d, s.sessions[d].(running := false)).(log := s.log + [Deliver(s, d, results)])
    case CommitClaim(d) => ApplyMarks(s, d)
    case CommitClaimError(d) =>
      SetSession(s, d, s.sessions[d].(running := false, sent := s.sessions[d].live))
    case ServerMark(d) => ApplyMarks(s, d)
    case ReleaseClaim(d) => SetSession(s, d, s.sessions[d].(running := false, live := false))
    case Abandon(d) => SetSession(s, d, s.sessions[d].(running := false))
    case Drop(d) => SetSession(s, d, s.sessions[d].(live := false))
  }

  /** The state a run of steps reaches, or None when some step of it was not enabled. */
  ghost function Run<E>(bus: Bus, steps: seq<Step<E>>): Option<State<E>> {
    if steps == [] then Some(Init(bus))
    else
      var before := Run(bus, steps[..|steps| - 1]);
      var step := steps[|steps| - 1];
      if before.Some? && Enabled(before.value, step) then Some(After(before.value, step)) else None
  }
}
