/** Why claims have to be guarded: runs of the orders application in which every claim takes the first rows it
    can, no handler fails, and yet an event is overtaken or the read model is left wrong for good. */
module Counterexamples {
  import opened Events
  import opened Protocol
  import opened AppendSafety
  import opened Streams
  import opened DispatchSafety
  import opened Continuations
  import opened DispatchOrder
  import opened Handlers
  import opened Orders
  import opened OrdersSystem
  import opened ProjectionAgreement

  /** Every claim takes exactly the first claimable rows; and if `alone`, none is made while a dispatcher is at
      work on another one. */
  ghost predicate ExactStep(w: World, step: WorldStep, alone: bool) {
    step.System? && step.step.Claim? ==>
      && FirstClaimable(w.db, step.step.batchSize, step.step.ids)
      && (alone ==> forall d | 0 <= d < |w.db.sessions| :: !w.db.sessions[d].running)
  }

  ghost predicate ExactRun(bus: Bus, steps: seq<WorldStep>, alone: bool) {
    && WorldRun(bus, steps).Some?
    && (steps == [] ||
        (ExactRun(bus, steps[..|steps| - 1], alone) &&
         ExactStep(WorldRun(bus, steps[..|steps| - 1]).value, steps[|steps| - 1], alone)))
  }

  /** The run has reached w. */
  ghost predicate Reaches(bus: Bus, steps: seq<WorldStep>, w: World, alone: bool) {
    ExactRun(bus, steps, alone) && WorldRun(bus, steps) == Some(w)
  }

  lemma Extend(alone: bool, bus: Bus, steps: seq<WorldStep>, w: World, step: WorldStep) returns (steps': seq<WorldStep>)
    requires Reaches(bus, steps, w, alone) && WorldEnabled(w, step) && ExactStep(w, step, alone)
    ensures Reaches(bus, steps', WorldAfter(w, step), alone) && steps' == steps + [step]
  {
    steps' := steps + [step];
    assert steps'[..|steps'| - 1] == steps;
  }

  /** The step of the protocol leads to db. */
  lemma Advance(alone: bool, bus: Bus, steps: seq<WorldStep>, w: World, step: Step<OrderEvent>, db: Db)
    returns (steps': seq<WorldStep>, w': World)
    requires Reaches(bus, steps, w, alone) && !step.Begin? && Enabled(w.db, step) && After(w.db, step) == db
    requires ExactStep(w, System(step), alone)
    ensures Reaches(bus, steps', w', alone) && w' == w.(db := db) && steps' == steps + [System(step)]
  {
    steps' := Extend(alone, bus, steps, w, System(step));
    w' := WorldAfter(w, System(step));
  }

  // ---------- One command, executed alone ----------

  /** The append is open as the last one, past its head check. */
  lemma BeginAlone(alone: bool, bus: Bus, steps: seq<WorldStep>, w: World, r: nat, env: Envelope<OrderEvent>)
    returns (steps': seq<WorldStep>, w': World)
    requires Reaches(bus, steps, w, alone) && WorldEnabled(w, Save(r))
    requires IsHead(w.db.events, w.runs[r].cmd.orderId, |w.runs[r].history|)
    requires SaveStep(w.runs[r]) == Begin(w.runs[r].cmd.orderId, |w.runs[r].history|, [env])
    ensures Reaches(bus, steps', w', alone)
    ensures var x := Tx(w.runs[r].cmd.orderId, |w.runs[r].history|, [env], Inserting, 0, []);
      w' == w.(origin := w.origin + [r], db := w.db.(txs := w.db.txs + [x]))
  {
    var x := Tx(w.runs[r].cmd.orderId, |w.runs[r].history|, [env], Begun, 0, []);
    steps' := Extend(alone, bus, steps, w, Save(r));
    w' := WorldAfter(w, Save(r));
    HeadCheckAlone(w.db, x);
    steps', w' := Advance(alone, bus, steps', w', HeadCheck(|w.db.txs|, x.expected),
      w.db.(txs := w.db.txs + [x.(phase := Inserting)]));
  }

  /** The rest of the append. */
  lemma InsertAndCommitAlone(alone: bool, bus: Bus, steps: seq<WorldStep>, w: World, db: Db, x: Tx<OrderEvent>)
    returns (steps': seq<WorldStep>, w': World)
    requires Reaches(bus, steps, w, alone) && w.db == db.(txs := db.txs + [x])
    requires x.phase.Inserting? && x.rows == 0 == |x.ids| && |x.batch| == 1 && KeyOf(x.batch[0]) !in db.events
    requires forall t | 0 <= t < |db.txs| :: !db.txs[t].Open()
    ensures Reaches(bus, steps', w', alone)
    ensures w' == w.(db := db.(
      events := db.events[KeyOf(x.batch[0]) := x.batch[0]],
      outbox := db.outbox[db.nextId := x.batch[0]],
      nextId := db.nextId + 1,
      txs := db.txs + [x.(phase := Committed(true), rows := 1, ids := [db.nextId])]))
  {
    var t, x1 := |db.txs|, x.(rows := 1);
    var x2, db2 := x1.(ids := [db.nextId]), db.(nextId := db.nextId + 1);
    InsertEventAlone(db, x);
    steps', w' := Advance(alone, bus, steps, w, InsertEvent(t), db.(txs := db.txs + [x1]));
    InsertOutboxAlone(db, x1);
    steps', w' := Advance(alone, bus, steps', w', InsertOutbox(t), db2.(txs := db.txs + [x2]));
    CommitAlone(db2, x2, db.nextId);
    steps', w' := Advance(alone, bus, steps', w', CommitAppend(t), After(w'.db, CommitAppend(t)));
  }

  lemma NextIsFree(events: map<Key, Envelope<OrderEvent>>, id: Uuid, head: nat)
    requires IsHead(events, id, head)
    ensures Key(id, head + 1) !in events
  {
    var next := Key(id, head + 1);
    assert next.stream == id && next.sequence > head;
  }

  /** An undisturbed Save. */
  lemma AppendAlone(
    alone: bool, bus: Bus, steps: seq<WorldStep>, w: World, r: nat, id: Uuid, n: nat, env: Envelope<OrderEvent>)
    returns (steps': seq<WorldStep>, w': World)
    requires Reaches(bus, steps, w, alone) && WorldEnabled(w, Save(r))
    requires forall t | 0 <= t < |w.db.txs| :: !w.db.txs[t].Open()
    requires id == w.runs[r].cmd.orderId && n == |w.runs[r].history| && SaveStep(w.runs[r]) == Begin(id, n, [env])
    requires IsHead(w.db.events, id, n) && KeyOf(env) == Key(id, n + 1) && KeyOf(env) !in w.db.events
    ensures Reaches(bus, steps', w', alone)
    ensures w' == w.(
      origin := w.origin + [r],
      db := w.db.(events := w.db.events[KeyOf(env) := env],
                  outbox := w.db.outbox[w.db.nextId := env],
                  nextId := w.db.nextId + 1,
                  txs := w.db.txs + [Tx(id, n, [env], Committed(true), 1, [w.db.nextId])]))
  {
    steps', w' := BeginAlone(alone, bus, steps, w, r, env);
    steps', w' := InsertAndCommitAlone(alone, bus, steps', w', w.db, Tx(id, n, [env], Inserting, 0, []));
  }

  // ---------- The run ----------

  const ID: Uuid := 1
  const WIRED: Bus := map[PLACED := [PROJECTION], SHIPPED := [PROJECTION]]
  const PLACE := PlaceOrder(ID, "Alice", 4200, None)
  const SHIP := ShipOrder(ID)
  const ROW_1 := OrderEnvelope(ID, 1, OrderPlaced("Alice", 4200, None))
  const ROW_2 := OrderEnvelope(ID, 2, OrderShipped)

  /** An order has been placed and shipped, and its two rows are pending. */
  ghost predicate PlacedAndShipped(db: Db) {
    && db.events == map[Key(ID, 1) := ROW_1, Key(ID, 2) := ROW_2]
    && db.outbox == map[1 := ROW_1, 2 := ROW_2]
    && db.dispatched == {} && db.bus == WIRED && db.sessions == [] && db.log == []
  }

  /** PlaceOrder has been executed. */
  ghost predicate PlacedOnly(w: World) {
    && w.db.events == map[Key(ID, 1) := ROW_1] && w.db.outbox == map[1 := ROW_1] && w.db.nextId == 2
    && w.db.dispatched == {} && w.db.bus == WIRED && w.db.sessions == [] && w.db.log == []
    && |w.runs| == 1 && (forall t | 0 <= t < |w.db.txs| :: !w.db.txs[t].Open())
  }

  lemma NothingStored(events: map<Key, Envelope<OrderEvent>>)
    requires events == map[]
    ensures LoadResult(events, ID, []) && IsHead(events, ID, 0)
  {
  }

  lemma PlaceFirst(alone: bool) returns (steps: seq<WorldStep>, w: World)
    ensures Reaches(WIRED, steps, w, alone) && PlacedOnly(w)
  {
    var w0, empty := World(Init(WIRED), [], []), [];
    NothingStored(w0.db.events);
    steps := Extend(alone, WIRED, [], w0, Load(PLACE, empty));
    w := WorldAfter(w0, Load(PLACE, empty));
    assert w.runs == [CommandRun(PLACE, [])];
    Decisions();
    steps, w := AppendAlone(alone, WIRED, steps, w, 0, ID, 0, ROW_1);
  }

  /** What the two command handlers decide. */
  lemma Decisions()
    ensures Handle(PLACE, []) == Raised(ROW_1.payload) && Handle(SHIP, [ROW_1.payload]) == Raised(ROW_2.payload)
  {
    HandlersDecide(PLACE, []);
    HandlersDecide(SHIP, [ROW_1.payload]);
  }

  lemma FirstRowLoads(events: map<Key, Envelope<OrderEvent>>)
    requires events == map[Key(ID, 1) := ROW_1]
    ensures LoadResult(events, ID, [ROW_1])
  {
    var k := Key(ID, 1);
    assert [ROW_1][0] == events[k] && Loaded(events, [ROW_1], k);
  }

  lemma ShipSecond(alone: bool, steps: seq<WorldStep>, w: World) returns (steps': seq<WorldStep>, w': World)
    requires Reaches(WIRED, steps, w, alone) && PlacedOnly(w)
    ensures Reaches(WIRED, steps', w', alone) && PlacedAndShipped(w'.db)
  {
    FirstRowLoads(w.db.events);
    steps' := Extend(alone, WIRED, steps, w, Load(SHIP, [ROW_1]));
    w' := WorldAfter(w, Load(SHIP, [ROW_1]));
    assert w'.runs[1] == CommandRun(SHIP, [ROW_1.payload]);
    Decisions();
    NextIsFree(w.db.events, ID, 1);
    steps', w' := AppendAlone(alone, WIRED, steps', w', 1, ID, 1, ROW_2);
  }

  // ---------- One row at a time ----------

  lemma FirstRow(db: Db, id: nat)
    requires Claimable(db, id) && forall i | Claimable(db, i) :: id <= i
    ensures FirstClaimable(db, 1, [id]) && Enabled(db, Step<OrderEvent>.Claim(1, [id]))
  {
  }

  /** A dispatcher claims the first claimable row. */
  lemma ClaimOne(alone: bool, steps: seq<WorldStep>, w: World, id: nat) returns (steps': seq<WorldStep>, w': World)
    requires Reaches(WIRED, steps, w, alone) && Claimable(w.db, id)
    requires forall i | Claimable(w.db, i) :: id <= i
    requires alone ==> forall d | 0 <= d < |w.db.sessions| :: !w.db.sessions[d].running
    ensures Reaches(WIRED, steps', w', alone)
    ensures w' == w.(db := w.db.(sessions := w.db.sessions + [Session([id], 0, false, true, true, false, false)]))
  {
    var claim: Step<OrderEvent> := Claim(1, [id]);
    FirstRow(w.db, id);
    steps', w' := Advance(alone, WIRED, steps, w, claim, After(w.db, claim));
  }

  /** The projection's answer to the delivery of a row. */
  function Answer(db: Db, id: nat, ok: bool): Delivery<OrderEvent>
    requires id in db.outbox
  {
    Delivery(id, db.outbox[id], [PROJECTION], [ok])
  }

  lemma AnswerIsOk(db: Db, id: nat, ok: bool)
    requires id in db.outbox
    ensures Answer(db, id, ok).Ok() <==> ok
  {
    var results := [ok];
    assert results[0] in results;
    assert forall r | r in results :: r == ok;
  }

  /** The state in which claim d has published its only row. */
  function RowPublished(db: Db, d: nat, id: nat, ok: bool): Db
    requires d < |db.sessions| && id in db.outbox
  {
    db.(sessions := db.sessions[d := Session([id], if ok then 1 else 0, !ok, true, true, false, false)],
        log := db.log + [Answer(db, id, ok)])
  }

  lemma PublishOnly(db: Db, d: nat, id: nat, ok: bool)
    requires db.bus == WIRED && id in db.outbox && db.outbox[id].eventType in {PLACED, SHIPPED}
    requires d < |db.sessions| && db.sessions[d] == Session([id], 0, false, true, true, false, false)
    ensures var step := Step<OrderEvent>.Publish(d, [ok]);
      Enabled(db, step) && After(db, step) == RowPublished(db, d, id, ok)
  {
    assert CanPublish(db, d);
    assert Deliver(db, d, [ok]) == Answer(db, id, ok);
    AnswerIsOk(db, id, ok);
  }

  /** Claim d publishes its only row. */
  lemma PublishRow(alone: bool, steps: seq<WorldStep>, w: World, d: nat, id: nat, ok: bool)
    returns (steps': seq<WorldStep>, w': World)
    requires Reaches(WIRED, steps, w, alone) && w.db.bus == WIRED && id in w.db.outbox
    requires w.db.outbox[id].eventType in {PLACED, SHIPPED}
    requires d < |w.db.sessions| && w.db.sessions[d] == Session([id], 0, false, true, true, false, false)
    ensures Reaches(WIRED, steps', w', alone) && w' == w.(db := RowPublished(w.db, d, id, ok))
  {
    PublishOnly(w.db, d, id, ok);
    steps', w' := Advance(alone, WIRED, steps, w, Publish(d, [ok]), RowPublished(w.db, d, id, ok));
  }

  /** Claim d marks its only row. */
  lemma MarkRow(alone: bool, steps: seq<WorldStep>, w: World, d: nat, id: nat)
    returns (steps': seq<WorldStep>, w': World)
    requires Reaches(WIRED, steps, w, alone)
    requires d < |w.db.sessions| && w.db.sessions[d] == Session([id], 1, false, true, true, false, false)
    ensures Reaches(WIRED, steps', w', alone)
    ensures w' == w.(db := w.db.(
      sessions := w.db.sessions[d := Session([id], 1, false, false, false, false, true)],
      dispatched := w.db.dispatched + {id}))
  {
    var commit: Step<OrderEvent> := CommitClaim(d);
    assert [id][..1] == [id];
    steps', w' := Advance(alone, WIRED, steps, w, commit, After(w.db, commit));
  }

  /** Claim, publish and mark one row. */
  lemma ServeRow(alone: bool, steps: seq<WorldStep>, w: World, id: nat) returns (steps': seq<WorldStep>, w': World)
    requires Reaches(WIRED, steps, w, alone) && w.db.bus == WIRED && Claimable(w.db, id)
    requires w.db.outbox[id].eventType in {PLACED, SHIPPED}
    requires forall i | Claimable(w.db, i) :: id <= i
    requires alone ==> forall d | 0 <= d < |w.db.sessions| :: !w.db.sessions[d].running
    ensures Reaches(WIRED, steps', w', alone)
    ensures w' == w.(db := w.db.(
      sessions := w.db.sessions + [Session([id], 1, false, false, false, false, true)],
      dispatched := w.db.dispatched + {id},
      log := w.db.log + [Answer(w.db, id, true)]))
  {
    var d := |w.db.sessions|;
    steps', w' := ClaimOne(alone, steps, w, id);
    steps', w' := PublishRow(alone, steps', w', d, id, true);
    steps', w' := MarkRow(alone, steps', w', d, id);
    assert w'.db.sessions == w.db.sessions + [Session([id], 1, false, false, false, false, true)];
  }

  // ---------- The wrong order ----------

  /** What the projection makes of the two deliveries when the first row is delivered last. */
  lemma WrongOrder(log: Log, before: Log)
    requires log == before + [Delivery(2, ROW_2, [PROJECTION], [true]), Delivery(1, ROW_1, [PROJECTION], [true])]
    ensures ID in View(log) && View(log)[ID] == OrderSummary(ID, "Alice", 4200, None, false)
  {
    var n := |before|;
    assert log[..n + 2] == log && log[..n + 1][..n] == log[..n];
    assert [PROJECTION][..1] == [PROJECTION];
    assert log[n].Ran(PROJECTION) && log[n + 1].Ran(PROJECTION);
    assert View(log) == Project(View(log[..n + 1]), ROW_1);
  }

  lemma BothRows(events: map<Key, Envelope<OrderEvent>>)
    requires events == map[Key(ID, 1) := ROW_1, Key(ID, 2) := ROW_2]
    ensures Stream(events, ID) == [ROW_1, ROW_2]
    ensures Summary(ID, [ROW_1, ROW_2]) == Some(OrderSummary(ID, "Alice", 4200, None, true))
  {
    StreamIsUnique(events, ID, [ROW_1, ROW_2]);
    SummaryOfRows(ID, [ROW_1, ROW_2]);
  }

  /** Both rows are dispatched, no claim is open, and the record says that the shipped order has not been shipped. */
  ghost predicate WrongForGood(db: Db) {
    && Idle(db) && AllDispatched(db, ID)
    && Payloads(Stream(db.events, ID)) == [ROW_1.payload, ROW_2.payload]
    && ID in View(db.log) && !View(db.log)[ID].shipped
    && Summary(ID, Stream(db.events, ID)) == Some(View(db.log)[ID].(shipped := true))
  }

  lemma EndsWrong(db: Db, before: Log)
    requires db.events == map[Key(ID, 1) := ROW_1, Key(ID, 2) := ROW_2]
    requires db.outbox == map[1 := ROW_1, 2 := ROW_2] && db.dispatched == {1, 2} && Idle(db)
    requires db.log == before + [Delivery(2, ROW_2, [PROJECTION], [true]), Delivery(1, ROW_1, [PROJECTION], [true])]
    ensures WrongForGood(db)
  {
    WrongOrder(db.log, before);
    BothRows(db.events);
  }

  /** Two dispatchers, and nothing fails: the second one claims and publishes the second row while the first one
      still has the first row to publish. */
  lemma TwoDispatchersDisagree() returns (steps: seq<WorldStep>, db: Db)
    ensures ExactRun(WIRED, steps, false) && WorldRun(WIRED, steps).value.db == db
    ensures WrongForGood(db)
  {
    var w;
    steps, w := PlacedThenShipped(false);
    steps, w := ClaimOne(false, steps, w, 1);
    SecondIsNext(w.db);
    steps, w := ServeRow(false, steps, w, 2);
    steps, w := PublishRow(false, steps, w, 0, 1, true);
    steps, w := MarkRow(false, steps, w, 0, 1);
    db := w.db;
    EndsWrong(db, []);
  }

  /** One dispatcher, and no handler fails. Its commit of the first row reports an error, and the server keeps the
      locks of the lost transaction for a while. The dispatcher goes on with the second row, and gets the first
      one again when the locks are gone. */
  lemma OneDispatcherDisagrees() returns (steps: seq<WorldStep>, db: Db)
    ensures ExactRun(WIRED, steps, true) && WorldRun(WIRED, steps).value.db == db
    ensures WrongForGood(db)
  {
    var w;
    steps, w := FirstCommitFails();
    SecondIsNext(w.db);
    steps, w := ServeRow(true, steps, w, 2);
    var drop: Step<OrderEvent> := Drop(0);
    steps, w := Advance(true, WIRED, steps, w, drop, After(w.db, drop));
    assert forall i | Claimable(w.db, i) :: i == 1;
    steps, w := ServeRow(true, steps, w, 1);
    db := w.db;
    EndsWrong(db, [Delivery(1, ROW_1, [PROJECTION], [true])]);
  }

  /** One dispatcher: a Publish fails, the Release reports an error while the server still holds the locks, and the
      next tick offers the second event before the first one has ever been delivered. */
  lemma OneDispatcherOvertakes() returns (steps: seq<WorldStep>, db: Db)
    ensures ExactRun(WIRED, steps, true) && WorldRun(WIRED, steps).value.db == db
    ensures !OfferedInOrder(db.outbox, db.log)
    ensures exists p :: 0 <= p < |db.log| && KeyOf(db.log[p].env) == Key(ID, 2) && !DeliveredAt(db.log, Key(ID, 1))
  {
    var w;
    steps, w := PlacedThenShipped(true);
    steps, w := ClaimOne(true, steps, w, 1);
    steps, w := PublishRow(true, steps, w, 0, 1, false);
    var abandon: Step<OrderEvent> := Abandon(0);
    steps, w := Advance(true, WIRED, steps, w, abandon, After(w.db, abandon));
    SecondIsNext(w.db);
    steps, w := ClaimOne(true, steps, w, 2);
    steps, w := PublishRow(true, steps, w, 1, 2, true);
    db := w.db;
    SecondWasOffered(db);
  }

  lemma SecondWasOffered(db: Db)
    requires db.outbox == map[1 := ROW_1, 2 := ROW_2]
    requires db.log == [Answer(db, 1, false), Answer(db, 2, true)]
    ensures !OfferedInOrder(db.outbox, db.log)
    ensures exists p :: 0 <= p < |db.log| && KeyOf(db.log[p].env) == Key(ID, 2) && !DeliveredAt(db.log, Key(ID, 1))
  {
    AnswerIsOk(db, 1, false);
    assert KeyOf(db.log[1].env) == Key(ID, 2);
    assert db.log[..1][0] == Answer(db, 1, false);
    assert SameStream(db.outbox, 1, db.log[1].id) && !Delivered(db.log[..1], 1);
  }

  /** A commit that reported an error, and was applied: the published row is dispatched. */
  lemma FailedCommitMarks() returns (steps: seq<WorldStep>, db: Db)
    ensures ExactRun(WIRED, steps, true) && WorldRun(WIRED, steps).value.db == db
    ensures |steps| > 1 && steps[|steps| - 2] == System(CommitClaimError(0)) && db.dispatched == {1}
  {
    var w;
    steps, w := FirstCommitFails();
    var mark: Step<OrderEvent> := ServerMark(0);
    assert [1][..1] == [1];
    steps, w := Advance(true, WIRED, steps, w, mark, After(w.db, mark));
    db := w.db;
  }

  // ---------- Where these runs begin ----------

  lemma PlacedThenShipped(alone: bool) returns (steps: seq<WorldStep>, w: World)
    ensures Reaches(WIRED, steps, w, alone) && PlacedAndShipped(w.db)
  {
    steps, w := PlaceFirst(alone);
    steps, w := ShipSecond(alone, steps, w);
  }

  /** While another transaction locks the first row, the second one is the first claimable. */
  lemma SecondIsNext(db: Db)
    requires db.outbox == map[1 := ROW_1, 2 := ROW_2] && db.dispatched == {}
    requires |db.sessions| == 1 && db.sessions[0].live && db.sessions[0].ids == [1]
    ensures Claimable(db, 2) && forall i | Claimable(db, i) :: 2 <= i
  {
    assert 1 in db.sessions[0].ids && 2 !in db.sessions[0].ids;
    assert Locked(db, 1);
  }

  lemma FirstCommitFails() returns (steps: seq<WorldStep>, w: World)
    ensures Reaches(WIRED, steps, w, true)
    ensures |steps| > 0 && steps[|steps| - 1] == System(CommitClaimError(0))
    ensures w.db.events == map[Key(ID, 1) := ROW_1, Key(ID, 2) := ROW_2]
    ensures w.db.outbox == map[1 := ROW_1, 2 := ROW_2] && w.db.dispatched == {} && w.db.bus == WIRED
    ensures w.db.sessions == [Session([1], 1, false, false, true, true, false)]
    ensures w.db.log == [Delivery(1, ROW_1, [PROJECTION], [true])]
  {
    steps, w := PlacedThenShipped(true);
    steps, w := ClaimOne(true, steps, w, 1);
    steps, w := PublishRow(true, steps, w, 0, 1, true);
    var fail: Step<OrderEvent> := CommitClaimError(0);
    steps, w := Advance(true, WIRED, steps, w, fail, After(w.db, fail));
  }
}
