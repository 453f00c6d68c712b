/**
 The summary projection against the committed log.

 The projection's records are a function of the deliveries: every delivery that ran its handler updates
 them, whether or not the Publish as a whole succeeded. They outlive the dispatchers.
 */
module ProjectionAgreement {
  import opened Events
  import opened Protocol
  import opened AppendSafety
  import opened Streams
  import opened DispatchSafety
  import opened DispatchOrder
  import opened Handlers
  import opened Orders
  import opened OrdersSystem

  type Log = seq<Delivery<OrderEvent>>

  /** The handlers that Wire subscribes, OnOrderPlaced and OnOrderShipped, under one number. */
  const PROJECTION: nat := 0

  ghost function View(log: Log): Records {
    if log == [] then map[]
    else
      var before, last := View(log[..|log| - 1]), log[|log| - 1];
      if last.Ran(PROJECTION) then Project(before, last.env) else before
  }

  /** The orders whose OrderPlaced the projection has seen. */
  ghost function PlacedSeen(log: Log): set<Uuid> {
    if log == [] then {}
    else
      var before, last := PlacedSeen(log[..|log| - 1]), log[|log| - 1];
      if last.Ran(PROJECTION) && last.env.payload.OrderPlaced? then before + {last.env.aggregateId} else before
  }

  /** The records at each step: a Publish applies the event to them exactly if the projection is subscribed to its
      type, whatever any handler answers; one that a crash cut short, exactly if the projection's turn had come. No
      other step touches them. */
  lemma StepUpdatesView(db: Db, step: Step<OrderEvent>)
    requires Enabled(db, step)
    ensures !step.Publish? && !step.CrashPublishing? ==> View(After(db, step).log) == View(db.log)
    ensures step.Publish? || step.CrashPublishing? ==>
      var x := db.sessions[step.d];
      var env := db.outbox[x.ids[x.published]];
      var handlers := if env.eventType in db.bus then db.bus[env.eventType] else [];
      var turns := if step.Publish? then |handlers| else |step.results|;
      View(After(db, step).log) ==
        if exists j :: 0 <= j < turns && j < |handlers| && handlers[j] == PROJECTION
        then Project(View(db.log), env)
        else View(db.log)
  {
    StepLogs(db, step);
    if step.Publish? || step.CrashPublishing? {
      var delivery := Deliver(db, step.d, step.results);
      assert (db.log + [delivery])[..|db.log|] == db.log;
      var n := |delivery.results|;
      assert forall j | 0 <= j < n :: delivery.handlers[..n][j] == delivery.handlers[j];
      assert delivery.Ran(PROJECTION) <==> exists j :: 0 <= j < n && delivery.handlers[j] == PROJECTION;
    }
  }

  // ---------- What the records say, whatever the order of deliveries ----------

  /** Every delivery is of a committed row, and every stream is one of an order. */
  ghost predicate LogOfRows(events: map<Key, Envelope<OrderEvent>>, log: Log) {
    && (forall id: Uuid :: OrderRows(id, Stream(events, id)))
    && (forall p | 0 <= p < |log| ::
          var env := log[p].env;
          && 1 <= env.sequence <= |Stream(events, env.aggregateId)|
          && env == Stream(events, env.aggregateId)[env.sequence - 1])
  }

  /** The record when the last delivery was of sequence n, and OrderPlaced has or has not been among them. */
  ghost predicate RecordIs(rec: OrderSummary, id: Uuid, rows: seq<Envelope<OrderEvent>>, placed: bool, n: nat)
    requires OrderRows(id, rows)
  {
    && 1 <= n <= |rows|
    && if placed then Summary(id, rows[..n]) == Some(rec) else n == 2 && rec == ZERO_SUMMARY.(shipped := true)
  }

  lemma SummaryOfPrefix(id: Uuid, rows: seq<Envelope<OrderEvent>>, n: nat)
    requires OrderRows(id, rows) && 1 <= n <= |rows|
    ensures rows[0].payload.OrderPlaced? && (n == 2 ==> rows[1].payload.OrderShipped?)
    ensures var placed := rows[0].payload;
      Summary(id, rows[..n]) == Some(OrderSummary(id, placed.customerName, placed.amount, placed.notes, n == 2))
  {
    assert Payloads(rows)[0] == rows[0].payload;
    assert |rows| == 2 ==> Payloads(rows)[1] == rows[1].payload;
    SummaryOfRows(id, rows[..n]);
  }

  lemma DeliveryUpdatesRecord(
    rec: Option<OrderSummary>, id: Uuid, rows: seq<Envelope<OrderEvent>>, placed: bool, n: nat, records: Records,
    m: nat)
    requires OrderRows(id, rows) && 1 <= m <= |rows|
    requires rec == if id in records then Some(records[id]) else None
    requires if rec.Some? then RecordIs(rec.value, id, rows, placed, n) else !placed
    ensures var records' := Project(records, rows[m - 1]);
      && id in records'
      && RecordIs(records'[id], id, rows, placed || rows[m - 1].payload.OrderPlaced?, m)
  {
    SummaryOfPrefix(id, rows, m);
    if rec.Some? {
      SummaryOfPrefix(id, rows, n);
    }
  }

  lemma {:induction false} ViewIsExplained(events: map<Key, Envelope<OrderEvent>>, log: Log, id: Uuid)
    requires LogOfRows(events, log)
    ensures id in View(log) <==> id in LastSeen(log, PROJECTION)
    ensures id in PlacedSeen(log) ==> id in View(log)
    ensures id in View(log) ==>
      RecordIs(View(log)[id], id, Stream(events, id), id in PlacedSeen(log), LastSeen(log, PROJECTION)[id])
  {
    if log != [] {
      var before, last := log[..|log| - 1], log[|log| - 1];
      var here := last.env.aggregateId;
      ViewIsExplained(events, before, id);
      if last.Ran(PROJECTION) && here == id {
        var rec := if here in View(before) then Some(View(before)[here]) else None;
        var n := if here in View(before) then LastSeen(before, PROJECTION)[here] else 0;
        var placed, m := here in PlacedSeen(before), last.env.sequence;
        DeliveryUpdatesRecord(rec, here, Stream(events, here), placed, n, View(before), m);
      }
    }
  }

  // ---------- The projection hears of everything ----------

  ghost predicate Wired(bus: Bus) {
    PROJECTION in Subscribers(bus, PLACED) && PROJECTION in Subscribers(bus, SHIPPED)
  }

  ghost predicate WiredInv(db: Db) {
    Wired(db.bus) && forall p | 0 <= p < |db.log| :: PROJECTION in db.log[p].handlers
  }

  lemma OutboxRowIsStreamRow(w: World, i: nat)
    requires WorldInv(w) && i in w.db.outbox
    ensures var env := w.db.outbox[i];
      && 1 <= env.sequence <= |Stream(w.db.events, env.aggregateId)|
      && env == Stream(w.db.events, env.aggregateId)[env.sequence - 1]
      && env.eventType in {PLACED, SHIPPED}
  {
    var env := w.db.outbox[i];
    StreamIsStream(w.db.events, env.aggregateId);
    assert KeyOf(env) == Key(env.aggregateId, env.sequence) && KeyOf(env) in w.db.events;
    assert OrderRows(env.aggregateId, Stream(w.db.events, env.aggregateId));
  }

  lemma LogIsOfRows(w: World)
    requires WorldInv(w)
    ensures LogOfRows(w.db.events, w.db.log)
  {
    forall p | 0 <= p < |w.db.log|
      ensures var env := w.db.log[p].env;
        && 1 <= env.sequence <= |Stream(w.db.events, env.aggregateId)|
        && env == Stream(w.db.events, env.aggregateId)[env.sequence - 1]
    {
      OutboxRowIsStreamRow(w, w.db.log[p].id);
    }
  }

  lemma WiredIsSubscribed(w: World)
    requires WorldInv(w) && WiredInv(w.db)
    ensures Subscribed(w.db, PROJECTION)
  {
    forall i | i in w.db.outbox ensures PROJECTION in Subscribers(w.db.bus, w.db.outbox[i].eventType) {
      OutboxRowIsStreamRow(w, i);
    }
  }

  lemma DeliveryKeepsWired(db: Db, d: nat, results: seq<bool>)
    requires WiredInv(db) && CanPublish(db, d) && CurrentEntry(db, d).eventType in {PLACED, SHIPPED}
    ensures WiredInv(db.(log := db.log + [Deliver(db, d, results)]))
  {
  }

  lemma SubscribeKeepsWired(bus: Bus, eventType: string, handler: nat)
    requires Wired(bus)
    ensures Wired(bus[eventType := Subscribers(bus, eventType) + [handler]])
  {
  }

  lemma QuietStep(db: Db, step: Step<OrderEvent>)
    requires Enabled(db, step) && !step.Publish? && !step.CrashPublishing? && !step.Subscribe?
    ensures After(db, step).bus == db.bus && After(db, step).log == db.log
  {
  }

  lemma PublishStepKeepsWired(w: World, step: Step<OrderEvent>)
    requires WorldInv(w) && WiredInv(w.db) && Enabled(w.db, step) && (step.Publish? || step.CrashPublishing?)
    ensures WiredInv(After(w.db, step))
  {
    OutboxRowIsStreamRow(w, w.db.sessions[step.d].ids[w.db.sessions[step.d].published]);
    DeliveryKeepsWired(w.db, step.d, step.results);
  }

  lemma SystemStepKeepsWired(w: World, step: Step<OrderEvent>)
    requires WorldInv(w) && WiredInv(w.db) && Enabled(w.db, step)
    ensures WiredInv(After(w.db, step))
  {
    if step.Publish? || step.CrashPublishing? {
      PublishStepKeepsWired(w, step);
    } else if step.Subscribe? {
      SubscribeKeepsWired(w.db.bus, step.eventType, step.handler);
    } else {
      QuietStep(w.db, step);
    }
  }

  /** A delivered row has run the projection. */
  lemma DeliveredRan(db: Db, k: Key)
    requires WiredInv(db) && DeliveredAt(db.log, k)
    ensures exists p :: 0 <= p < |db.log| && KeyOf(db.log[p].env) == k && db.log[p].Ran(PROJECTION)
  {
    var p :| 0 <= p < |db.log| && KeyOf(db.log[p].env) == k && db.log[p].Ok();
    var delivery := db.log[p];
    assert delivery.handlers[..|delivery.handlers|] == delivery.handlers;
    assert delivery.Ran(PROJECTION);
  }

  lemma {:induction false} RanIsSeen(log: Log, p: nat)
    requires p < |log| && log[p].Ran(PROJECTION)
    ensures log[p].env.aggregateId in LastSeen(log, PROJECTION)
    ensures log[p].env.payload.OrderPlaced? ==> log[p].env.aggregateId in PlacedSeen(log)
  {
    if p < |log| - 1 {
      RanIsSeen(log[..|log| - 1], p);
    }
  }

  lemma {:induction false} LastSeenWasDelivered(log: Log, id: Uuid)
    requires id in LastSeen(log, PROJECTION)
    ensures exists p ::
      0 <= p < |log| && log[p].Ran(PROJECTION) && KeyOf(log[p].env) == Key(id, LastSeen(log, PROJECTION)[id])
  {
    var last := |log| - 1;
    if log[last].Ran(PROJECTION) && log[last].env.aggregateId == id {
      assert KeyOf(log[last].env) == Key(id, LastSeen(log, PROJECTION)[id]);
    } else {
      LastSeenWasDelivered(log[..last], id);
      var p :| 0 <= p < last && log[..last][p].Ran(PROJECTION) &&
               KeyOf(log[..last][p].env) == Key(id, LastSeen(log[..last], PROJECTION)[id]);
      assert log[p] == log[..last][p];
    }
  }

  lemma FirstRowSeen(w: World, id: Uuid)
    requires WorldInv(w) && WiredInv(w.db) && DeliveredAt(w.db.log, Key(id, 1))
    ensures id in PlacedSeen(w.db.log)
  {
    DeliveredRan(w.db, Key(id, 1));
    var p :| 0 <= p < |w.db.log| && KeyOf(w.db.log[p].env) == Key(id, 1) && w.db.log[p].Ran(PROJECTION);
    LogIsOfRows(w);
    SummaryOfPrefix(id, Stream(w.db.events, id), 1);
    RanIsSeen(w.db.log, p);
  }

  // ---------- Any number of dispatchers ----------

  /** All rows of the stream are dispatched. */
  ghost predicate AllDispatched(db: Db, id: Uuid) {
    forall i | i in db.outbox && db.outbox[i].aggregateId == id :: i in db.dispatched
  }

  lemma DispatchedWasDelivered(w: World, k: Key)
    requires WorldInv(w) && k in w.db.events && AllDispatched(w.db, k.stream)
    ensures DeliveredAt(w.db.log, k)
  {
    assert HasOutboxRow(w.db.events, w.db.outbox, k);
    var i :| i in w.db.outbox && w.db.outbox[i] == w.db.events[k];
    assert KeyOf(w.db.outbox[i]) == k;
    assert Delivered(w.db.log, i);
    var p :| 0 <= p < |w.db.log| && w.db.log[p].id == i && w.db.log[p].Ok();
    assert KeyOf(w.db.log[p].env) == k;
  }

  /** Once a whole stream is dispatched, its record agrees with the stream if and only if the projection saw
      the stream's last event last. This holds of any run, with any number of dispatchers. */
  lemma AgreementCondition(w: World, id: Uuid)
    requires WorldInv(w) && WiredInv(w.db) && Stream(w.db.events, id) != [] && AllDispatched(w.db, id)
    ensures id in View(w.db.log) && id in LastSeen(w.db.log, PROJECTION)
    ensures Some(View(w.db.log)[id]) == Summary(id, Stream(w.db.events, id)) <==>
            LastSeen(w.db.log, PROJECTION)[id] == |Stream(w.db.events, id)|
  {
    var rows, log := Stream(w.db.events, id), w.db.log;
    StreamIsStream(w.db.events, id);
    assert Key(id, 1) in w.db.events;
    DispatchedWasDelivered(w, Key(id, 1));
    FirstRowSeen(w, id);
    LogIsOfRows(w);
    ViewIsExplained(w.db.events, log, id);
    SummaryOfPrefix(id, rows, |rows|);
    SummaryOfPrefix(id, rows, LastSeen(log, PROJECTION)[id]);
    assert rows[..|rows|] == rows;
  }

  // ---------- Guarded claims ----------

  /** A run in which every claim is guarded. */
  ghost predicate GuardedWorldRun(bus: Bus, steps: seq<WorldStep>) {
    && WorldRun(bus, steps).Some?
    && (steps == [] ||
        (var before, step := steps[..|steps| - 1], steps[|steps| - 1];
         GuardedWorldRun(bus, before) && GuardedWorldStep(WorldRun(bus, before).value, step)))
  }

  ghost predicate GuardedWorldStep(w: World, step: WorldStep) {
    step.System? ==> Guarded(w.db, step.step, Current)
  }

  /** A run in which every claim takes the first rows, while no open claim has rows of the same streams. */
  ghost predicate ApartWorldRun(bus: Bus, steps: seq<WorldStep>) {
    && WorldRun(bus, steps).Some?
    && (steps == [] ||
        (var before, step := steps[..|steps| - 1], steps[|steps| - 1];
         ApartWorldRun(bus, before) && (step.System? ==> ApartStep(WorldRun(bus, before).value.db, step.step))))
  }

  lemma {:induction false} ApartWorldRunIsGuarded(bus: Bus, steps: seq<WorldStep>)
    requires ApartWorldRun(bus, steps)
    ensures GuardedWorldRun(bus, steps)
  {
    if steps != [] {
      var before, step := steps[..|steps| - 1], steps[|steps| - 1];
      ApartWorldRunIsGuarded(bus, before);
      WorldRunKeepsInv(bus, before);
      if step.System? {
        ApartStepIsGuarded(WorldRun(bus, before).value.db, step.step, Current);
      }
    }
  }

  ghost predicate AgreementInv(w: World) {
    WorldInv(w) && OrderInv(w.db, Current) && WiredInv(w.db) && SeenInv(w.db, PROJECTION)
  }

  lemma StepKeepsAgreementInv(w: World, step: WorldStep)
    requires AgreementInv(w) && WorldEnabled(w, step) && GuardedWorldStep(w, step)
    ensures AgreementInv(WorldAfter(w, step))
  {
    WorldStepKeepsInv(w, step);
    WiredIsSubscribed(w);
    match step
    case Load(_, _) =>
    case Save(r) =>
      StepKeepsOrder(w.db, SaveStep(w.runs[r]), Current);
      StepKeepsSeen(w.db, SaveStep(w.runs[r]), PROJECTION);
    case System(step) =>
      StepKeepsOrder(w.db, step, Current);
      StepKeepsSeen(w.db, step, PROJECTION);
      SystemStepKeepsWired(w, step);
  }

  lemma {:induction false} GuardedWorldRunKeepsInv(bus: Bus, steps: seq<WorldStep>)
    requires Wired(bus) && GuardedWorldRun(bus, steps)
    ensures AgreementInv(WorldRun(bus, steps).value)
  {
    if steps == [] {
      WorldRunKeepsInv(bus, steps);
    } else {
      GuardedWorldRunKeepsInv(bus, steps[..|steps| - 1]);
      StepKeepsAgreementInv(WorldRun(bus, steps[..|steps| - 1]).value, steps[|steps| - 1]);
    }
  }

  lemma DeliveredAtKept(log: Log, p: nat, k: Key)
    requires p <= |log| && DeliveredAt(log[..p], k)
    ensures DeliveredAt(log, k)
  {
    var q :| 0 <= q < p && KeyOf(log[..p][q].env) == k && log[..p][q].Ok();
    assert log[q] == log[..p][q];
  }

  lemma SeenWasPlaced(w: World, id: Uuid)
    requires AgreementInv(w) && id in LastSeen(w.db.log, PROJECTION)
    ensures id in PlacedSeen(w.db.log)
  {
    var log := w.db.log;
    LastSeenWasDelivered(log, id);
    var p :| 0 <= p < |log| && log[p].Ran(PROJECTION) && KeyOf(log[p].env) == Key(id, LastSeen(log, PROJECTION)[id]);
    LogIsOfRows(w);
    if log[p].env.sequence == 1 {
      SummaryOfPrefix(id, Stream(w.db.events, id), 1);
      RanIsSeen(log, p);
    } else {
      NeverOvertakes(w.db, p, 1);
      DeliveredAtKept(log, p, Key(id, 1));
      FirstRowSeen(w, id);
    }
  }

  /** Every record is the fold of a non-empty prefix of its order's stream, the prefix up to
      the event delivered last. */
  lemma RecordsFoldPrefixes(w: World, id: Uuid)
    requires AgreementInv(w) && id in View(w.db.log)
    ensures exists n ::
      1 <= n <= |Stream(w.db.events, id)| && Summary(id, Stream(w.db.events, id)[..n]) == Some(View(w.db.log)[id])
  {
    LogIsOfRows(w);
    ViewIsExplained(w.db.events, w.db.log, id);
    SeenWasPlaced(w, id);
    var n := LastSeen(w.db.log, PROJECTION)[id];
    assert Summary(id, Stream(w.db.events, id)[..n]) == Some(View(w.db.log)[id]);
  }

  /** If the stream is stored and all its rows are dispatched, its record is the fold of the stream. */
  ghost predicate RecordAgrees(db: Db, id: Uuid) {
    Stream(db.events, id) != [] && AllDispatched(db, id) ==>
      id in View(db.log) && Some(View(db.log)[id]) == Summary(id, Stream(db.events, id))
  }

  /** Once all rows of a stream are dispatched, its record is the fold of the whole stream. */
  lemma DispatchedStreamsAgree(w: World, id: Uuid)
    requires AgreementInv(w)
    ensures RecordAgrees(w.db, id)
  {
    if Stream(w.db.events, id) == [] || !AllDispatched(w.db, id) {
      return;
    }
    var rows := Stream(w.db.events, id);
    StreamIsStream(w.db.events, id);
    var head := Key(id, |rows|);
    assert head in w.db.events;
    AgreementCondition(w, id);
    LogIsOfRows(w);
    ViewIsExplained(w.db.events, w.db.log, id);
    assert HasOutboxRow(w.db.events, w.db.outbox, head);
    var i :| i in w.db.outbox && w.db.outbox[i] == w.db.events[head];
    assert KeyOf(w.db.outbox[i]) == head;
    assert SeenFrom(w.db.outbox, w.db.log, PROJECTION, i);
  }

  /** The same for runs: whatever crashes, fails or races, with any number of dispatchers, as long as the
      claims are guarded. */
  lemma ProjectionAgrees(bus: Bus, steps: seq<WorldStep>, id: Uuid)
    requires Wired(bus) && GuardedWorldRun(bus, steps)
    ensures var db := WorldRun(bus, steps).value.db;
      && RecordAgrees(db, id)
      && (id in View(db.log) ==>
            exists n ::
              1 <= n <= |Stream(db.events, id)| && Summary(id, Stream(db.events, id)[..n]) == Some(View(db.log)[id]))
  {
    GuardedWorldRunKeepsInv(bus, steps);
    var w := WorldRun(bus, steps).value;
    DispatchedStreamsAgree(w, id);
    if id in View(w.db.log) {
      RecordsFoldPrefixes(w, id);
    }
  }

  /** So it does when no two open claims share a stream; in particular with one dispatcher, each of whose claims is
      made when the previous one has ended on both sides. */
  lemma ApartProjectionAgrees(bus: Bus, steps: seq<WorldStep>, id: Uuid)
    requires Wired(bus) && ApartWorldRun(bus, steps)
    ensures RecordAgrees(WorldRun(bus, steps).value.db, id)
  {
    ApartWorldRunIsGuarded(bus, steps);
    ProjectionAgrees(bus, steps, id);
  }
}
