/** The wired orders application: its command handlers, on either store. On the in-memory store Save publishes in
    process, and the read model follows each command. */
module OrdersApp {
  import opened Events
  import opened Orders
  import opened Aggregate
  import Memory
  import Postgres
  import Protocol
  import Streams
  import AppendSafety
  import OrdersSystem

  type OrderAggregate = Aggregate<Order, OrderEvent>

  // ---------- The aggregate's commands ----------

  /** Order.Place. */
  method Place(o: OrderAggregate, name: string, amount: int, notes: Option<string>) returns (ok: bool)
    requires o.Valid()
    modifies o
    ensures o.Valid() && o.observed == old(o.observed) && o.id == old(o.id)
    ensures ok <==> old(o.state).status == New
    ensures o.uncommitted == old(o.uncommitted) + if ok then [OrderPlaced(name, amount, notes)] else []
    ensures !ok ==> unchanged(o)
  {
    if o.state.status != New {
      return false;
    }
    o.Raise(OrderPlaced(name, amount, notes));
    return true;
  }

  /** Order.Ship. */
  method Ship(o: OrderAggregate) returns (ok: bool)
    requires o.Valid()
    modifies o
    ensures o.Valid() && o.observed == old(o.observed) && o.id == old(o.id)
    ensures ok <==> old(o.state).status == Placed
    ensures o.uncommitted == old(o.uncommitted) + if ok then [OrderShipped] else []
    ensures !ok ==> unchanged(o)
  {
    match o.state.status {
      case New => return false;
      case Shipped => return false;
      case Placed =>
    }
    o.Raise(OrderShipped);
    return true;
  }

  // ---------- The whole read model ----------

  type OrderStreams = Memory.Streams<OrderEvent>

  /** Every stream is one of an order. */
  ghost predicate AllOrders(streams: OrderStreams) {
    forall id {:trigger OrderRows(id, streams[id])} | id in streams :: streams[id] != [] && OrderRows(id, streams[id])
  }

  /** The projection holds exactly the stored orders, each as the fold of its stream. */
  ghost predicate Agrees(streams: OrderStreams, records: Records) {
    && records.Keys == streams.Keys
    && forall id {:trigger Summary(id, streams[id])} | id in streams :: Summary(id, streams[id]) == Some(records[id])
  }

  type Handlers = Memory.Handlers<OrderEvent, Records>

  /** The handler does what OnOrderPlaced does, which expects an OrderPlaced, and returns nil. */
  ghost predicate RecordsPlaced(h: Memory.Handler<OrderEvent, Records>) {
    forall v: Records, env: Envelope<OrderEvent> | env.payload.OrderPlaced? ::
      h(v, env) == (v[env.aggregateId := OrderSummary(
        env.aggregateId, env.payload.customerName, env.payload.amount, env.payload.notes, false)], true)
  }

  /** The handler does what OnOrderShipped does, whatever the payload, and returns nil. */
  ghost predicate RecordsShipped(h: Memory.Handler<OrderEvent, Records>) {
    forall v: Records, env: Envelope<OrderEvent> ::
      h(v, env) == (v[env.aggregateId :=
        (if env.aggregateId in v then v[env.aggregateId] else ZERO_SUMMARY).(shipped := true)], true)
  }

  /** Only the projection is subscribed, each of its handlers to its own type. */
  ghost predicate OnlyProjection(handlers: Handlers) {
    && "OrderPlaced" in handlers && |handlers["OrderPlaced"]| == 1 && RecordsPlaced(handlers["OrderPlaced"][0])
    && "OrderShipped" in handlers && |handlers["OrderShipped"]| == 1 && RecordsShipped(handlers["OrderShipped"][0])
  }

  lemma ProjectionHears(handlers: Handlers, v: Records, env: Envelope<OrderEvent>)
    requires OnlyProjection(handlers) && env.eventType == EventType(env.payload)
    ensures Memory.RunAll(Memory.HandlersOf(handlers, env.eventType), v, env) == (Project(v, env), [])
  {
    var hs := Memory.HandlersOf(handlers, env.eventType);
    assert hs[..0] == [];
    assert hs[0](v, env) == (Project(v, env), true);
  }

  /** The next event of an order brings its record from the fold of the stream to that of the longer stream. */
  lemma SummaryExtends(id: Uuid, rows: seq<Envelope<OrderEvent>>, env: Envelope<OrderEvent>, records: Records)
    requires OrderRows(id, rows + [env]) && OrderRows(id, rows)
    requires if rows == [] then id !in records else id in records && Summary(id, rows) == Some(records[id])
    ensures env.aggregateId == id && id in Project(records, env)
    ensures Summary(id, rows + [env]) == Some(Project(records, env)[id])
  {
    var rows' := rows + [env];
    assert rows'[|rows|] == env && Payloads(rows')[|rows|] == env.payload;
    SummaryOfRows(id, rows');
    if rows != [] {
      assert rows'[0] == rows[0];
      SummaryOfRows(id, rows);
    }
  }

  lemma ProjectExtendsAgreement(streams: OrderStreams, records: Records, id: Uuid, env: Envelope<OrderEvent>)
    requires AllOrders(streams) && Agrees(streams, records)
    requires OrderRows(id, Memory.StreamOf(streams, id)) && OrderRows(id, Memory.StreamOf(streams, id) + [env])
    ensures var streams' := streams[id := Memory.StreamOf(streams, id) + [env]];
      AllOrders(streams') && Agrees(streams', Project(records, env))
  {
    var streams' := streams[id := Memory.StreamOf(streams, id) + [env]];
    assert id in streams ==> OrderRows(id, streams[id]) && Summary(id, streams[id]) == Some(records[id]);
    SummaryExtends(id, Memory.StreamOf(streams, id), env, records);
    forall other | other in streams'
      ensures streams'[other] != [] && OrderRows(other, streams'[other])
      ensures Summary(other, streams'[other]) == Some(Project(records, env)[other])
    {
      assert other != id ==> OrderRows(other, streams[other]) && Summary(other, streams[other]) == Some(records[other]);
    }
  }

  // ---------- The command handlers ----------

  type OrderRepository = Repository<Order, OrderEvent, Records>

  /** Wire's repository. On the in-memory store with only the projection subscribed, the read model agrees
      with the store. */
  ghost predicate Wired(repo: OrderRepository)
    reads repo.bus, repo.store.Object()
  {
    && repo.store.Valid()
    && repo.apply == Apply && repo.initial == NEW_ORDER && repo.aggregateType == ORDER
    && (forall e :: repo.kind(e) == EventType(e))
    && (repo.store.Plain? ==>
      && OnlyProjection(repo.bus.handlers)
      && AllOrders(repo.store.memory.streams)
      && Agrees(repo.store.memory.streams, repo.bus.shared))
  }

  /** What a command does to the stored streams, and what it answers, when its context is not cancelled. */
  ghost function Executed(streams: OrderStreams, cmd: Command): (OrderStreams, bool) {
    var id := cmd.orderId;
    var rows := Memory.StreamOf(streams, id);
    match Handle(cmd, Payloads(rows))
    case Refused => (streams, false)
    case Raised(e) => (streams[id := rows + [OrderEnvelope(id, |rows| + 1, e)]], true)
  }

  /** Nothing but this command was executed, or nothing at all. */
  ghost predicate AtMostExecuted(before: OrderStreams, after: OrderStreams, cmd: Command, ok: bool) {
    && (after == before || after == Executed(before, cmd).0)
    && (ok ==> (after, true) == Executed(before, cmd))
  }

  type OrderSteps = seq<Protocol.Step<OrderEvent>>

  /** In state `before` a command run has loaded this history and takes its Save step; the handler answers what
      that append has been answered in state `after`. */
  ghost predicate SaveStepOf(
    before: OrdersSystem.Db, step: Protocol.Step<OrderEvent>, after: OrdersSystem.Db, cmd: Command,
    history: seq<OrderEvent>, ok: bool) {
    && history == OrdersSystem.History(before, cmd.orderId)
    && Handle(cmd, history).Raised?
    && step == OrdersSystem.SaveStep(OrdersSystem.CommandRun(cmd, history))
    && var t := |before.txs|;
    && t < |after.txs|
    && (ok <==> after.txs[t].phase == Protocol.Committed(true))
  }

  /** On Postgres: the n-th step is the Save step of a command run that has loaded this history right before it,
      and the handler answers what that append answered. */
  ghost predicate Issued(
    bus: Protocol.Bus, steps: OrderSteps, n: nat, cmd: Command, history: seq<OrderEvent>, ok: bool) {
    && n < |steps| && Protocol.Run(bus, steps[..n]).Some? && Protocol.Run(bus, steps).Some?
    && SaveStepOf(Protocol.Run(bus, steps[..n]).value, steps[n], Protocol.Run(bus, steps).value, cmd, history, ok)
  }

  lemma IssuedNext(
    bus: Protocol.Bus, before: OrderSteps, s0: OrdersSystem.Db, step: Protocol.Step<OrderEvent>, steps: OrderSteps,
    s: OrdersSystem.Db, cmd: Command, history: seq<OrderEvent>, ok: bool)
    requires Protocol.Run(bus, before) == Some(s0) && Protocol.Run(bus, steps) == Some(s)
    requires before + [step] <= steps && SaveStepOf(s0, step, s, cmd, history, ok)
    ensures Issued(bus, steps, |before|, cmd, history, ok)
  {
    NextStep(before, step, steps);
  }

  lemma NextStep(before: OrderSteps, step: Protocol.Step<OrderEvent>, steps: OrderSteps)
    requires before + [step] <= steps
    ensures |before| < |steps| && steps[..|before|] == before && steps[|before|] == step
  {
    assert steps[|before|] == (before + [step])[|before|];
  }

  /** What a handler has issued is a Load and a Save of the world: they lead from any run of the world to one that
      has taken the handler's step. */
  lemma IssuedIsCommandRun(
    bus: Protocol.Bus, steps: OrderSteps, n: nat, cmd: Command, history: seq<OrderEvent>, ok: bool,
    worldSteps: seq<OrdersSystem.WorldStep>)
    returns (worldSteps': seq<OrdersSystem.WorldStep>)
    requires Issued(bus, steps, n, cmd, history, ok)
    requires OrdersSystem.WorldRun(bus, worldSteps).Some?
    requires OrdersSystem.WorldRun(bus, worldSteps).value.db == Protocol.Run(bus, steps[..n]).value
    ensures var w := OrdersSystem.WorldRun(bus, worldSteps).value;
      && worldSteps' == worldSteps + [OrdersSystem.Load(cmd, Streams.Stream(w.db.events, cmd.orderId)),
                                      OrdersSystem.Save(|w.runs|)]
      && OrdersSystem.WorldRun(bus, worldSteps').Some?
      && OrdersSystem.WorldRun(bus, worldSteps').value.runs == w.runs + [OrdersSystem.CommandRun(cmd, history)]
      && Protocol.Run(bus, steps[..n + 1]) == Some(OrdersSystem.WorldRun(bus, worldSteps').value.db)
  {
    var w := OrdersSystem.WorldRun(bus, worldSteps).value;
    var out := Streams.Stream(w.db.events, cmd.orderId);
    AppendSafety.RunKeepsAppendInv(bus, steps[..n]);
    Streams.StreamIsLoadResult(w.db.events, cmd.orderId);
    var loaded := worldSteps + [OrdersSystem.Load(cmd, out)];
    assert loaded[..|loaded| - 1] == worldSteps;
    worldSteps' := loaded + [OrdersSystem.Save(|w.runs|)];
    assert worldSteps'[..|worldSteps'| - 1] == loaded;
    StepIsTaken(bus, steps, n);
    assert steps[..n + 1][..n] == steps[..n];
  }

  lemma {:induction false} StepIsTaken(bus: Protocol.Bus, steps: OrderSteps, n: nat)
    requires n < |steps| && Protocol.Run(bus, steps).Some?
    ensures Protocol.Run(bus, steps[..n]).Some? && Protocol.Enabled(Protocol.Run(bus, steps[..n]).value, steps[n])
  {
    if n < |steps| - 1 {
      StepIsTaken(bus, steps[..|steps| - 1], n);
      assert steps[..|steps| - 1][..n] == steps[..n];
    }
  }

  /** On Postgres, nothing fails and nobody else is at work. */
  ghost predicate Calm(repo: OrderRepository)
    reads repo.store.Object()
  {
    repo.store.Outboxed? && repo.store.postgres.calm && Postgres.NoneOpen(repo.store.postgres.s)
  }

  /** The handler answered for this stream, and left it, as its decision on it requires. */
  ghost predicate Carried(cmd: Command, rows: seq<Envelope<OrderEvent>>, rows': seq<Envelope<OrderEvent>>, ok: bool) {
    match Handle(cmd, Payloads(rows))
    case Raised(e) => ok && rows' == rows + [OrderEnvelope(cmd.orderId, |rows| + 1, e)]
    case Refused => !ok && rows' == rows
  }

  /** Said of the two commands: PlaceOrder stores an OrderPlaced with the command's values in an empty stream and is
      refused by any other; ShipOrder stores an OrderShipped behind an OrderPlaced and is refused otherwise. */
  lemma CarriedOut(cmd: Command, rows: seq<Envelope<OrderEvent>>, rows': seq<Envelope<OrderEvent>>, ok: bool)
    requires Legal(Payloads(rows))
    ensures Carried(cmd, rows, rows', ok) <==> match cmd
      case PlaceOrder(id, name, amount, notes) =>
        if rows == [] then ok && rows' == [Envelope(id, "Order", 1, "OrderPlaced", OrderPlaced(name, amount, notes))]
        else !ok && rows' == rows
      case ShipOrder(id) =>
        if |rows| == 1 then ok && rows' == rows + [Envelope(id, "Order", 2, "OrderShipped", OrderShipped)]
        else !ok && rows' == rows
  {
    HandlersDecide(cmd, Payloads(rows));
    if cmd.PlaceOrder? {
      var env := OrderEnvelope(cmd.orderId, 1, OrderPlaced(cmd.customerName, cmd.amount, cmd.notes));
      assert rows == [] ==> rows + [env] == [env];
    }
  }

  lemma ExecutedIsCarried(streams: OrderStreams, cmd: Command)
    ensures var (streams', ok) := Executed(streams, cmd);
      && Carried(cmd, Memory.StreamOf(streams, cmd.orderId), Memory.StreamOf(streams', cmd.orderId), ok)
      && forall id | id != cmd.orderId :: Memory.StreamOf(streams', id) == Memory.StreamOf(streams, id)
  {
  }

  lemma OneEnvelope(repo: OrderRepository, o: OrderAggregate, env: Envelope<OrderEvent>)
    requires Wired(repo) && o.Valid() && o.aggregateType == ORDER && |o.uncommitted| == 1
    requires env == OrderEnvelope(o.id, |o.observed| + 1, o.uncommitted[0])
    ensures repo.Batch(o) == [env]
  {
  }

  /** The Save at the end of a command handler. */
  method SaveRaised(repo: OrderRepository, o: OrderAggregate, ghost cmd: Command, cancelled: bool)
    returns (ok: bool)
    requires Wired(repo) && o.Valid() && o.id == cmd.orderId && o.aggregateType == ORDER
    requires o.observed == Payloads(repo.store.Stream(cmd.orderId))
    requires |o.uncommitted| == 1 && Handle(cmd, o.observed) == Raised(o.uncommitted[0])
    modifies o, repo.bus, repo.store.Object()
    ensures Wired(repo)
    ensures repo.store.Plain? ==>
      AtMostExecuted(old(repo.store.memory.streams), repo.store.memory.streams, cmd, ok)
    ensures repo.store.Plain? && !cancelled ==>
      (repo.store.memory.streams, ok) == Executed(old(repo.store.memory.streams), cmd)
    ensures repo.store.Outboxed? ==>
      var postgres := repo.store.postgres;
      && old(postgres.steps) <= postgres.steps
      && Issued(postgres.bus, postgres.steps, |old(postgres.steps)|, cmd, old(o.observed), ok)
    ensures old(Calm(repo)) ==>
      Carried(cmd, old(repo.store.Stream(cmd.orderId)), repo.store.Stream(cmd.orderId), ok)
  {
    ghost var env := OrderEnvelope(cmd.orderId, |o.observed| + 1, o.uncommitted[0]);
    OneEnvelope(repo, o, env);
    ghost var step := OrdersSystem.SaveStep(OrdersSystem.CommandRun(cmd, o.observed));
    ghost var steps0: OrderSteps, s0 := [], Protocol.Init(map[]);
    if repo.store.Outboxed? {
      steps0, s0 := repo.store.postgres.steps, repo.store.postgres.s;
    }
    ghost var records := repo.bus.shared;
    ghost var streams := if repo.store.Plain? then repo.store.memory.streams else map[];
    var r, appended, published, vs, t := repo.Save(o, cancelled);
    ok := r.Ok?;
    if repo.store.Plain? && appended {
      RaisedKeepsAgreement(streams, repo.bus.handlers, records, cmd, env.payload, env,
        repo.store.memory.streams, repo.bus.shared, published, vs);
    }
    if repo.store.Outboxed? {
      var postgres := repo.store.postgres;
      IssuedNext(postgres.bus, steps0, s0, step, postgres.steps, postgres.s, cmd, old(o.observed), ok);
    }
  }

  /** What a Save of the raised event leaves on the in-memory store and in the read model. */
  lemma RaisedKeepsAgreement(
    streams: OrderStreams, handlers: Handlers, records: Records, cmd: Command, e: OrderEvent, env: Envelope<OrderEvent>,
    streams': OrderStreams, records': Records, published: nat, vs: seq<Records>)
    requires AllOrders(streams) && Agrees(streams, records) && OnlyProjection(handlers)
    requires Handle(cmd, Payloads(Memory.StreamOf(streams, cmd.orderId))) == Raised(e)
    requires env == OrderEnvelope(cmd.orderId, |Memory.StreamOf(streams, cmd.orderId)| + 1, e)
    requires streams' == streams[cmd.orderId := Memory.StreamOf(streams, cmd.orderId) + [env]]
    requires Memory.PublishedInTurn(handlers, [env], published, vs) && vs[0] == records && vs[|vs| - 1] == records'
    ensures Executed(streams, cmd) == (streams', true)
    ensures AllOrders(streams') && Agrees(streams', records') && published == 1
  {
    RaisedExtendsRows(streams, cmd, e);
    ProjectExtendsAgreement(streams, records, cmd.orderId, env);
    ProjectionHears(handlers, records, env);
  }

  lemma RaisedExtendsRows(streams: OrderStreams, cmd: Command, e: OrderEvent)
    requires AllOrders(streams) && Handle(cmd, Payloads(Memory.StreamOf(streams, cmd.orderId))) == Raised(e)
    ensures var id, rows := cmd.orderId, Memory.StreamOf(streams, cmd.orderId);
      OrderRows(id, rows) && OrderRows(id, rows + [OrderEnvelope(id, |rows| + 1, e)])
  {
    var id, rows := cmd.orderId, Memory.StreamOf(streams, cmd.orderId);
    var rows' := rows + [OrderEnvelope(id, |rows| + 1, e)];
    assert id in streams ==> OrderRows(id, streams[id]);
    HandleKeepsLegal(Payloads(rows), e);
    assert Payloads(rows') == Payloads(rows) + [e];
  }

  /** The order that a command handler decides on, replayed. */
  ghost predicate IsLoaded(repo: OrderRepository, o: OrderAggregate, id: Uuid)
    reads repo.store.Object(), o
  {
    && o.Valid() && o.id == id && o.aggregateType == ORDER && o.uncommitted == []
    && o.observed == Payloads(repo.store.Stream(id)) && o.state == Replay(o.observed)
    && (o.observed == [] ==> o.state == Order("", 0, New))
    && (Legal(o.observed) && o.observed != [] ==>
          o.state.customerName == o.observed[0].customerName && o.state.amount == o.observed[0].amount)
  }

  /** The stored order. When nothing fails, it is missing exactly if its stream is empty. */
  method LoadOrder(repo: OrderRepository, id: Uuid, cancelled: bool) returns (r: Result<OrderAggregate>)
    requires Wired(repo)
    modifies repo.store.Object()
    ensures Wired(repo) && (repo.store.Plain? ==> unchanged(repo.store.Object()))
    ensures repo.store.Outboxed? ==> old(repo.store.postgres.steps) <= repo.store.postgres.steps
    ensures r.Ok? ==> fresh(r.value) && IsLoaded(repo, r.value, id)
    ensures r.Err? && r.error.StreamNotFound? ==> repo.store.Stream(id) == []
    ensures (if repo.store.Plain? then !cancelled else repo.store.postgres.calm) ==>
      if repo.store.Stream(id) != [] then r.Ok? else r.Err? && r.error.StreamNotFound?
    ensures repo.store.Outboxed? && repo.store.postgres.calm ==> repo.store.postgres.s == old(repo.store.postgres.s)
  {
    NoneIsEmpty(repo, id);
    r := repo.Load(id, cancelled);
    if r.Ok? && Legal(r.value.observed) {
      LegalReplay(r.value.observed);
    }
  }

  lemma NoneIsEmpty(repo: OrderRepository, id: Uuid)
    requires Wired(repo)
    ensures repo.store.Plain? && id in repo.store.memory.streams ==> repo.store.Stream(id) != []
  {
    assert repo.store.Plain? && id in repo.store.memory.streams ==> OrderRows(id, repo.store.memory.streams[id]);
  }

  /** PlaceOrder's way to its aggregate: the stored order, or a new one when the stream is missing. */
  method LoadOrNew(repo: OrderRepository, id: Uuid, cancelled: bool) returns (r: Result<OrderAggregate>)
    requires Wired(repo)
    modifies repo.store.Object()
    ensures Wired(repo) && (repo.store.Plain? ==> unchanged(repo.store.Object()))
    ensures repo.store.Outboxed? ==> old(repo.store.postgres.steps) <= repo.store.postgres.steps
    ensures r.Ok? ==> fresh(r.value) && IsLoaded(repo, r.value, id)
    ensures (if repo.store.Plain? then !cancelled else repo.store.postgres.calm) ==> r.Ok?
    ensures repo.store.Outboxed? && repo.store.postgres.calm ==> repo.store.postgres.s == old(repo.store.postgres.s)
  {
    r := LoadOrder(repo, id, cancelled);
    if r.Err? && r.error.StreamNotFound? {
      var o := repo.New(id);
      r := Ok(o);
    }
  }

  /** The command on the loaded order, and the Save if it raises an event. */
  method DecideAndSave(repo: OrderRepository, o: OrderAggregate, cmd: Command, cancelled: bool)
    returns (ok: bool, ghost issued: bool)
    requires Wired(repo) && IsLoaded(repo, o, cmd.orderId)
    modifies o, repo.bus, repo.store.Object()
    ensures Wired(repo)
    ensures issued <==> Handle(cmd, old(o.observed)).Raised?
    ensures !issued ==> !ok && unchanged(repo.store.Object()) && unchanged(repo.bus)
    ensures repo.store.Plain? ==>
      AtMostExecuted(old(repo.store.memory.streams), repo.store.memory.streams, cmd, ok)
    ensures repo.store.Plain? && !cancelled ==>
      (repo.store.memory.streams, ok) == Executed(old(repo.store.memory.streams), cmd)
    ensures repo.store.Outboxed? ==>
      var postgres := repo.store.postgres;
      && old(postgres.steps) <= postgres.steps
      && if issued then Issued(postgres.bus, postgres.steps, |old(postgres.steps)|, cmd, old(o.observed), ok) else !ok
    ensures old(Calm(repo)) ==>
      Carried(cmd, old(repo.store.Stream(cmd.orderId)), repo.store.Stream(cmd.orderId), ok)
  {
    ok, issued := false, false;
    DecidesByStatus(cmd, o.observed);
    var raised;
    match cmd {
      case PlaceOrder(_, name, amount, notes) => raised := Place(o, name, amount, notes);
      case ShipOrder(_) => raised := Ship(o);
    }
    if raised {
      issued := true;
      ok := SaveRaised(repo, o, cmd, cancelled);
    }
  }

  /** The decision of a handler depends on the status of the order only. */
  lemma DecidesByStatus(cmd: Command, history: seq<OrderEvent>)
    ensures Handle(cmd, history) == match cmd
      case PlaceOrder(_, name, amount, notes) =>
        if Replay(history).status == New then Raised(OrderPlaced(name, amount, notes)) else Refused
      case ShipOrder(_) =>
        if Replay(history).status == Placed then Raised(OrderShipped) else Refused
  {
  }

  /** The history is the stream as it was at the n-th step. */
  ghost predicate LoadedAt(bus: Protocol.Bus, steps: OrderSteps, n: nat, id: Uuid, history: seq<OrderEvent>) {
    n <= |steps| && Protocol.Run(bus, steps[..n]).Some? &&
    history == OrdersSystem.History(Protocol.Run(bus, steps[..n]).value, id)
  }

  lemma StillLoadedAt(
    bus: Protocol.Bus, before: OrderSteps, steps: OrderSteps, id: Uuid, history: seq<OrderEvent>)
    requires before <= steps && Protocol.Run(bus, before).Some?
    requires history == OrdersSystem.History(Protocol.Run(bus, before).value, id)
    ensures LoadedAt(bus, steps, |before|, id, history)
  {
    assert steps[..|before|] == before;
  }

  /** The PlaceOrder handler. In process, whatever fails, the read model agrees with the store afterwards. On
      Postgres the handler issues an append exactly if its decision on the history that it loaded raises an event. */
  method HandlePlaceOrder(repo: OrderRepository, cmd: Command, loadCancelled: bool, saveCancelled: bool)
    returns (ok: bool, ghost loaded: bool, ghost issued: bool, ghost history: seq<OrderEvent>, ghost n: nat)
    requires Wired(repo) && cmd.PlaceOrder?
    modifies repo.bus, repo.store.Object()
    ensures Wired(repo)
    // What was loaded decides
    ensures if loaded then issued <==> Handle(cmd, history).Raised? else !issued && !ok
    ensures repo.store.Plain? && loaded ==> history == Payloads(old(repo.store.Stream(cmd.orderId)))
    ensures repo.store.Outboxed? ==>
      var postgres := repo.store.postgres;
      && old(postgres.steps) <= postgres.steps
      && (loaded ==> LoadedAt(postgres.bus, postgres.steps, n, cmd.orderId, history) && |old(postgres.steps)| <= n)
      && if issued then Issued(postgres.bus, postgres.steps, n, cmd, history, ok) else !ok
    // In process
    ensures repo.store.Plain? ==>
      AtMostExecuted(old(repo.store.memory.streams), repo.store.memory.streams, cmd, ok)
    ensures repo.store.Plain? && !loadCancelled && !saveCancelled ==>
      (repo.store.memory.streams, ok) == Executed(old(repo.store.memory.streams), cmd)
    ensures repo.store.Plain? && !issued ==> unchanged(repo.store.Object()) && unchanged(repo.bus)
    // On Postgres, when nothing fails and nobody else is at work
    ensures repo.store.Outboxed? && repo.store.postgres.calm && !issued ==>
      repo.store.postgres.s == old(repo.store.postgres.s)
    ensures old(Calm(repo)) ==>
      Carried(cmd, old(repo.store.Stream(cmd.orderId)), repo.store.Stream(cmd.orderId), ok)
    ensures (if repo.store.Plain? then !loadCancelled else repo.store.postgres.calm) ==> loaded
  {
    ok, loaded, issued, history, n := false, false, false, [], 0;
    var r := LoadOrNew(repo, cmd.orderId, loadCancelled);
    if r.Err? {
      return;
    }
    loaded, history := true, r.value.observed;
    ghost var steps: OrderSteps := [];
    if repo.store.Outboxed? {
      steps := repo.store.postgres.steps;
      n := |steps|;
    }
    ok, issued := DecideAndSave(repo, r.value, cmd, saveCancelled);
    if repo.store.Outboxed? {
      StillLoadedAt(repo.store.postgres.bus, steps, repo.store.postgres.steps, cmd.orderId, history);
    }
  }

  /** Nothing is executed for an order that is missing. */
  lemma MissingIsRefused(repo: OrderRepository, cmd: Command)
    requires Wired(repo) && cmd.ShipOrder?
    ensures repo.store.Stream(cmd.orderId) == [] ==>
      Carried(cmd, repo.store.Stream(cmd.orderId), repo.store.Stream(cmd.orderId), false)
    ensures repo.store.Plain? && repo.store.Stream(cmd.orderId) == [] ==>
      Executed(repo.store.memory.streams, cmd) == (repo.store.memory.streams, false)
  {
  }

  /** The ShipOrder handler: a missing order is an error. */
  method HandleShipOrder(repo: OrderRepository, cmd: Command, loadCancelled: bool, saveCancelled: bool)
    returns (ok: bool, ghost loaded: bool, ghost issued: bool, ghost history: seq<OrderEvent>, ghost n: nat)
    requires Wired(repo) && cmd.ShipOrder?
    modifies repo.bus, repo.store.Object()
    ensures Wired(repo)
    // What was loaded decides
    ensures if loaded then issued <==> Handle(cmd, history).Raised? else !issued && !ok
    ensures repo.store.Plain? && loaded ==> history == Payloads(old(repo.store.Stream(cmd.orderId)))
    ensures repo.store.Outboxed? ==>
      var postgres := repo.store.postgres;
      && old(postgres.steps) <= postgres.steps
      && (loaded ==> LoadedAt(postgres.bus, postgres.steps, n, cmd.orderId, history) && |old(postgres.steps)| <= n)
      && if issued then Issued(postgres.bus, postgres.steps, n, cmd, history, ok) else !ok
    // In process
    ensures repo.store.Plain? ==>
      AtMostExecuted(old(repo.store.memory.streams), repo.store.memory.streams, cmd, ok)
    ensures repo.store.Plain? && !loadCancelled && !saveCancelled ==>
      (repo.store.memory.streams, ok) == Executed(old(repo.store.memory.streams), cmd)
    ensures repo.store.Plain? && !issued ==> unchanged(repo.store.Object()) && unchanged(repo.bus)
    // On Postgres, when nothing fails and nobody else is at work
    ensures repo.store.Outboxed? && repo.store.postgres.calm && !issued ==>
      repo.store.postgres.s == old(repo.store.postgres.s)
    ensures old(Calm(repo)) ==>
      Carried(cmd, old(repo.store.Stream(cmd.orderId)), repo.store.Stream(cmd.orderId), ok)
    ensures (if repo.store.Plain? then !loadCancelled else repo.store.postgres.calm) ==>
      (loaded <==> old(repo.store.Stream(cmd.orderId)) != [])
  {
    ok, loaded, issued, history, n := false, false, false, [], 0;
    var r := LoadOrder(repo, cmd.orderId, loadCancelled);
    if r.Err? {
      MissingIsRefused(repo, cmd);
      return;
    }
    loaded, history := true, r.value.observed;
    ghost var steps: OrderSteps := [];
    if repo.store.Outboxed? {
      steps := repo.store.postgres.steps;
      n := |steps|;
    }
    ok, issued := DecideAndSave(repo, r.value, cmd, saveCancelled);
    if repo.store.Outboxed? {
      StillLoadedAt(repo.store.postgres.bus, steps, repo.store.postgres.steps, cmd.orderId, history);
    }
  }
}
