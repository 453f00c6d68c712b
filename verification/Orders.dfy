/** The orders domain: the aggregate's decisions, and the summary projection. */
module Orders {
  import opened Events

  // ---------- Events, commands, aggregate ----------

  datatype OrderEvent =
    | OrderPlaced(customerName: string, amount: int, notes: Option<string>)
    | OrderShipped

  const PLACED := "OrderPlaced"
  const SHIPPED := "OrderShipped"
  const ORDER := "Order"

  function EventType(e: OrderEvent): string {
    match e
    case OrderPlaced(_, _, _) => PLACED
    case OrderShipped => SHIPPED
  }

  datatype Status = New | Placed | Shipped

  datatype Order = Order(customerName: string, amount: int, status: Status)

  const NEW_ORDER := Order("", 0, New)

  function Apply(o: Order, e: OrderEvent): Order {
    match e
    case OrderPlaced(name, amount, _) => Order(name, amount, Placed)
    case OrderShipped => o.(status := Shipped)
  }

  function Replay(history: seq<OrderEvent>): Order {
    Fold(Apply, NEW_ORDER, history)
  }

  datatype Command =
    | PlaceOrder(orderId: Uuid, customerName: string, amount: int, notes: Option<string>)
    | ShipOrder(orderId: Uuid)

  datatype Decision = Raised(event: OrderEvent) | Refused

  /** Order.Place and Order.Ship. */
  function Decide(cmd: Command, o: Order): Decision {
    match cmd
    case PlaceOrder(_, name, amount, notes) =>
      if o.status != New then Refused else Raised(OrderPlaced(name, amount, notes))
    case ShipOrder(_) =>
      match o.status
      case New => Refused
      case Shipped => Refused
      case Placed => Raised(OrderShipped)
  }

  /** The command handlers: PlaceOrder creates the order when its stream is missing, ShipOrder reports that. */
  function Handle(cmd: Command, history: seq<OrderEvent>): Decision {
    if cmd.ShipOrder? && history == [] then Refused else Decide(cmd, Replay(history))
  }

  /** A prefix of [OrderPlaced, OrderShipped]. */
  predicate Legal(history: seq<OrderEvent>) {
    && |history| <= 2
    && (|history| >= 1 ==> history[0].OrderPlaced?)
    && (|history| == 2 ==> history[1].OrderShipped?)
  }

  /** What a legal history replays to: the values of its OrderPlaced, and the status by its length. */
  lemma LegalReplay(history: seq<OrderEvent>)
    requires Legal(history)
    ensures Replay(history) ==
      if history == [] then Order("", 0, New)
      else Order(history[0].customerName, history[0].amount, if |history| == 1 then Placed else Shipped)
  {
    if |history| >= 1 {
      var one := [history[0]];
      assert one[..0] == [];
      assert Replay(one) == Apply(NEW_ORDER, history[0]);
      assert |history| == 1 ==> history == one;
      assert |history| == 2 ==> history[..1] == one;
    }
  }

  /** What the handlers decide on a legal history: a new order is placed with the command's own values, a placed one
      is shipped, everything else is refused. */
  lemma HandlersDecide(cmd: Command, history: seq<OrderEvent>)
    requires Legal(history)
    ensures Handle(cmd, history) == match cmd
      case PlaceOrder(_, name, amount, notes) =>
        if history == [] then Raised(OrderPlaced(name, amount, notes)) else Refused
      case ShipOrder(_) =>
        if |history| == 1 then Raised(OrderShipped) else Refused
  {
    LegalReplay(history);
  }

  /** The handlers extend a legal history only to a legal one, and to every legal one. */
  lemma HandleKeepsLegal(history: seq<OrderEvent>, e: OrderEvent)
    requires Legal(history)
    ensures (exists cmd :: Handle(cmd, history) == Raised(e)) <==> Legal(history + [e])
  {
    LegalReplay(history);
    if Legal(history + [e]) {
      var cmd := match e
        case OrderPlaced(name, amount, notes) => PlaceOrder(NIL, name, amount, notes)
        case OrderShipped => ShipOrder(NIL);
      assert (history + [e])[|history|] == e;
      assert Handle(cmd, history) == Raised(e);
    }
  }

  // ---------- The read model ----------

  datatype OrderSummary = OrderSummary(
    orderId: Uuid,
    customerName: string,
    amount: int,
    notes: Option<string>,
    shipped: bool)

  type Records = map<Uuid, OrderSummary>

  /** Reading a missing key of a Go map yields this. */
  const ZERO_SUMMARY := OrderSummary(NIL, "", 0, None, false)

  /** OnOrderPlaced overwrites the record, OnOrderShipped updates it. */
  function Project(records: Records, env: Envelope<OrderEvent>): Records {
    match env.payload
    case OrderPlaced(name, amount, notes) =>
      records[env.aggregateId := OrderSummary(env.aggregateId, name, amount, notes, false)]
    case OrderShipped =>
      var rec := if env.aggregateId in records then records[env.aggregateId] else ZERO_SUMMARY;
      records[env.aggregateId := rec.(shipped := true)]
  }

  function ProjectAll(records: Records, envs: seq<Envelope<OrderEvent>>): Records {
    if envs == [] then records
    else Project(ProjectAll(records, envs[..|envs| - 1]), envs[|envs| - 1])
  }

  /** The fold of a stream of one order, from an empty read model. */
  function Summary(id: Uuid, rows: seq<Envelope<OrderEvent>>): Option<OrderSummary> {
    var records := ProjectAll(map[], rows);
    if id in records then Some(records[id]) else None
  }

  /** The rows of one order, in order, as Save stores them. */
  ghost predicate OrderRows(id: Uuid, rows: seq<Envelope<OrderEvent>>) {
    && Legal(Payloads(rows))
    && forall i | 0 <= i < |rows| :: rows[i] == OrderEnvelope(id, i + 1, rows[i].payload)
  }

  function OrderEnvelope(id: Uuid, sequence: nat, e: OrderEvent): Envelope<OrderEvent> {
    Envelope(id, ORDER, sequence, EventType(e), e)
  }

  lemma SummaryOfRows(id: Uuid, rows: seq<Envelope<OrderEvent>>)
    requires OrderRows(id, rows) && rows != []
    ensures var placed := rows[0].payload;
      && placed.OrderPlaced?
      && Summary(id, rows) ==
         Some(OrderSummary(id, placed.customerName, placed.amount, placed.notes, |rows| == 2))
  {
    assert Payloads(rows)[0] == rows[0].payload;
    var one := [rows[0]];
    assert one[..0] == [];
    assert ProjectAll(map[], one[..0]) == map[];
    assert ProjectAll(map[], one) == Project(map[], rows[0]);
    if |rows| == 2 {
      assert rows[..1] == one && Payloads(rows)[1] == rows[1].payload;
    } else {
      assert rows == one;
    }
  }

  /** The projection, a map that its handlers update in place. */
  class SummaryProjection {
    var records: Records

    constructor ()
      ensures records == map[]
    {
      records := map[];
    }

    /** The type assertion on the payload panics for any other event. */
    method OnOrderPlaced(env: Envelope<OrderEvent>)
      requires env.payload.OrderPlaced?
      modifies this
      ensures records == Project(old(records), env)
      ensures var ev := env.payload;
        records == old(records)[
          env.aggregateId := OrderSummary(env.aggregateId, ev.customerName, ev.amount, ev.notes, false)]
    {
      var ev := env.payload;
      records := records[env.aggregateId := OrderSummary(env.aggregateId, ev.customerName, ev.amount, ev.notes, false)];
    }

    /** It does not look at the payload. */
    method OnOrderShipped(env: Envelope<OrderEvent>)
      modifies this
      ensures env.payload.OrderShipped? ==> records == Project(old(records), env)
      ensures env.aggregateId in records && records[env.aggregateId].shipped
      ensures forall id | id != env.aggregateId ::
        (id in records <==> id in old(records)) && (id in records ==> records[id] == old(records)[id])
    {
      var rec := if env.aggregateId in records then records[env.aggregateId] else ZERO_SUMMARY;
      rec := rec.(shipped := true);
      records := records[env.aggregateId := rec];
    }

    method Get(id: Uuid) returns (rec: OrderSummary, ok: bool)
      ensures ok <==> id in records
      ensures rec == if ok then records[id] else ZERO_SUMMARY
    {
      ok := id in records;
      rec := if ok then records[id] else ZERO_SUMMARY;
    }
  }
}
