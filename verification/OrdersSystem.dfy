/** The orders application on the Postgres store: command runs, appends, dispatchers and the projection. */
module OrdersSystem {
  import opened Events
  import opened Protocol
  import opened AppendSafety
  import opened Streams
  import opened DispatchSafety
  import opened Orders

  type Db = State<OrderEvent>

  /** One execution of a command handler: what its Load returned. The handler decides on that history,
      whatever happens to the stream meanwhile. */
  datatype CommandRun = CommandRun(cmd: Command, history: seq<OrderEvent>)

  /** `origin[t]` is the command run that issued append t. */
  datatype World = World(db: Db, runs: seq<CommandRun>, origin: seq<nat>)

  /** Save may be repeated for one run: a caller may retry it after any failure. */
  datatype WorldStep =
    | Load(cmd: Command, out: seq<Envelope<OrderEvent>>)
    | Save(r: nat)
    | System(step: Step<OrderEvent>)

  ghost predicate WorldEnabled(w: World, step: WorldStep) {
    match step
    case Load(cmd, out) => LoadResult(w.db.events, cmd.orderId, out)
    case Save(r) => r < |w.runs| && Handle(w.runs[r].cmd, w.runs[r].history).Raised?
    case System(step) => !step.Begin? && Enabled(w.db, step)
  }

  /** The append that Save issues for a command run. */
  function SaveStep(run: CommandRun): Step<OrderEvent>
    requires Handle(run.cmd, run.history).Raised?
  {
    var id, n := run.cmd.orderId, |run.history|;
    Begin(id, n, [OrderEnvelope(id, n + 1, Handle(run.cmd, run.history).event)])
  }

  ghost function WorldAfter(w: World, step: WorldStep): World
    requires WorldEnabled(w, step)
  {
    match step
    case Load(cmd, out) => w.(runs := w.runs + [CommandRun(cmd, Payloads(out))])
    case Save(r) => w.(db := After(w.db, SaveStep(w.runs[r])), origin := w.origin + [r])
    case System(step) => w.(db := After(w.db, step))
  }

  ghost function WorldRun(bus: Bus, steps: seq<WorldStep>): Option<World> {
    if steps == [] then Some(World(Init(bus), [], []))
    else
      var before := WorldRun(bus, steps[..|steps| - 1]);
      var step := steps[|steps| - 1];
      if before.Some? && WorldEnabled(before.value, step) then Some(WorldAfter(before.value, step)) else None
  }

  // ---------- The invariant ----------

  ghost function History(db: Db, id: Uuid): seq<OrderEvent> {
    Payloads(Stream(db.events, id))
  }

  /** What a run loaded is still a prefix of the stream. */
  ghost predicate RunOk(db: Db, run: CommandRun) {
    run.history <= History(db, run.cmd.orderId)
  }

  /** Append t is the one that its run decided on. */
  ghost predicate OriginOk(w: World, t: nat)
    requires t < |w.origin| == |w.db.txs|
  {
    && w.origin[t] < |w.runs|
    && var run, x := w.runs[w.origin[t]], w.db.txs[t];
    && Handle(run.cmd, run.history).Raised?
    && SaveStep(run) == Begin(x.stream, x.expected, x.batch)
  }

  ghost predicate WorldInv(w: World) {
    && AppendInv(w.db)
    && DispatchInv(w.db)
    && |w.origin| == |w.db.txs|
    && (forall t | 0 <= t < |w.origin| :: OriginOk(w, t))
    && (forall r | 0 <= r < |w.runs| :: RunOk(w.db, w.runs[r]))
    && (forall id: Uuid :: OrderRows(id, Stream(w.db.events, id)))
  }

  // ---------- Preservation ----------

  lemma PrefixPayloads(a: seq<Envelope<OrderEvent>>, b: seq<Envelope<OrderEvent>>)
    requires a <= b
    ensures Payloads(a) <= Payloads(b)
  {
  }

  lemma RunsKept(db: Db, step: Step<OrderEvent>, run: CommandRun)
    requires AppendInv(db) && Enabled(db, step) && RunOk(db, run)
    ensures RunOk(After(db, step), run)
  {
    StepKeepsPrefix(db, step, run.cmd.orderId);
    PrefixPayloads(Stream(db.events, run.cmd.orderId), Stream(After(db, step).events, run.cmd.orderId));
  }

  /** When an append commits, what its run loaded is the whole committed stream: nothing came between. */
  lemma CommitDecidedOnHead(w: World, t: nat)
    requires WorldInv(w) && t < |w.db.txs| && w.db.txs[t].Open() && w.db.txs[t].Complete()
    ensures OriginOk(w, t) && w.runs[w.origin[t]].history == History(w.db, w.db.txs[t].stream)
  {
    assert OriginOk(w, t) && RunOk(w.db, w.runs[w.origin[t]]);
    ApplyExtendsStream(w.db, t, true, w.db.txs[t].stream);
  }

  lemma CommitKeepsRows(w: World, t: nat, acknowledged: bool, id: Uuid)
    requires WorldInv(w) && t < |w.db.txs| && w.db.txs[t].Open() && w.db.txs[t].Complete()
    ensures OrderRows(id, Stream(ApplyAppend(w.db, t, acknowledged).events, id))
  {
    var x := w.db.txs[t];
    var rows := Stream(w.db.events, id);
    ApplyExtendsStream(w.db, t, acknowledged, id);
    assert OrderRows(id, rows);
    if id == x.stream {
      assert OriginOk(w, t);
      CommitDecidedOnHead(w, t);
      HandleKeepsLegal(Payloads(rows), x.batch[0].payload);
      assert Payloads(rows + x.batch) == Payloads(rows) + [x.batch[0].payload];
    } else {
      assert rows + [] == rows;
    }
  }

  lemma SystemStepKeeps(w: World, step: Step<OrderEvent>)
    requires WorldInv(w) && WorldEnabled(w, System(step))
    ensures WorldInv(WorldAfter(w, System(step)))
  {
    var w' := WorldAfter(w, System(step));
    StepKeepsAppendInv(w.db, step);
    StepKeepsDispatchInv(w.db, step);
    forall t | 0 <= t < |w'.origin| ensures OriginOk(w', t) {
      assert OriginOk(w, t);
    }
    forall r | 0 <= r < |w'.runs| ensures RunOk(w'.db, w'.runs[r]) {
      assert RunOk(w.db, w.runs[r]);
      RunsKept(w.db, step, w.runs[r]);
    }
    forall id: Uuid ensures OrderRows(id, Stream(w'.db.events, id)) {
      assert OrderRows(id, Stream(w.db.events, id));
      if step.CommitAppend? || step.ServerCommit? {
        CommitKeepsRows(w, step.t, step.CommitAppend?, id);
      } else {
        OtherStepsKeepEvents(w.db, step);
      }
    }
  }

  lemma SaveKeeps(w: World, r: nat)
    requires WorldInv(w) && WorldEnabled(w, Save(r))
    ensures WorldInv(WorldAfter(w, Save(r)))
  {
    var w' := WorldAfter(w, Save(r));
    StepKeepsAppendInv(w.db, SaveStep(w.runs[r]));
    StepKeepsDispatchInv(w.db, SaveStep(w.runs[r]));
    forall t | 0 <= t < |w'.origin| ensures OriginOk(w', t) {
      assert t < |w.origin| ==> OriginOk(w, t);
    }
    forall q | 0 <= q < |w'.runs| ensures RunOk(w'.db, w'.runs[q]) {
      assert RunOk(w.db, w.runs[q]);
    }
  }

  lemma LoadKeeps(w: World, cmd: Command, out: seq<Envelope<OrderEvent>>)
    requires WorldInv(w) && WorldEnabled(w, Load(cmd, out))
    ensures WorldInv(WorldAfter(w, Load(cmd, out)))
  {
    var w' := WorldAfter(w, Load(cmd, out));
    LoadReadsStream(w.db.events, cmd.orderId, out);
    forall t | 0 <= t < |w'.origin| ensures OriginOk(w', t) {
      assert OriginOk(w, t);
    }
    forall q | 0 <= q < |w'.runs| ensures RunOk(w'.db, w'.runs[q]) {
      assert q < |w.runs| ==> RunOk(w.db, w.runs[q]);
    }
  }

  lemma WorldStepKeepsInv(w: World, step: WorldStep)
    requires WorldInv(w) && WorldEnabled(w, step)
    ensures WorldInv(WorldAfter(w, step))
  {
    match step
    case Load(cmd, out) => LoadKeeps(w, cmd, out);
    case Save(r) => SaveKeeps(w, r);
    case System(step) => SystemStepKeeps(w, step);
  }

  lemma {:induction false} WorldRunKeepsInv(bus: Bus, steps: seq<WorldStep>)
    requires WorldRun(bus, steps).Some?
    ensures WorldInv(WorldRun(bus, steps).value)
  {
    if steps == [] {
      var w := WorldRun(bus, steps).value;
      forall id: Uuid ensures OrderRows(id, Stream(w.db.events, id)) {
        assert Stream(w.db.events, id) == [];
      }
    } else {
      WorldRunKeepsInv(bus, steps[..|steps| - 1]);
      WorldStepKeepsInv(WorldRun(bus, steps[..|steps| - 1]).value, steps[|steps| - 1]);
    }
  }

  // ---------- No lost updates ----------

  /** Every committed event was decided by some command run, and the history this run had loaded is
      exactly the committed prefix before the event. */
  lemma NoLostUpdates(w: World, k: Key)
    requires WorldInv(w) && k in w.db.events
    ensures 1 <= k.sequence <= |History(w.db, k.stream)|
    ensures exists r ::
      && 0 <= r < |w.runs|
      && w.runs[r].cmd.orderId == k.stream
      && w.runs[r].history == History(w.db, k.stream)[..k.sequence - 1]
      && Handle(w.runs[r].cmd, w.runs[r].history) == Raised(w.db.events[k].payload)
  {
    assert HasWriter(w.db.txs, k);
    var t :| 0 <= t < |w.db.txs| && w.db.txs[t].phase.Committed? && InBatch(w.db.txs[t], k);
    CommittedWasDecided(w, t, k);
  }

  lemma CommittedWasDecided(w: World, t: nat, k: Key)
    requires WorldInv(w) && t < |w.db.txs| && w.db.txs[t].phase.Committed? && InBatch(w.db.txs[t], k)
    ensures OriginOk(w, t) && k in w.db.events && 1 <= k.sequence <= |History(w.db, k.stream)|
    ensures var run := w.runs[w.origin[t]];
      && run.cmd.orderId == k.stream
      && run.history == History(w.db, k.stream)[..k.sequence - 1]
      && Handle(run.cmd, run.history) == Raised(w.db.events[k].payload)
  {
    var x := w.db.txs[t];
    assert TxOk(w.db, x) && OriginOk(w, t) && RunOk(w.db, w.runs[w.origin[t]]);
    StreamIsStream(w.db.events, k.stream);
    assert Key(k.stream, k.sequence) in w.db.events;
  }

  /** End to end: under any interleaving of any number of command runs, every committed order stream is a
      prefix of [OrderPlaced, OrderShipped]. */
  lemma OrderStreamsAreLegal(bus: Bus, steps: seq<WorldStep>, id: Uuid)
    requires WorldRun(bus, steps).Some?
    ensures Legal(History(WorldRun(bus, steps).value.db, id))
  {
    WorldRunKeepsInv(bus, steps);
    assert OrderRows(id, Stream(WorldRun(bus, steps).value.db.events, id));
  }
}
