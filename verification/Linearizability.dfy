/** Every run of interleaved Postgres appends is a sequential run of the memory store's compare-and-append. */
module Linearizability {
  import opened Events
  import opened Protocol
  import opened AppendSafety
  import opened Streams
  import Memory

  /** Append t takes effect: it stores its batch, or reports a conflict. */
  datatype Op<+E> = Op(t: nat, stream: Uuid, expected: nat, batch: seq<Envelope<E>>, conflict: bool)

  function OpOf<E>(x: Tx<E>, t: nat, conflict: bool): Op<E> {
    Op(t, x.stream, x.expected, x.batch, conflict)
  }

  /** The effect of one step, if it is the moment at which an append takes effect. Success takes effect
      at the commit; a conflict at the head check or at the insert that meets the committed key. */
  ghost function Effect<E>(s: State<E>, step: Step<E>): seq<Op<E>>
    requires Enabled(s, step)
  {
    match step
    case CommitAppend(t) => [OpOf(s.txs[t], t, false)]
    case ServerCommit(t) => [OpOf(s.txs[t], t, false)]
    case HeadCheck(t, head) => if head == s.txs[t].expected then [] else [OpOf(s.txs[t], t, true)]
    case InsertEvent(t) =>
      if KeyOf(s.txs[t].batch[s.txs[t].rows]) in s.events then [OpOf(s.txs[t], t, true)] else []
    case _ => []
  }

  /** The effects of a run, in order. */
  ghost function History<E>(bus: Bus, steps: seq<Step<E>>): seq<Op<E>>
    requires Run(bus, steps).Some?
  {
    if steps == [] then []
    else
      var before := steps[..|steps| - 1];
      History(bus, before) + Effect(Run(bus, before).value, steps[|steps| - 1])
  }

  /** The memory store executes one operation, and must answer what was recorded. */
  ghost function Execute<E>(streams: Memory.Streams<E>, op: Op<E>): Option<Memory.Streams<E>> {
    match Memory.AppendTo(streams, op.stream, op.expected, op.batch)
    case Ok(streams') => if op.conflict then None else Some(streams')
    case Err(_) => if op.conflict then Some(streams) else None
  }

  ghost function Serial<E>(ops: seq<Op<E>>): Option<Memory.Streams<E>> {
    if ops == [] then Some(map[])
    else
      var before := Serial(ops[..|ops| - 1]);
      if before.Some? then Execute(before.value, ops[|ops| - 1]) else None
  }

  /** The memory store holds what the events table holds. */
  ghost predicate Represents<E>(events: map<Key, Envelope<E>>, streams: Memory.Streams<E>) {
    && (forall id: Uuid :: Memory.StreamOf(streams, id) == Stream(events, id))
    && (forall id | id in streams :: streams[id] != [])
  }

  lemma CommitRefines<E>(s: State<E>, t: nat, acknowledged: bool, streams: Memory.Streams<E>)
    requires AppendInv(s) && t < |s.txs| && s.txs[t].Open() && s.txs[t].Complete() && Represents(s.events, streams)
    ensures var after := Execute(streams, OpOf(s.txs[t], t, false));
      after.Some? && Represents(ApplyAppend(s, t, acknowledged).events, after.value)
  {
    var x := s.txs[t];
    var s' := ApplyAppend(s, t, acknowledged);
    assert TxOk(s, x);
    ApplyExtendsStream(s, t, acknowledged, x.stream);
    assert Memory.StreamOf(streams, x.stream) == Stream(s.events, x.stream);
    var streams' := streams[x.stream := Memory.StreamOf(streams, x.stream) + x.batch];
    forall id: Uuid ensures Memory.StreamOf(streams', id) == Stream(s'.events, id) {
      ApplyExtendsStream(s, t, acknowledged, id);
      assert Memory.StreamOf(streams, id) == Stream(s.events, id);
    }
  }

  lemma EffectRefines<E>(s: State<E>, step: Step<E>, streams: Memory.Streams<E>)
    requires AppendInv(s) && Enabled(s, step) && Represents(s.events, streams)
    ensures |Effect(s, step)| <= 1
    ensures Effect(s, step) == [] ==> Represents(After(s, step).events, streams)
    ensures Effect(s, step) != [] ==>
      var after := Execute(streams, Effect(s, step)[0]);
      after.Some? && Represents(After(s, step).events, after.value)
  {
    if step.CommitAppend? || step.ServerCommit? {
      CommitRefines(s, step.t, step.CommitAppend?, streams);
    } else {
      OtherStepsKeepEvents(s, step);
      if Effect(s, step) != [] {
        ConflictMeansStale(s, step, step.t);
        assert Memory.StreamOf(streams, s.txs[step.t].stream) == Stream(s.events, s.txs[step.t].stream);
      }
    }
  }

  /** Linearizability: the memory store, given the effects of the run one after the other, answers each of
      them as the run did, and ends with the committed streams. */
  lemma {:induction false} RunsAreLinearizable<E>(bus: Bus, steps: seq<Step<E>>)
    requires Run(bus, steps).Some?
    ensures Serial(History(bus, steps)).Some?
    ensures Represents(Run(bus, steps).value.events, Serial(History(bus, steps)).value)
  {
    if steps == [] {
      forall id: Uuid ensures Stream<E>(map[], id) == [] {
      }
    } else {
      var before, step := steps[..|steps| - 1], steps[|steps| - 1];
      var s := Run(bus, before).value;
      RunsAreLinearizable(bus, before);
      RunKeepsAppendInv(bus, before);
      var past := History(bus, before);
      EffectRefines(s, step, Serial(past).value);
      if Effect(s, step) != [] {
        assert (past + Effect(s, step))[..|past|] == past;
      } else {
        assert past + Effect(s, step) == past;
      }
    }
  }

  // ---------- Operations and calls ----------

  /** Append t has been answered with success or a conflict, or was applied after it was answered with an error. */
  predicate TookEffect<E>(x: Tx<E>) {
    x.phase.Committed? || x.phase.Conflicted?
  }

  /** The history has exactly one operation for each append that took effect, with the append's own
      arguments and answer, and none for any other. */
  ghost predicate Explains<E>(ops: seq<Op<E>>, txs: seq<Tx<E>>) {
    && (forall p | 0 <= p < |ops| ::
          && ops[p].t < |txs|
          && TookEffect(txs[ops[p].t])
          && ops[p] == OpOf(txs[ops[p].t], ops[p].t, txs[ops[p].t].phase.Conflicted?))
    && (forall p, q | 0 <= p < q < |ops| :: ops[p].t != ops[q].t)
    && (forall t {:trigger Appears(ops, t)} | 0 <= t < |txs| && TookEffect(txs[t]) :: Appears(ops, t))
  }

  ghost predicate Appears<E>(ops: seq<Op<E>>, t: nat) {
    exists p :: 0 <= p < |ops| && ops[p].t == t
  }

  lemma StepExplains<E>(s: State<E>, step: Step<E>, ops: seq<Op<E>>)
    requires Enabled(s, step) && Explains(ops, s.txs)
    ensures Explains(ops + Effect(s, step), After(s, step).txs)
  {
    var ops', txs' := ops + Effect(s, step), After(s, step).txs;
    forall t | 0 <= t < |txs'| && TookEffect(txs'[t]) ensures Appears(ops', t) {
      if t < |s.txs| && TookEffect(s.txs[t]) {
        assert Appears(ops, t);
        var p :| 0 <= p < |ops| && ops[p].t == t;
        assert ops'[p].t == t;
      } else {
        assert ops'[|ops|].t == t;
      }
    }
  }

  lemma {:induction false} HistoryExplains<E>(bus: Bus, steps: seq<Step<E>>)
    requires Run(bus, steps).Some?
    ensures Explains(History(bus, steps), Run(bus, steps).value.txs)
  {
    if steps != [] {
      HistoryExplains(bus, steps[..|steps| - 1]);
      StepExplains(Run(bus, steps[..|steps| - 1]).value, steps[|steps| - 1], History(bus, steps[..|steps| - 1]));
    }
  }

  lemma {:induction false} PrefixRuns<E>(bus: Bus, steps: seq<Step<E>>, n: nat)
    requires Run(bus, steps).Some? && n <= |steps|
    ensures Run(bus, steps[..n]).Some? && History(bus, steps[..n]) <= History(bus, steps)
  {
    if n < |steps| {
      PrefixRuns(bus, steps[..|steps| - 1], n);
      assert steps[..|steps| - 1][..n] == steps[..n];
    } else {
      assert steps[..n] == steps;
    }
  }

  /** The history respects real time: an append that has been answered by the n-th step precedes every
      append that begins later. */
  lemma HistoryRespectsRealTime<E>(bus: Bus, steps: seq<Step<E>>, n: nat, p: nat, q: nat)
    requires Run(bus, steps).Some? && n <= |steps| && Run(bus, steps[..n]).Some?
    requires p < |History(bus, steps)| && q < |History(bus, steps)|
    requires var early := Run(bus, steps[..n]).value.txs;
      var ops := History(bus, steps);
      ops[p].t < |early| <= ops[q].t && TookEffect(early[ops[p].t])
    ensures p < q
  {
    var ops, past := History(bus, steps), History(bus, steps[..n]);
    PrefixRuns(bus, steps, n);
    HistoryExplains(bus, steps);
    HistoryExplains(bus, steps[..n]);
    assert Appears(past, ops[p].t);
    var i :| 0 <= i < |past| && past[i].t == ops[p].t;
    assert ops[i] == past[i];
    assert past == ops[..|past|];
  }
}
