/** Outbox ids are drawn before commit: which rows can still come in below one that is there already. */
module Arrivals {
  import opened Events
  import opened Protocol
  import opened AppendSafety
  import opened Streams
  import opened DispatchSafety
  import opened Continuations

  /** The append may still be applied. */
  ghost predicate MayCommit<E>(x: Tx<E>) {
    x.phase.Inserting? || (x.phase.InDoubt? && x.Complete())
  }

  /** Some append that may still be applied has drawn the id. */
  ghost predicate Drawn<E>(s: State<E>, id: nat) {
    exists t :: 0 <= t < |s.txs| && MayCommit(s.txs[t]) && id in s.txs[t].ids
  }

  // ---------- What can still come in ----------

  /** Append t, in a later state: the ids that it had not drawn in s are new. */
  ghost predicate Evolves<E>(s: State<E>, t: nat, x: Tx<E>) {
    && (forall j | 0 <= j < |x.ids| :: x.ids[j] >= s.nextId || (t < |s.txs| && x.ids[j] in s.txs[t].ids))
    && (t < |s.txs| && (x.phase.Begun? || MayCommit(x)) ==> s.txs[t].phase.Begun? || MayCommit(s.txs[t]))
  }

  /** s' is a later state than s: rows that have come in had been drawn or are new. */
  ghost predicate Later<E>(s: State<E>, s': State<E>) {
    && s.nextId <= s'.nextId && |s.txs| <= |s'.txs|
    && (forall t | 0 <= t < |s'.txs| :: Evolves(s, t, s'.txs[t]))
    && (forall i {:trigger Drawn(s, i)} | i in s'.outbox :: i in s.outbox || i >= s.nextId || Drawn(s, i))
  }

  lemma ApplyStaysLater<E>(s: State<E>, s': State<E>, t: nat, acknowledged: bool)
    requires AppendInv(s) && AppendInv(s') && Later(s, s')
    requires t < |s'.txs| && s'.txs[t].Open() && s'.txs[t].Complete()
    ensures Later(s, ApplyAppend(s', t, acknowledged))
  {
    var x := s'.txs[t];
    var s'' := ApplyAppend(s', t, acknowledged);
    assert TxOk(s', x) && Evolves(s, t, x);
    ApplyGrowsOutbox(s'.outbox, x);
    forall i | i in s''.outbox ensures i in s.outbox || i >= s.nextId || Drawn(s, i) {
      if i !in s'.outbox {
        var j := NewRow(s'.outbox, s''.outbox, x, i);
        if i < s.nextId {
          assert TxOk(s, s.txs[t]);
          assert MayCommit(s.txs[t]) && i in s.txs[t].ids;
        }
      } else {
        assert i in s.outbox || i >= s.nextId || Drawn(s, i);
      }
    }
    assert Evolves(s, t, x.(phase := Committed(acknowledged)));
  }

  lemma StepStaysLater<E>(s: State<E>, s': State<E>, step: Step<E>)
    requires AppendInv(s) && AppendInv(s') && Later(s, s') && Enabled(s', step)
    ensures Later(s, After(s', step))
  {
    if step.CommitAppend? || step.ServerCommit? {
      ApplyStaysLater(s, s', step.t, step.CommitAppend?);
    } else {
      OtherStepStaysLater(s, s', step);
    }
  }

  lemma OtherStepStaysLater<E>(s: State<E>, s': State<E>, step: Step<E>)
    requires AppendInv(s') && Later(s, s') && Enabled(s', step) && !step.CommitAppend? && !step.ServerCommit?
    ensures Later(s, After(s', step))
  {
    var s'' := After(s', step);
    OtherStepsKeepEvents(s', step);
    forall t | 0 <= t < |s''.txs| ensures Evolves(s, t, s''.txs[t]) {
      if t < |s'.txs| {
        assert Evolves(s, t, s'.txs[t]) && TxOk(s', s'.txs[t]);
      }
    }
  }

  lemma {:induction false} FromIsLater<E>(s: State<E>, steps: seq<Step<E>>)
    requires AppendInv(s) && DispatchInv(s) && From(s, steps).Some?
    ensures Later(s, From(s, steps).value)
  {
    if steps != [] {
      FromIsLater(s, steps[..|steps| - 1]);
      FromKeepsInv(s, steps[..|steps| - 1]);
      StepStaysLater(s, From(s, steps[..|steps| - 1]).value, steps[|steps| - 1]);
    }
  }

  /** Below the counter, a later state has only what had been drawn. */
  lemma LaterIsDrawn<E>(s: State<E>, s': State<E>, i: nat)
    requires AppendInv(s) && Later(s, s') && i < s.nextId
    ensures Drawn(s', i) ==> Drawn(s, i)
    ensures i in s'.outbox ==> i in s.outbox || Drawn(s, i)
  {
    if Drawn(s', i) {
      var t :| 0 <= t < |s'.txs| && MayCommit(s'.txs[t]) && i in s'.txs[t].ids;
      assert Evolves(s, t, s'.txs[t]);
      assert t < |s.txs| && i in s.txs[t].ids && TxOk(s, s.txs[t]);
    }
  }

  lemma StepIsLater<E>(s: State<E>, step: Step<E>)
    requires AppendInv(s) && Enabled(s, step)
    ensures Later(s, After(s, step))
  {
    assert Later(s, s);
    StepStaysLater(s, s, step);
  }

  // ---------- What may come in does ----------

  /** An append that has a row in both tables can be finished without anybody's help. */
  lemma {:induction false} Finish<E>(s: State<E>, t: nat) returns (steps: seq<Step<E>>, s': State<E>)
    requires AppendInv(s) && TxStep(s, t, Inserting) && s.txs[t].ids != []
    ensures From(s, steps) == Some(s') && AppendInv(s') && TxStep(s', t, Inserting) && s'.txs[t].Complete()
    ensures s.txs[t].ids <= s'.txs[t].ids && s'.log == s.log
    ensures forall i | 0 <= i < |steps| :: !steps[i].Claim?
    decreases 2 * |s.txs[t].batch| - s.txs[t].rows - |s.txs[t].ids|
  {
    var x := s.txs[t];
    assert TxOk(s, x);
    if x.Complete() {
      steps, s' := [], s;
    } else {
      var step: Step<E> := if x.rows == |x.ids| then InsertEvent(t) else InsertOutbox(t);
      NextRow(s, t, step);
      StepKeepsAppendInv(s, step);
      var first := FromExtends(s, [], s, step);
      var rest;
      rest, s' := Finish(After(s, step), t);
      FromConcat(s, first, rest);
      steps := first + rest;
    }
  }

  lemma NextRow<E>(s: State<E>, t: nat, step: Step<E>)
    requires AppendInv(s) && TxStep(s, t, Inserting) && s.txs[t].ids != [] && !s.txs[t].Complete()
    requires step == if s.txs[t].rows == |s.txs[t].ids| then InsertEvent(t) else InsertOutbox(t)
    ensures Enabled(s, step) && TxStep(After(s, step), t, Inserting) && After(s, step).log == s.log
    ensures var x, y := s.txs[t], After(s, step).txs[t];
      && x.ids <= y.ids && y.batch == x.batch
      && 2 * |y.batch| - y.rows - |y.ids| < 2 * |x.batch| - x.rows - |x.ids|
  {
    assert TxOk(s, s.txs[t]);
    if step.InsertEvent? {
      FirstRowDecides(s, t);
    }
  }

  /** The row that the append has drawn comes in. */
  lemma DrawnMayComeIn<E>(s: State<E>, t: nat, id: nat) returns (steps: seq<Step<E>>)
    requires AppendInv(s) && t < |s.txs| && MayCommit(s.txs[t]) && id in s.txs[t].ids
    ensures From(s, steps).Some? && id in From(s, steps).value.outbox && id !in s.outbox
    ensures From(s, steps).value.log == s.log && forall i | 0 <= i < |steps| :: !steps[i].Claim?
  {
    assert TxOk(s, s.txs[t]);
    var s', commit: Step<E> := s, ServerCommit(t);
    steps := [];
    if s.txs[t].phase.Inserting? {
      steps, s' := Finish(s, t);
      commit := CommitAppend(t);
    }
    steps := FromExtends(s, steps, s', commit);
    assert TxOk(s', s'.txs[t]) && id in s'.txs[t].ids;
    ApplyGrowsOutbox(s'.outbox, s'.txs[t]);
  }

  // ---------- The condition ----------

  /** No row with an id below e comes in. */
  ghost predicate NoneBelow<E>(s: State<E>, steps: seq<Step<E>>, e: nat) {
    From(s, steps).Some? && forall i | i in From(s, steps).value.outbox && i < e :: i in s.outbox
  }

  /** No row with a lower id than e comes in later, if and only if no append that may still be applied has drawn a
      lower id. */
  lemma ArrivalCondition<E>(s: State<E>, e: nat)
    requires AppendInv(s) && DispatchInv(s) && e in s.outbox
    ensures (forall i | 0 <= i < e :: !Drawn(s, i)) <==>
            forall steps | From(s, steps).Some? :: NoneBelow(s, steps, e)
  {
    if i: nat :| i < e && Drawn(s, i) {
      var t :| 0 <= t < |s.txs| && MayCommit(s.txs[t]) && i in s.txs[t].ids;
      var steps := DrawnMayComeIn(s, t, i);
      assert !NoneBelow(s, steps, e);
    } else {
      forall steps | From(s, steps).Some? ensures NoneBelow(s, steps, e) {
        FromIsLater(s, steps);
        forall i: nat | i in From(s, steps).value.outbox && i < e ensures i in s.outbox {
          assert !Drawn(s, i);
        }
      }
    }
  }
}
