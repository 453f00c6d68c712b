/** Outbox ids are drawn before commit. When the order of the ids is also the order of delivery, across streams and
    with any number of dispatchers, and when not. */
module GlobalOrder {
  import opened Events
  import opened Protocol
  import opened AppendSafety
  import opened DispatchSafety
  import opened Continuations
  import opened DispatchOrder
  import opened Arrivals

  // ---------- The promise and its guard ----------

  /** Whatever was offered to the bus had all rows with lower ids delivered before. */
  ghost predicate OfferedInIdOrder<E>(outbox: map<nat, Envelope<E>>, log: seq<Delivery<E>>) {
    forall p, i: nat | 0 <= p < |log| && i in outbox && i < log[p].id ::
      Delivered(log[..p], i)
  }

  /** No append that may still be applied has drawn an id below e. */
  ghost predicate Settled<E>(s: State<E>, e: nat) {
    forall i: nat | i < e :: !Drawn(s, i)
  }

  /** Every row with a lower id than e is among these, or has been delivered. */
  ghost predicate AllBelow<E>(outbox: map<nat, Envelope<E>>, log: seq<Delivery<E>>, ids: seq<nat>, e: nat) {
    forall i | i in outbox && i < e :: i in ids || Delivered(log, i)
  }

  /** Nothing can come in below the rows that a claim takes, and what it leaves out below them has been delivered. */
  ghost predicate IdGuard<E>(s: State<E>, ids: seq<nat>) {
    forall j | 0 <= j < |ids| :: Settled(s, ids[j]) && AllBelow(s.outbox, s.log, ids, ids[j])
  }

  ghost predicate IdGuarded<E>(s: State<E>, step: Step<E>) {
    step.Claim? ==> IdGuard(s, step.ids)
  }

  /** The steps lead on from s, and all claims among them are guarded. */
  ghost predicate IdGuardedFrom<E>(s: State<E>, steps: seq<Step<E>>) {
    && From(s, steps).Some?
    && (steps == [] ||
        (IdGuardedFrom(s, steps[..|steps| - 1]) &&
         IdGuarded(From(s, steps[..|steps| - 1]).value, steps[|steps| - 1])))
  }

  lemma {:induction false} UnclaimingIsIdGuarded<E>(s: State<E>, steps: seq<Step<E>>)
    requires From(s, steps).Some? && forall i | 0 <= i < |steps| :: !steps[i].Claim?
    ensures IdGuardedFrom(s, steps)
  {
    if steps != [] {
      UnclaimingIsIdGuarded(s, steps[..|steps| - 1]);
    }
  }

  /** For the claim of an undisturbed SELECT: what it leaves out below its rows is locked by an open transaction, or
      dispatched and so delivered. */
  lemma FirstClaimIdGuard<E>(s: State<E>, batchSize: nat, ids: seq<nat>)
    requires DispatchInv(s) && FirstClaimable(s, batchSize, ids)
    ensures IdGuard(s, ids) <==>
      forall j | 0 <= j < |ids| :: Settled(s, ids[j]) && LockedAreDelivered(s, ids[j])
  {
    forall j | 0 <= j < |ids|
      ensures AllBelow(s.outbox, s.log, ids, ids[j]) <==> LockedAreDelivered(s, ids[j])
    {
      FirstLeavesOut(s, batchSize, ids, j);
    }
  }

  ghost predicate LockedAreDelivered<E>(s: State<E>, e: nat) {
    forall i: nat | i < e && Locked(s, i) :: Delivered(s.log, i)
  }

  lemma FirstLeavesOut<E>(s: State<E>, batchSize: nat, ids: seq<nat>, j: nat)
    requires DispatchInv(s) && FirstClaimable(s, batchSize, ids) && j < |ids|
    ensures AllBelow(s.outbox, s.log, ids, ids[j]) <==> LockedAreDelivered(s, ids[j])
  {
    forall i: nat | i < ids[j] && i in s.outbox
      ensures (i in ids || Delivered(s.log, i)) <==> (Locked(s, i) ==> Delivered(s.log, i))
    {
      assert i in ids ==> Claimable(s, i);
      assert Claimable(s, i) ==> i in ids;
    }
    forall i: nat | Locked(s, i) ensures i in s.outbox {
      LockedIsPending(s, i);
    }
  }

  // ---------- The invariant ----------

  ghost predicate IdInv<E>(s: State<E>) {
    && (forall d | 0 <= d < |s.sessions| && s.sessions[d].running :: IdGuard(s, s.sessions[d].ids))
    && OfferedInIdOrder(s.outbox, s.log)
    && (forall p | 0 <= p < |s.log| :: Settled(s, s.log[p].id))
  }

  /** Below a settled id nothing comes in and nothing is drawn. */
  lemma SettledStays<E>(s: State<E>, s': State<E>, e: nat)
    requires AppendInv(s) && Later(s, s') && Settled(s, e) && e <= s.nextId
    ensures Settled(s', e) && forall i | i in s'.outbox && i < e :: i in s.outbox
  {
    forall i: nat | i < e ensures !Drawn(s', i) && (i in s'.outbox ==> i in s.outbox) {
      LaterIsDrawn(s, s', i);
      assert !Drawn(s, i);
    }
  }

  lemma IdGuardStays<E>(s: State<E>, s': State<E>, ids: seq<nat>)
    requires AppendInv(s) && Later(s, s') && IdGuard(s, ids) && s.log <= s'.log
    requires forall j | 0 <= j < |ids| :: ids[j] in s.outbox
    ensures IdGuard(s', ids)
  {
    forall j | 0 <= j < |ids| ensures Settled(s', ids[j]) && AllBelow(s'.outbox, s'.log, ids, ids[j]) {
      SettledStays(s, s', ids[j]);
      forall i | i in s'.outbox && i < ids[j] ensures i in ids || Delivered(s'.log, i) {
        if i !in ids {
          DeliveredKept(s.log, s'.log, i);
        }
      }
    }
  }

  /** What has been offered stays in id order, whatever comes in. */
  lemma OfferedStays<E>(s: State<E>, s': State<E>)
    requires AppendInv(s) && LogOk(s.outbox, s.log) && IdInv(s) && Later(s, s') && s'.log == s.log
    ensures OfferedInIdOrder(s'.outbox, s'.log) && forall p | 0 <= p < |s'.log| :: Settled(s', s'.log[p].id)
  {
    forall p | 0 <= p < |s.log|
      ensures Settled(s', s.log[p].id)
      ensures forall i | i in s'.outbox && i < s.log[p].id :: i in s.outbox
    {
      SettledStays(s, s', s.log[p].id);
    }
  }

  /** Steps that offer nothing and claim nothing. */
  lemma QuietKeepsIds<E>(s: State<E>, s': State<E>)
    requires AppendInv(s) && DispatchInv(s) && IdInv(s) && Later(s, s') && s'.log == s.log
    requires forall d | 0 <= d < |s'.sessions| && s'.sessions[d].running ::
      d < |s.sessions| && s.sessions[d].running && s'.sessions[d].ids == s.sessions[d].ids
    ensures IdInv(s')
  {
    OfferedStays(s, s');
    forall d | 0 <= d < |s'.sessions| && s'.sessions[d].running ensures IdGuard(s', s'.sessions[d].ids) {
      assert SessionOk(s.outbox, s.dispatched, s.sessions[d]);
      IdGuardStays(s, s', s.sessions[d].ids);
    }
  }

  lemma ClaimKeepsIds<E>(s: State<E>, step: Step<E>)
    requires AppendInv(s) && DispatchInv(s) && IdInv(s) && Enabled(s, step) && step.Claim? && IdGuard(s, step.ids)
    ensures IdInv(After(s, step))
  {
    var s' := After(s, step);
    StepIsLater(s, step);
    OfferedStays(s, s');
    forall j | 0 <= j < |step.ids| ensures step.ids[j] in s.outbox {
      assert Claimable(s, step.ids[j]);
    }
    forall d | 0 <= d < |s'.sessions| && s'.sessions[d].running ensures IdGuard(s', s'.sessions[d].ids) {
      assert d < |s.sessions| ==> SessionOk(s.outbox, s.dispatched, s.sessions[d]);
      IdGuardStays(s, s', s'.sessions[d].ids);
    }
  }

  /** A claim offers its next entry. */
  lemma OfferKeepsIdOrder<E>(s: State<E>, x: Session, delivery: Delivery<E>)
    requires OfferedInIdOrder(s.outbox, s.log) && IdGuard(s, x.ids)
    requires SessionOk(s.outbox, s.dispatched, x) && PublishedOk(s.log, x)
    requires x.published < |x.ids| && delivery.id == x.ids[x.published]
    ensures OfferedInIdOrder(s.outbox, s.log + [delivery])
  {
    var log' := s.log + [delivery];
    forall p, i: nat | 0 <= p < |log'| && i in s.outbox && i < log'[p].id ensures Delivered(log'[..p], i) {
      if p < |s.log| {
        assert log'[..p] == s.log[..p] && log'[p] == s.log[p];
      } else {
        assert log'[..p] == s.log && log'[p] == delivery;
        BelowNextIsDelivered(s, x, i);
      }
    }
  }

  lemma BelowNextIsDelivered<E>(s: State<E>, x: Session, i: nat)
    requires IdGuard(s, x.ids) && SessionOk(s.outbox, s.dispatched, x) && PublishedOk(s.log, x)
    requires x.published < |x.ids| && i in s.outbox && i < x.ids[x.published]
    ensures Delivered(s.log, i)
  {
    assert AllBelow(s.outbox, s.log, x.ids, x.ids[x.published]);
    if i in x.ids {
      var m :| 0 <= m < |x.ids| && x.ids[m] == i;
      assert m < x.published;
    }
  }

  lemma PublishKeepsIds<E>(s: State<E>, step: Step<E>)
    requires AppendInv(s) && DispatchInv(s) && IdInv(s) && Enabled(s, step) && (step.Publish? || step.CrashPublishing?)
    ensures IdInv(After(s, step))
  {
    OfferKeepsIds(s, step.d, After(s, step).sessions[step.d], Deliver(s, step.d, step.results));
  }

  lemma OfferKeepsIds<E>(s: State<E>, d: nat, x': Session, delivery: Delivery<E>)
    requires AppendInv(s) && DispatchInv(s) && IdInv(s) && d < |s.sessions| && s.sessions[d].running
    requires x'.ids == s.sessions[d].ids && s.sessions[d].published < |x'.ids|
    requires delivery.id == x'.ids[s.sessions[d].published]
    ensures IdInv(SetSession(s, d, x').(log := s.log + [delivery]))
  {
    var s' := SetSession(s, d, x').(log := s.log + [delivery]);
    assert SessionOk(s.outbox, s.dispatched, s.sessions[d]) && PublishedOk(s.log, s.sessions[d]);
    OfferKeepsIdOrder(s, s.sessions[d], delivery);
    SameTxsAreLater(s, s');
    forall e | 0 <= e < |s'.sessions| && s'.sessions[e].running ensures IdGuard(s', s'.sessions[e].ids) {
      assert SessionOk(s.outbox, s.dispatched, s.sessions[e]);
      IdGuardStays(s, s', s.sessions[e].ids);
    }
    forall p | 0 <= p < |s'.log| ensures Settled(s', s'.log[p].id) {
      assert Settled(s, s'.log[p].id);
      SettledStays(s, s', s'.log[p].id);
    }
  }

  lemma SameTxsAreLater<E>(s: State<E>, s': State<E>)
    requires s'.txs == s.txs && s'.outbox == s.outbox && s'.nextId == s.nextId
    ensures Later(s, s')
  {
  }

  lemma StepKeepsIds<E>(s: State<E>, step: Step<E>)
    requires AppendInv(s) && DispatchInv(s) && IdInv(s) && Enabled(s, step) && IdGuarded(s, step)
    ensures IdInv(After(s, step))
  {
    if step.Claim? {
      ClaimKeepsIds(s, step);
    } else if step.Publish? || step.CrashPublishing? {
      PublishKeepsIds(s, step);
    } else {
      OtherStepKeepsIds(s, step);
    }
  }

  lemma OtherStepKeepsIds<E>(s: State<E>, step: Step<E>)
    requires AppendInv(s) && DispatchInv(s) && IdInv(s) && Enabled(s, step)
    requires !step.Claim? && !step.Publish? && !step.CrashPublishing?
    ensures IdInv(After(s, step))
  {
    StepIsLater(s, step);
    OtherStepsRunNothing(s, step);
    QuietKeepsIds(s, After(s, step));
  }

  lemma OtherStepsRunNothing<E>(s: State<E>, step: Step<E>)
    requires Enabled(s, step) && !step.Claim? && !step.Publish? && !step.CrashPublishing?
    ensures var s' := After(s, step);
      && s'.log == s.log
      && forall d | 0 <= d < |s'.sessions| && s'.sessions[d].running ::
           d < |s.sessions| && s.sessions[d].running && s'.sessions[d].ids == s.sessions[d].ids
  {
  }

  lemma {:induction false} IdGuardedFromKeepsIds<E>(s: State<E>, steps: seq<Step<E>>)
    requires AppendInv(s) && DispatchInv(s) && IdInv(s) && IdGuardedFrom(s, steps)
    ensures AppendInv(From(s, steps).value) && DispatchInv(From(s, steps).value) && IdInv(From(s, steps).value)
  {
    FromKeepsInv(s, steps);
    if steps != [] {
      FromKeepsInv(s, steps[..|steps| - 1]);
      IdGuardedFromKeepsIds(s, steps[..|steps| - 1]);
      StepKeepsIds(From(s, steps[..|steps| - 1]).value, steps[|steps| - 1]);
    }
  }

  /** Every run from the empty database whose claims are guarded delivers in id order. */
  lemma IdGuardedRunKeepsIdOrder<E>(bus: Bus, steps: seq<Step<E>>)
    requires IdGuardedFrom(Init(bus), steps)
    ensures Run(bus, steps) == From(Init(bus), steps) && IdInv(Run(bus, steps).value)
    ensures OfferedInIdOrder(Run(bus, steps).value.outbox, Run(bus, steps).value.log)
  {
    RunIsFrom(bus, steps);
    RunKeepsAppendInv<E>(bus, []);
    RunKeepsDispatchInv<E>(bus, []);
    assert Run<E>(bus, []) == Some(Init(bus));
    IdGuardedFromKeepsIds(Init(bus), steps);
  }

  // ---------- The guard is exact ----------

  /** The claim left out a lower row that has not been delivered: it is published past it. */
  lemma LeftOutIsPassed<E>(s: State<E>, batchSize: nat, ids: seq<nat>, m: nat, i: nat)
    returns (steps: seq<Step<E>>)
    requires ClaimResult(s, batchSize, ids) && m < |ids|
    requires i in s.outbox && i < ids[m] && i !in ids && !Delivered(s.log, i)
    ensures BreaksIdOrder(After(s, Step<E>.Claim(batchSize, ids)), steps)
  {
    var claimed, s' := After(s, Step<E>.Claim(batchSize, ids)), s;
    steps, s' := OffersPast(s, batchSize, ids, m, i);
    UnclaimingIsIdGuarded(claimed, steps);
    OvertakenBreaks(s', ids[m], i);
  }

  /** A row below the claimed ones has been drawn: they are published, and then it comes in. */
  lemma DrawnIsPassed<E>(s: State<E>, batchSize: nat, ids: seq<nat>, m: nat, i: nat)
    returns (steps: seq<Step<E>>)
    requires AppendInv(s) && DispatchInv(s) && ClaimResult(s, batchSize, ids) && m < |ids|
    requires Drawn(s, i) && i < ids[m]
    ensures BreaksIdOrder(After(s, Step<E>.Claim(batchSize, ids)), steps)
  {
    var claimed, published := After(s, Step<E>.Claim(batchSize, ids)), s;
    DrawnIsNew(s, ids, i, batchSize);
    steps, published := OffersPast(s, batchSize, ids, m, i);
    ClaimedKeepsInv(s, batchSize, ids);
    FromKeepsInv(claimed, steps);
    steps := DrawnComesInPast(claimed, steps, published, ids[m], i);
  }

  lemma DrawnComesInPast<E>(s0: State<E>, steps0: seq<Step<E>>, s: State<E>, e: nat, i: nat)
    returns (steps: seq<Step<E>>)
    requires From(s0, steps0) == Some(s) && forall k | 0 <= k < |steps0| :: !steps0[k].Claim?
    requires AppendInv(s) && Drawn(s, i) && i < e && Overtakes(s.log, e, i)
    ensures BreaksIdOrder(s0, steps)
  {
    var t :| 0 <= t < |s.txs| && MayCommit(s.txs[t]) && i in s.txs[t].ids;
    var more := DrawnMayComeIn(s, t, i);
    FromConcat(s0, steps0, more);
    OvertakenBreaks(From(s, more).value, e, i);
    steps := steps0 + more;
    UnclaimingIsIdGuarded(s0, steps);
  }

  lemma DrawnIsNew<E>(s: State<E>, ids: seq<nat>, i: nat, batchSize: nat)
    requires AppendInv(s) && DispatchInv(s) && ClaimResult(s, batchSize, ids) && Drawn(s, i)
    ensures i !in s.outbox && i !in ids && !Delivered(s.log, i)
  {
    var t :| 0 <= t < |s.txs| && MayCommit(s.txs[t]) && i in s.txs[t].ids;
    assert TxOk(s, s.txs[t]);
    assert forall j | 0 <= j < |ids| :: Claimable(s, ids[j]);
    assert LogOk(s.outbox, s.log);
  }

  lemma ClaimedKeepsInv<E>(s: State<E>, batchSize: nat, ids: seq<nat>)
    requires AppendInv(s) && DispatchInv(s) && ClaimResult(s, batchSize, ids)
    ensures AppendInv(After(s, Step<E>.Claim(batchSize, ids))) && DispatchInv(After(s, Step<E>.Claim(batchSize, ids)))
  {
    StepKeepsAppendInv(s, Step<E>.Claim(batchSize, ids));
    StepKeepsDispatchInv(s, Step<E>.Claim(batchSize, ids));
  }

  lemma OvertakenBreaks<E>(s: State<E>, e: nat, i: nat)
    requires i in s.outbox && i < e && Overtakes(s.log, e, i)
    ensures !OfferedInIdOrder(s.outbox, s.log)
  {
    var p :| 0 <= p < |s.log| && s.log[p].id == e && !Delivered(s.log[..p], i);
    assert s.log[p].id == e;
  }

  /** The steps, whose claims are guarded, lead to a state in which something was offered out of id order. */
  ghost predicate BreaksIdOrder<E>(s: State<E>, steps: seq<Step<E>>) {
    IdGuardedFrom(s, steps) && !InIdOrderAfter(s, steps)
  }

  ghost predicate InIdOrderAfter<E>(s: State<E>, steps: seq<Step<E>>) {
    From(s, steps).Some? && OfferedInIdOrder(From(s, steps).value.outbox, From(s, steps).value.log)
  }

  lemma UnguardedBreaks<E>(s: State<E>, batchSize: nat, ids: seq<nat>) returns (steps: seq<Step<E>>)
    requires AppendInv(s) && DispatchInv(s) && ClaimResult(s, batchSize, ids) && !IdGuard(s, ids)
    ensures BreaksIdOrder(After(s, Step<E>.Claim(batchSize, ids)), steps)
  {
    var m: nat :| m < |ids| && !(Settled(s, ids[m]) && AllBelow(s.outbox, s.log, ids, ids[m]));
    if !Settled(s, ids[m]) {
      var i: nat :| i < ids[m] && Drawn(s, i);
      steps := DrawnIsPassed(s, batchSize, ids, m, i);
    } else {
      var i :| i in s.outbox && i < ids[m] && i !in ids && !Delivered(s.log, i);
      steps := LeftOutIsPassed(s, batchSize, ids, m, i);
    }
  }

  /** The exact condition for delivery in id order, at the claim and with any number of dispatchers. From a state that
      guarded claims have led to, every continuation with guarded claims offers each row after all rows with lower
      ids, also those that come in later, if and only if no append that may still be applied has drawn an id below
      the claimed ones, and each row below them that the claim leaves out has been delivered. */
  lemma IdOrderCondition<E>(s: State<E>, batchSize: nat, ids: seq<nat>)
    requires AppendInv(s) && DispatchInv(s) && IdInv(s) && ClaimResult(s, batchSize, ids)
    ensures var s' := After(s, Step<E>.Claim(batchSize, ids));
      IdGuard(s, ids) <==> forall steps | IdGuardedFrom(s', steps) :: InIdOrderAfter(s', steps)
  {
    var s' := After(s, Step<E>.Claim(batchSize, ids));
    if IdGuard(s, ids) {
      ClaimedKeepsInv(s, batchSize, ids);
      StepKeepsIds(s, Step<E>.Claim(batchSize, ids));
      forall steps | IdGuardedFrom(s', steps) ensures InIdOrderAfter(s', steps) {
        IdGuardedFromKeepsIds(s', steps);
      }
    } else {
      var steps := UnguardedBreaks(s, batchSize, ids);
      assert !InIdOrderAfter(s', steps);
    }
  }

  // ---------- Runs out of id order ----------

  const FIRST := Envelope(1, "A", 1, "E", 0)
  const SECOND := Envelope(2, "A", 1, "E", 0)
  const HEARD: Bus := map["E" := [0]]

  /** Two appends to two streams have inserted their rows. The first one drew id 1, the second one id 2. */
  function BothDrawn(): State<int> {
    Init(HEARD).(
      nextId := 3,
      txs := [Tx(1, 0, [FIRST], Inserting, 1, [1]), Tx(2, 0, [SECOND], Inserting, 1, [2])])
  }

  lemma BothDraw() returns (steps: seq<Step<int>>)
    ensures From(Init(HEARD), steps) == Some(BothDrawn())
  {
    var s: State<int> := Init(HEARD);
    steps := [];
    steps, s := Insert(steps, s, 1, FIRST);
    steps, s := Insert(steps, s, 2, SECOND);
    assert s.txs == BothDrawn().txs;
  }

  /** An append to a new stream inserts its one row, and does not commit yet. */
  lemma Insert(steps: seq<Step<int>>, s: State<int>, stream: Uuid, env: Envelope<int>)
    returns (steps': seq<Step<int>>, s': State<int>)
    requires From(Init(HEARD), steps) == Some(s) && s.events == map[] && KeyOf(env) == Key(stream, 1)
    requires forall t | 0 <= t < |s.txs| :: s.txs[t].stream != stream && !s.txs[t].Holds(KeyOf(env))
    ensures From(Init(HEARD), steps') == Some(s')
    ensures s' == s.(nextId := s.nextId + 1, txs := s.txs + [Tx(stream, 0, [env], Inserting, 1, [s.nextId])])
  {
    var t, x := |s.txs|, Tx(stream, 0, [env], Begun, 0, []);
    steps' := FromExtends(Init(HEARD), steps, s, Begin(stream, 0, [env]));
    HeadCheckAlone(s, x);
    steps' := FromExtends(Init(HEARD), steps', s.(txs := s.txs + [x]), HeadCheck(t, 0));
    x := x.(phase := Inserting);
    InsertEventAlone(s, x);
    steps' := FromExtends(Init(HEARD), steps', s.(txs := s.txs + [x]), InsertEvent(t));
    x := x.(rows := 1);
    InsertOutboxAlone(s, x);
    steps' := FromExtends(Init(HEARD), steps', s.(txs := s.txs + [x]), InsertOutbox(t));
    s' := s.(nextId := s.nextId + 1, txs := s.txs + [x.(ids := [s.nextId])]);
  }

  /** Append t, of one row, commits, and the row is claimed and served. */
  lemma CommitAndServe(steps: seq<Step<int>>, s: State<int>, t: nat)
    returns (steps': seq<Step<int>>, s': State<int>)
    requires From(Init(HEARD), steps) == Some(s) && TxStep(s, t, Inserting)
    requires |s.txs[t].batch| == 1 == s.txs[t].rows == |s.txs[t].ids| && s.txs[t].ids[0] !in s.dispatched
    requires forall d | 0 <= d < |s.sessions| :: !s.sessions[d].live
    ensures From(Init(HEARD), steps') == Some(s')
    ensures var x := s.txs[t];
      && s'.txs == s.txs[t := x.(phase := Committed(true))]
      && s'.dispatched == s.dispatched + {x.ids[0]}
      && |s'.log| == |s.log| + 1 && s'.log[..|s.log|] == s.log
      && s'.log[|s.log|].id == x.ids[0] && s'.log[|s.log|].Ok()
      && forall d | 0 <= d < |s'.sessions| :: !s'.sessions[d].live
  {
    var id := s.txs[t].ids[0];
    steps' := FromExtends(Init(HEARD), steps, s, CommitAppend(t));
    var committed := After(s, Step<int>.CommitAppend(t));
    assert id in committed.outbox;
    assert Claimable(committed, id);
    steps' := FromExtends(Init(HEARD), steps', committed, Claim(1, [id]));
    var rest;
    rest, s' := Serve(committed, 1, [id]);
    FromConcat(Init(HEARD), steps', rest);
    steps' := steps' + rest;
    assert [id][0] in Elements([id]);
  }

  /** The row with id 2 commits and is delivered and dispatched before the row with id 1. */
  lemma OutOfIdOrder() returns (steps: seq<Step<int>>, s: State<int>)
    ensures Run(HEARD, steps) == Some(s)
    ensures |s.log| == 2 && s.log[0].id == 2 && s.log[1].id == 1 && s.log[0].Ok() && s.log[1].Ok()
    ensures s.dispatched == {1, 2}
  {
    steps := BothDraw();
    steps, s := CommitAndServe(steps, BothDrawn(), 1);
    steps, s := CommitAndServe(steps, s, 0);
    RunIsFrom(HEARD, steps);
  }

  /** An append of one row commits. */
  function RowCommitted(s: State<int>, t: nat): State<int>
    requires t < |s.txs| && |s.txs[t].batch| == 1 == |s.txs[t].ids|
  {
    var x := s.txs[t];
    s.(txs := s.txs[t := x.(phase := Committed(true))],
       events := s.events[KeyOf(x.batch[0]) := x.batch[0]],
       outbox := s.outbox[x.ids[0] := x.batch[0]])
  }

  lemma CommitRow(s: State<int>, t: nat)
    requires TxStep(s, t, Inserting) && |s.txs[t].batch| == 1 == s.txs[t].rows == |s.txs[t].ids|
    ensures Enabled(s, Step<int>.CommitAppend(t)) && After(s, Step<int>.CommitAppend(t)) == RowCommitted(s, t)
  {
    var x := s.txs[t];
    assert InsertRows(s.events, x.batch, 0) == s.events;
    assert InsertOutboxRows(s.outbox, x.ids, x.batch, 0) == s.outbox;
  }

  /** Both rows are there, and no append is open. */
  function BothStored(): State<int> {
    RowCommitted(RowCommitted(BothDrawn(), 0), 1)
  }

  lemma BothCommit() returns (steps: seq<Step<int>>)
    ensures From(Init(HEARD), steps) == Some(BothStored())
  {
    steps := BothDraw();
    var s := BothDrawn();
    CommitRow(s, 0);
    steps := FromExtends(Init(HEARD), steps, s, CommitAppend(0));
    s := RowCommitted(s, 0);
    CommitRow(s, 1);
    steps := FromExtends(Init(HEARD), steps, s, CommitAppend(1));
  }

  /** Another claim holds row 1. */
  function FirstHeld(): State<int> {
    BothStored().(sessions := [Session([1], 0, false, true, true, false, false)])
  }

  lemma FirstIsHeld()
    ensures ClaimResult(BothStored(), 1, [1]) && After(BothStored(), Step<int>.Claim(1, [1])) == FirstHeld()
    ensures ClaimResult(FirstHeld(), 1, [2]) && forall i :: !Drawn(FirstHeld(), i)
  {
    var s := FirstHeld();
    assert s.outbox == map[1 := FIRST, 2 := SECOND];
    assert s.txs[0].phase.Committed? && s.txs[1].phase.Committed?;
    assert 2 !in s.sessions[0].ids;
  }

  /** The claim is served, and then the other one publishes row 1. */
  lemma SecondGoesFirst() returns (steps: seq<Step<int>>, s: State<int>)
    ensures ClaimResult(FirstHeld(), 1, [2])
    ensures From(After(FirstHeld(), Step<int>.Claim(1, [2])), steps) == Some(s)
    ensures |s.log| == 2 && s.log[0].id == 2 && s.log[1].id == 1 && s.log[0].Ok() && s.log[1].Ok()
    ensures 1 in s.outbox
  {
    FirstIsHeld();
    var served;
    steps, served := Serve(FirstHeld(), 1, [2]);
    assert served.sessions[0] == FirstHeld().sessions[0];
    var more := PublishOn(served, 0, 1);
    FromConcat(After(FirstHeld(), Step<int>.Claim(1, [2])), steps, more);
    steps := steps + more;
    s := PublishedTo(served, 0, 1);
    assert [1][0..1] == [1];
  }

  /** Both appends have committed, so nothing is drawn when row 2 is claimed, and nothing fails; but another claim
      holds row 1, and row 2 is delivered first. */
  lemma OutOfIdOrderWhenSettled() returns (before: seq<Step<int>>, after: seq<Step<int>>, s: State<int>)
    ensures Run(HEARD, before) == Some(FirstHeld()) && forall i :: !Drawn(FirstHeld(), i)
    ensures Run(HEARD, before + [Claim(1, [2])] + after) == Some(s)
    ensures |s.log| == 2 && s.log[0].id == 2 && s.log[1].id == 1 && s.log[0].Ok() && s.log[1].Ok()
    ensures !OfferedInIdOrder(s.outbox, s.log)
  {
    FirstIsHeld();
    before := BothCommit();
    before := FromExtends(Init(HEARD), before, BothStored(), Claim(1, [1]));
    var claimed := FromExtends(Init(HEARD), before, FirstHeld(), Claim(1, [2]));
    after, s := SecondGoesFirst();
    FromConcat(Init(HEARD), claimed, after);
    RunIsFrom(HEARD, before);
    RunIsFrom(HEARD, claimed + after);
    assert !Delivered(s.log[..0], 1);
  }
}
