/**
 Delivery order, with any number of dispatchers, and the condition on a claim that it hangs on.

 Dispatchers may crash, lose their connection, fail to publish or fail to commit at any point, and a
 transaction may keep its locks for as long as the server likes after its dispatcher has given up on it.
 Appends go on concurrently throughout. A guard says which rows a claim may take; a claim that breaks it
 has a continuation in which the promise made by the guard is broken.
 */
module DispatchOrder {
  import opened Events
  import opened Protocol
  import opened AppendSafety
  import opened DispatchSafety
  import opened Continuations

  // ---------- The guards ----------

  ghost predicate SameStream<E>(outbox: map<nat, Envelope<E>>, i: nat, j: nat) {
    i in outbox && j in outbox && outbox[i].aggregateId == outbox[j].aggregateId
  }

  /** A row that comes before one of these rows in its stream is among them, or has been delivered. */
  ghost predicate Covered<E>(outbox: map<nat, Envelope<E>>, log: seq<Delivery<E>>, ids: seq<nat>) {
    forall i, j {:trigger SameStream(outbox, i, ids[j])} |
      0 <= j < |ids| && SameStream(outbox, i, ids[j]) && i < ids[j] :: i in ids || Delivered(log, i)
  }

  /** A row that comes before one of these rows in its stream is among them, or is dispatched. */
  ghost predicate Closed<E>(outbox: map<nat, Envelope<E>>, dispatched: set<nat>, ids: seq<nat>) {
    forall i, j {:trigger SameStream(outbox, i, ids[j])} |
      0 <= j < |ids| && SameStream(outbox, i, ids[j]) && i < ids[j] :: i in ids || i in dispatched
  }

  /** The session's dispatcher is at work, and has yet to publish a row that comes before row e. */
  ghost predicate Undercuts<E>(outbox: map<nat, Envelope<E>>, x: Session, e: nat) {
    exists j {:trigger SameStream(outbox, x.ids[j], e)} ::
      Publishing(x) && x.published <= j < |x.ids| && SameStream(outbox, x.ids[j], e) && x.ids[j] < e
  }

  /** No dispatcher has yet to publish a row that comes before one of these. */
  ghost predicate NotUndercut<E>(s: State<E>, ids: seq<nat>) {
    forall d, j {:trigger Undercuts(s.outbox, s.sessions[d], ids[j])} |
      0 <= d < |s.sessions| && 0 <= j < |ids| :: !Undercuts(s.outbox, s.sessions[d], ids[j])
  }

  /** What a guard on claims is to achieve. InOrder: no event is offered before its predecessors have been
      delivered. Prefixes: the dispatched rows are a prefix of each stream. Current: a handler never falls
      behind what is dispatched. */
  datatype Promise = InOrder | Prefixes | Current

  ghost predicate Guard<E>(s: State<E>, ids: seq<nat>, promise: Promise) {
    match promise
    case InOrder => Covered(s.outbox, s.log, ids)
    case Prefixes => Closed(s.outbox, s.dispatched, ids)
    case Current => Closed(s.outbox, s.dispatched, ids) && NotUndercut(s, ids)
  }

  ghost predicate Guarded<E>(s: State<E>, step: Step<E>, promise: Promise) {
    step.Claim? ==> Guard(s, step.ids, promise)
  }

  /** The steps lead on from s, and all claims among them are guarded. */
  ghost predicate GuardedFrom<E>(s: State<E>, steps: seq<Step<E>>, promise: Promise) {
    && From(s, steps).Some?
    && (steps == [] ||
        (GuardedFrom(s, steps[..|steps| - 1], promise) &&
         Guarded(From(s, steps[..|steps| - 1]).value, steps[|steps| - 1], promise)))
  }

  lemma {:induction false} UnclaimingIsGuarded<E>(s: State<E>, steps: seq<Step<E>>, promise: Promise)
    requires From(s, steps).Some? && forall i | 0 <= i < |steps| :: !steps[i].Claim?
    ensures GuardedFrom(s, steps, promise)
  {
    if steps != [] {
      UnclaimingIsGuarded(s, steps[..|steps| - 1], promise);
    }
  }

  lemma GuardedExtends<E>(s: State<E>, steps: seq<Step<E>>, s': State<E>, step: Step<E>, promise: Promise)
    returns (steps': seq<Step<E>>)
    requires GuardedFrom(s, steps, promise) && From(s, steps) == Some(s')
    requires Enabled(s', step) && Guarded(s', step, promise)
    ensures steps' == steps + [step] && GuardedFrom(s, steps', promise) && From(s, steps') == Some(After(s', step))
  {
    steps' := steps + [step];
    assert steps'[..|steps'| - 1] == steps;
  }

  lemma LastStep<E>(s: State<E>, steps: seq<Step<E>>, promise: Promise) returns (before: State<E>)
    requires GuardedFrom(s, steps, promise) && steps != []
    ensures GuardedFrom(s, steps[..|steps| - 1], promise) && From(s, steps[..|steps| - 1]) == Some(before)
    ensures Enabled(before, steps[|steps| - 1]) && Guarded(before, steps[|steps| - 1], promise)
    ensures From(s, steps) == Some(After(before, steps[|steps| - 1]))
  {
    before := From(s, steps[..|steps| - 1]).value;
  }

  lemma {:induction false} GuardedConcat<E>(
    s: State<E>, first: seq<Step<E>>, s': State<E>, second: seq<Step<E>>, promise: Promise)
    requires GuardedFrom(s, first, promise) && From(s, first) == Some(s') && GuardedFrom(s', second, promise)
    ensures GuardedFrom(s, first + second, promise) && From(s, first + second) == From(s', second)
  {
    if second == [] {
      assert first + second == first;
    } else {
      var last := |second| - 1;
      var before := LastStep(s', second, promise);
      GuardedConcat(s, first, s', second[..last], promise);
      SplitLast(first, second);
      var all := GuardedExtends(s, first + second[..last], before, second[last], promise);
    }
  }

  lemma SplitLast<T>(first: seq<T>, second: seq<T>)
    requires second != []
    ensures first + second[..|second| - 1] + [second[|second| - 1]] == first + second
  {
  }

  // ---------- When the claim of a SELECT is guarded ----------

  /** No claim is open, neither in a dispatcher nor on the server. */
  ghost predicate Idle<E>(s: State<E>) {
    forall d | 0 <= d < |s.sessions| :: !s.sessions[d].Open()
  }

  /** An undisturbed SELECT takes the first claimable rows. It takes all that come before its rows exactly if no
      open transaction locks one of those. */
  lemma FirstClaimIsClosed<E>(s: State<E>, batchSize: nat, ids: seq<nat>)
    requires Sessions(s) && FirstClaimable(s, batchSize, ids)
    ensures Closed(s.outbox, s.dispatched, ids) <==>
      forall i, j {:trigger SameStream(s.outbox, i, ids[j])} |
        0 <= j < |ids| && SameStream(s.outbox, i, ids[j]) && i < ids[j] :: !Locked(s, i)
  {
    forall i, j | 0 <= j < |ids| && SameStream(s.outbox, i, ids[j]) && i < ids[j]
      ensures i in ids || i in s.dispatched <==> !Locked(s, i)
    {
      assert i in ids ==> Claimable(s, i);
      assert Claimable(s, i) ==> i in ids;
      if Locked(s, i) {
        LockedIsPending(s, i);
      }
    }
  }

  /** No open claim, neither in a dispatcher nor on the server, has rows of a stream that this claim takes rows of. */
  ghost predicate StreamsApart<E>(s: State<E>, ids: seq<nat>) {
    forall d, k, j {:trigger SameStream(s.outbox, s.sessions[d].ids[k], ids[j])} |
      0 <= d < |s.sessions| && s.sessions[d].Open() && 0 <= k < |s.sessions[d].ids| && 0 <= j < |ids| ::
      !SameStream(s.outbox, s.sessions[d].ids[k], ids[j])
  }

  /** With open claims on other streams only, whoever holds them, an undisturbed SELECT is guarded. */
  lemma ApartIsGuarded<E>(s: State<E>, batchSize: nat, ids: seq<nat>)
    requires DispatchInv(s) && FirstClaimable(s, batchSize, ids) && StreamsApart(s, ids)
    ensures forall promise :: Guard(s, ids, promise)
  {
    forall i, j | 0 <= j < |ids| && SameStream(s.outbox, i, ids[j]) && i < ids[j] ensures !Locked(s, i) {
      if Locked(s, i) {
        assert false;
      }
    }
    FirstClaimIsClosed(s, batchSize, ids);
    ClosedIsCovered(s, ids);
  }

  /** One dispatcher whose previous claim has ended on both sides. */
  lemma IdleIsGuarded<E>(s: State<E>, batchSize: nat, ids: seq<nat>)
    requires DispatchInv(s) && FirstClaimable(s, batchSize, ids) && Idle(s)
    ensures forall promise :: Guard(s, ids, promise)
  {
    ApartIsGuarded(s, batchSize, ids);
  }

  /** A claim takes the first rows, while no open claim has rows of the same streams; no claim being open at all is
      a special case. */
  ghost predicate ApartStep<E>(s: State<E>, step: Step<E>) {
    step.Claim? ==> FirstClaimable(s, step.batchSize, step.ids) && (Idle(s) || StreamsApart(s, step.ids))
  }

  ghost predicate ApartFrom<E>(s: State<E>, steps: seq<Step<E>>) {
    && From(s, steps).Some?
    && (steps == [] ||
        (ApartFrom(s, steps[..|steps| - 1]) && ApartStep(From(s, steps[..|steps| - 1]).value, steps[|steps| - 1])))
  }

  lemma ApartStepIsGuarded<E>(s: State<E>, step: Step<E>, promise: Promise)
    requires DispatchInv(s) && ApartStep(s, step)
    ensures Guarded(s, step, promise)
  {
    if step.Claim? {
      ApartIsGuarded(s, step.batchSize, step.ids);
    }
  }

  /** Every run with such claims fulfils every guard, with any number of dispatchers. */
  lemma {:induction false} ApartRunIsGuarded<E>(s: State<E>, steps: seq<Step<E>>, promise: Promise)
    requires AppendInv(s) && DispatchInv(s) && ApartFrom(s, steps)
    ensures GuardedFrom(s, steps, promise)
  {
    if steps != [] {
      var before, last := steps[..|steps| - 1], steps[|steps| - 1];
      ApartRunIsGuarded(s, before, promise);
      FromKeepsInv(s, before);
      ApartStepIsGuarded(From(s, before).value, last, promise);
    }
  }

  lemma ClosedIsCovered<E>(s: State<E>, ids: seq<nat>)
    requires DispatchInv(s) && Closed(s.outbox, s.dispatched, ids)
    ensures Covered(s.outbox, s.log, ids)
  {
  }

  // ---------- The invariants ----------

  /** Dispatched rows form a prefix of each stream. */
  ghost predicate DispatchedPrefix<E>(outbox: map<nat, Envelope<E>>, dispatched: set<nat>) {
    forall i, j {:trigger SameStream(outbox, i, j)} | j in dispatched && SameStream(outbox, i, j) && i < j ::
      i in dispatched
  }

  /** Whatever was offered to the bus had all its predecessors delivered before. */
  ghost predicate OfferedInOrder<E>(outbox: map<nat, Envelope<E>>, log: seq<Delivery<E>>) {
    forall p, i: nat {:trigger SameStream(outbox, i, log[p].id)} |
      0 <= p < |log| && SameStream(outbox, i, log[p].id) && i < log[p].id :: Delivered(log[..p], i)
  }

  ghost predicate OfferInv<E>(s: State<E>) {
    && (forall d | 0 <= d < |s.sessions| && s.sessions[d].running :: Covered(s.outbox, s.log, s.sessions[d].ids))
    && OfferedInOrder(s.outbox, s.log)
  }

  ghost predicate PrefixInv<E>(s: State<E>) {
    && (forall d | 0 <= d < |s.sessions| && s.sessions[d].live :: Closed(s.outbox, s.dispatched, s.sessions[d].ids))
    && DispatchedPrefix(s.outbox, s.dispatched)
  }

  /** No dispatcher has yet to publish a row that comes before one that is dispatched, or that another
      open transaction may mark. */
  ghost predicate UndercutInv<E>(s: State<E>) {
    && (forall d, i {:trigger Undercuts(s.outbox, s.sessions[d], i)} |
          0 <= d < |s.sessions| && i in s.dispatched :: !Undercuts(s.outbox, s.sessions[d], i))
    && (forall d, e, k {:trigger Undercuts(s.outbox, s.sessions[d], s.sessions[e].ids[k])} |
          0 <= d < |s.sessions| && 0 <= e < |s.sessions| && d != e &&
          s.sessions[e].live && 0 <= k < |s.sessions[e].ids| ::
          !Undercuts(s.outbox, s.sessions[d], s.sessions[e].ids[k]))
  }

  ghost predicate OrderInv<E>(s: State<E>, promise: Promise) {
    && OfferInv(s)
    && (promise != InOrder ==> PrefixInv(s))
    && (promise.Current? ==> UndercutInv(s))
  }

  // ---------- Steps that deliver nothing, mark nothing and claim nothing ----------

  /** Rows may come in, above the rows that their streams have. */
  ghost predicate RowsAbove<E>(outbox: map<nat, Envelope<E>>, outbox': map<nat, Envelope<E>>) {
    && (forall i | i in outbox :: i in outbox' && outbox'[i] == outbox[i])
    && (forall i, j {:trigger SameStream(outbox', i, j)} |
          j in outbox && i !in outbox && SameStream(outbox', i, j) :: j < i)
  }

  /** The session is what it was, except that its dispatcher or its transaction may be gone. */
  ghost predicate Same(x: Session, y: Session) {
    && y.ids == x.ids && y.published == x.published && y.stopped == x.stopped
    && (y.running ==> x.running) && (y.live ==> x.live)
  }

  ghost predicate Quiet<E>(s: State<E>, s': State<E>) {
    && RowsAbove(s.outbox, s'.outbox)
    && s'.dispatched == s.dispatched && s'.log == s.log
    && |s'.sessions| == |s.sessions|
    && forall d | 0 <= d < |s.sessions| :: Same(s.sessions[d], s'.sessions[d])
  }

  /** What a commit adds to a stream lies above everything the stream had. */
  lemma ApplyAddsAbove<E>(s: State<E>, t: nat, acknowledged: bool)
    requires AppendInv(s) && t < |s.txs| && s.txs[t].Open() && s.txs[t].Complete()
    ensures RowsAbove(s.outbox, ApplyAppend(s, t, acknowledged).outbox)
  {
    var x := s.txs[t];
    var outbox' := ApplyAppend(s, t, acknowledged).outbox;
    assert TxOk(s, x);
    ApplyGrowsOutbox(s.outbox, x);
    forall i, j | j in s.outbox && i !in s.outbox && SameStream(outbox', i, j) ensures j < i {
      var p := NewRow(s.outbox, outbox', x, i);
    }
  }

  ghost predicate DispatchStep<E>(step: Step<E>) {
    step.Claim? || step.Publish? || step.CrashPublishing? || step.CommitClaim? || step.ServerMark?
  }

  lemma OtherStepsAreQuiet<E>(s: State<E>, step: Step<E>)
    requires AppendInv(s) && Enabled(s, step) && !DispatchStep(step)
    ensures Quiet(s, After(s, step))
  {
    if step.CommitAppend? || step.ServerCommit? {
      ApplyAddsAbove(s, step.t, step.CommitAppend?);
    } else {
      OtherStepsKeepEvents(s, step);
      OtherStepsKeepSessions(s, step);
    }
  }

  lemma OtherStepsKeepSessions<E>(s: State<E>, step: Step<E>)
    requires Enabled(s, step) && !DispatchStep(step)
    ensures var s' := After(s, step);
      && s'.dispatched == s.dispatched && s'.log == s.log && |s'.sessions| == |s.sessions|
      && forall d | 0 <= d < |s.sessions| :: Same(s.sessions[d], s'.sessions[d])
  {
  }

  lemma QuietKeepsOffer<E>(s: State<E>, s': State<E>)
    requires DispatchInv(s) && OfferInv(s) && Quiet(s, s')
    ensures OfferInv(s')
  {
    forall d | 0 <= d < |s'.sessions| && s'.sessions[d].running
      ensures Covered(s'.outbox, s'.log, s'.sessions[d].ids)
    {
      var x := s.sessions[d];
      assert Same(x, s'.sessions[d]) && SessionOk(s.outbox, s.dispatched, x) && Covered(s.outbox, s.log, x.ids);
      forall i, j | 0 <= j < |x.ids| && SameStream(s'.outbox, i, x.ids[j]) && i < x.ids[j]
        ensures SameStream(s.outbox, i, x.ids[j])
      {
      }
    }
    forall p, i: nat | 0 <= p < |s.log| && SameStream(s'.outbox, i, s.log[p].id) && i < s.log[p].id
      ensures SameStream(s.outbox, i, s.log[p].id)
    {
    }
  }

  lemma QuietKeepsPrefix<E>(s: State<E>, s': State<E>)
    requires DispatchInv(s) && PrefixInv(s) && Quiet(s, s')
    ensures PrefixInv(s')
  {
    forall d | 0 <= d < |s'.sessions| && s'.sessions[d].live
      ensures Closed(s'.outbox, s'.dispatched, s'.sessions[d].ids)
    {
      var x := s.sessions[d];
      assert Same(x, s'.sessions[d]) && SessionOk(s.outbox, s.dispatched, x) && Closed(s.outbox, s.dispatched, x.ids);
      forall i, j | 0 <= j < |x.ids| && SameStream(s'.outbox, i, x.ids[j]) && i < x.ids[j]
        ensures SameStream(s.outbox, i, x.ids[j])
      {
      }
    }
    forall i, j | j in s.dispatched && SameStream(s'.outbox, i, j) && i < j ensures SameStream(s.outbox, i, j) {
    }
  }

  /** A session that has not more to publish than before undercuts no more rows. */
  lemma UndercutsKept<E>(outbox: map<nat, Envelope<E>>, outbox': map<nat, Envelope<E>>, x: Session, y: Session, e: nat)
    requires e in outbox && (forall j | 0 <= j < |x.ids| :: x.ids[j] in outbox)
    requires forall i | i in outbox :: i in outbox' && outbox'[i] == outbox[i]
    requires y.ids == x.ids && y.published >= x.published && (Publishing(y) ==> Publishing(x))
    ensures Undercuts(outbox', y, e) ==> Undercuts(outbox, x, e)
  {
    if Undercuts(outbox', y, e) {
      var j :| Publishing(y) && y.published <= j < |y.ids| && SameStream(outbox', y.ids[j], e) && y.ids[j] < e;
      assert SameStream(outbox, x.ids[j], e);
    }
  }

  lemma SessionsKeepUndercut<E>(s: State<E>, s': State<E>)
    requires Sessions(s) && s.dispatched <= s.outbox.Keys && UndercutInv(s)
    requires forall i | i in s.outbox :: i in s'.outbox && s'.outbox[i] == s.outbox[i]
    requires s'.dispatched == s.dispatched && |s'.sessions| == |s.sessions|
    requires forall d | 0 <= d < |s.sessions| ::
      var x, y := s.sessions[d], s'.sessions[d];
      y.ids == x.ids && y.published >= x.published && (Publishing(y) ==> Publishing(x)) && (y.live ==> x.live)
    ensures UndercutInv(s')
  {
    forall d | 0 <= d < |s'.sessions| ensures SessionOk(s.outbox, s.dispatched, s.sessions[d]) {
    }
    forall d, i | 0 <= d < |s'.sessions| && i in s'.dispatched ensures !Undercuts(s'.outbox, s'.sessions[d], i) {
      UndercutsKept(s.outbox, s'.outbox, s.sessions[d], s'.sessions[d], i);
    }
    forall d, e, k | 0 <= d < |s'.sessions| && 0 <= e < |s'.sessions| && d != e &&
                     s'.sessions[e].live && 0 <= k < |s'.sessions[e].ids|
      ensures !Undercuts(s'.outbox, s'.sessions[d], s'.sessions[e].ids[k])
    {
      assert s'.sessions[e].ids[k] == s.sessions[e].ids[k];
      UndercutsKept(s.outbox, s'.outbox, s.sessions[d], s'.sessions[d], s.sessions[e].ids[k]);
    }
  }

  // ---------- Claims ----------

  lemma ClaimKeepsOffer<E>(s: State<E>, ids: seq<nat>, x: Session)
    requires OfferInv(s) && x.ids == ids && Covered(s.outbox, s.log, ids)
    ensures OfferInv(s.(sessions := s.sessions + [x]))
  {
  }

  lemma ClaimKeepsPrefix<E>(s: State<E>, ids: seq<nat>, x: Session)
    requires PrefixInv(s) && x.ids == ids && Closed(s.outbox, s.dispatched, ids)
    ensures PrefixInv(s.(sessions := s.sessions + [x]))
  {
  }

  /** The new claim undercuts no dispatched row and no row of an older open transaction. */
  lemma NewClaimUndercutsNothing<E>(s: State<E>, ids: seq<nat>, x: Session, e: nat)
    requires Sessions(s) && PrefixInv(s) && x.ids == ids && x.published == 0
    requires forall j | 0 <= j < |ids| :: Claimable(s, ids[j])
    requires e in s.dispatched || Locked(s, e)
    ensures !Undercuts(s.outbox, x, e)
  {
    if Undercuts(s.outbox, x, e) {
      assert false;
    }
  }

  lemma ClaimKeepsUndercut<E>(s: State<E>, ids: seq<nat>, x: Session)
    requires Sessions(s) && PrefixInv(s) && UndercutInv(s)
    requires x.ids == ids && x.published == 0 && NotUndercut(s, ids)
    requires forall j | 0 <= j < |ids| :: Claimable(s, ids[j])
    ensures UndercutInv(s.(sessions := s.sessions + [x]))
  {
    var s' := s.(sessions := s.sessions + [x]);
    forall d, i | 0 <= d < |s'.sessions| && i in s'.dispatched ensures !Undercuts(s'.outbox, s'.sessions[d], i) {
      if d == |s.sessions| {
        NewClaimUndercutsNothing(s, ids, x, i);
      } else {
        assert !Undercuts(s.outbox, s.sessions[d], i);
      }
    }
    forall d, e, k | 0 <= d < |s'.sessions| && 0 <= e < |s'.sessions| && d != e &&
                     s'.sessions[e].live && 0 <= k < |s'.sessions[e].ids|
      ensures !Undercuts(s'.outbox, s'.sessions[d], s'.sessions[e].ids[k])
    {
      if d == |s.sessions| {
        assert s.sessions[e].ids[k] in s.sessions[e].ids;
        assert Locked(s, s.sessions[e].ids[k]);
        NewClaimUndercutsNothing(s, ids, x, s.sessions[e].ids[k]);
      } else if e == |s.sessions| {
        assert !Undercuts(s.outbox, s.sessions[d], ids[k]);
      } else {
        assert !Undercuts(s.outbox, s.sessions[d], s.sessions[e].ids[k]);
      }
    }
  }

  lemma ClaimKeepsOrder<E>(s: State<E>, step: Step<E>, promise: Promise)
    requires DispatchInv(s) && OrderInv(s, promise) && step.Claim? && Enabled(s, step) && Guarded(s, step, promise)
    ensures OrderInv(After(s, step), promise)
  {
    var x := Session(step.ids, 0, false, true, true, false, false);
    assert forall j | 0 <= j < |step.ids| :: Claimable(s, step.ids[j]);
    if !promise.InOrder? {
      ClosedIsCovered(s, step.ids);
      ClaimKeepsPrefix(s, step.ids, x);
    }
    ClaimKeepsOffer(s, step.ids, x);
    if promise.Current? {
      ClaimKeepsUndercut(s, step.ids, x);
    }
  }

  // ---------- Publishing ----------

  lemma CoveredKept<E>(outbox: map<nat, Envelope<E>>, log: seq<Delivery<E>>, log': seq<Delivery<E>>, ids: seq<nat>)
    requires Covered(outbox, log, ids) && log <= log'
    ensures Covered(outbox, log', ids)
  {
    forall i, j | 0 <= j < |ids| && SameStream(outbox, i, ids[j]) && i < ids[j] ensures i in ids || Delivered(log', i) {
      if i !in ids {
        DeliveredKept(log, log', i);
      }
    }
  }

  /** A claim offers its next entry. */
  lemma OfferKeepsInOrder<E>(s: State<E>, x: Session, delivery: Delivery<E>)
    requires OfferedInOrder(s.outbox, s.log)
    requires SessionOk(s.outbox, s.dispatched, x) && PublishedOk(s.log, x) && Covered(s.outbox, s.log, x.ids)
    requires x.published < |x.ids| && delivery.id == x.ids[x.published]
    ensures OfferedInOrder(s.outbox, s.log + [delivery])
  {
    var log' := s.log + [delivery];
    forall p, i: nat | 0 <= p < |log'| && SameStream(s.outbox, i, log'[p].id) && i < log'[p].id
      ensures Delivered(log'[..p], i)
    {
      if p < |s.log| {
        assert log'[..p] == s.log[..p] && log'[p] == s.log[p];
      } else {
        assert log'[..p] == s.log && log'[p] == delivery;
        if i in x.ids {
          var m :| 0 <= m < |x.ids| && x.ids[m] == i;
          assert m < x.published;
        }
      }
    }
  }

  lemma PublishKeepsOffer<E>(s: State<E>, d: nat, x': Session, delivery: Delivery<E>)
    requires Sessions(s) && OfferInv(s) && d < |s.sessions| && s.sessions[d].running && x'.ids == s.sessions[d].ids
    requires s.sessions[d].published < |x'.ids| && delivery.id == x'.ids[s.sessions[d].published]
    ensures OfferInv(SetSession(s, d, x').(log := s.log + [delivery]))
  {
    var s' := SetSession(s, d, x').(log := s.log + [delivery]);
    assert SessionOk(s.outbox, s.dispatched, s.sessions[d]) && PublishedOk(s.log, s.sessions[d]);
    OfferKeepsInOrder(s, s.sessions[d], delivery);
    forall e | 0 <= e < |s'.sessions| && s'.sessions[e].running
      ensures Covered(s'.outbox, s'.log, s'.sessions[e].ids)
    {
      CoveredKept(s.outbox, s.log, s'.log, s.sessions[e].ids);
    }
  }

  lemma PublishKeepsOrder<E>(s: State<E>, step: Step<E>, promise: Promise)
    requires DispatchInv(s) && OrderInv(s, promise) && Enabled(s, step) && (step.Publish? || step.CrashPublishing?)
    ensures OrderInv(After(s, step), promise)
  {
    var s' := After(s, step);
    PublishKeepsOffer(s, step.d, s'.sessions[step.d], Deliver(s, step.d, step.results));
    if !promise.InOrder? {
      assert PrefixInv(s');
    }
    if promise.Current? {
      SessionsKeepUndercut(s, s');
    }
  }

  // ---------- Marking ----------

  lemma MarkKeepsPrefix<E>(s: State<E>, d: nat)
    requires Sessions(s) && PrefixInv(s)
    requires d < |s.sessions| && s.sessions[d].live && s.sessions[d].published <= |s.sessions[d].ids|
    ensures PrefixInv(ApplyMarks(s, d))
  {
    var x := s.sessions[d];
    var s' := ApplyMarks(s, d);
    assert SessionOk(s.outbox, s.dispatched, x) && Closed(s.outbox, s.dispatched, x.ids);
    forall i, j | j in s'.dispatched && SameStream(s.outbox, i, j) && i < j ensures i in s'.dispatched {
      if j !in s.dispatched {
        var m :| 0 <= m < x.published && x.ids[m] == j;
        assert SameStream(s.outbox, i, x.ids[m]);
        if i !in s.dispatched {
          var l :| 0 <= l < |x.ids| && x.ids[l] == i;
          assert l < m && x.ids[..x.published][l] == i;
        }
      }
    }
    forall e | 0 <= e < |s'.sessions| && s'.sessions[e].live
      ensures Closed(s'.outbox, s'.dispatched, s'.sessions[e].ids)
    {
      assert Closed(s.outbox, s.dispatched, s.sessions[e].ids);
    }
  }

  lemma MarkKeepsUndercut<E>(s: State<E>, d: nat)
    requires Sessions(s) && UndercutInv(s)
    requires d < |s.sessions| && s.sessions[d].live && s.sessions[d].published <= |s.sessions[d].ids|
    ensures UndercutInv(ApplyMarks(s, d))
  {
    var x := s.sessions[d];
    var s' := ApplyMarks(s, d);
    forall e, i | 0 <= e < |s'.sessions| && i in s'.dispatched ensures !Undercuts(s'.outbox, s'.sessions[e], i) {
      if e != d {
        assert s'.sessions[e] == s.sessions[e];
        if i !in s.dispatched {
          var j :| 0 <= j < x.published && x.ids[..x.published][j] == i;
          assert !Undercuts(s.outbox, s.sessions[e], s.sessions[d].ids[j]);
        } else {
          assert !Undercuts(s.outbox, s.sessions[e], i);
        }
      }
    }
    forall e, f, k | 0 <= e < |s'.sessions| && 0 <= f < |s'.sessions| && e != f &&
                     s'.sessions[f].live && 0 <= k < |s'.sessions[f].ids|
      ensures !Undercuts(s'.outbox, s'.sessions[e], s'.sessions[f].ids[k])
    {
      assert e != d ==> !Undercuts(s.outbox, s.sessions[e], s.sessions[f].ids[k]);
    }
  }

  lemma MarkKeepsOrder<E>(s: State<E>, d: nat, promise: Promise)
    requires DispatchInv(s) && OrderInv(s, promise)
    requires d < |s.sessions| && s.sessions[d].live && s.sessions[d].published <= |s.sessions[d].ids|
    ensures OrderInv(ApplyMarks(s, d), promise)
  {
    var s' := ApplyMarks(s, d);
    forall e | 0 <= e < |s'.sessions| && s'.sessions[e].running
      ensures Covered(s'.outbox, s'.log, s'.sessions[e].ids)
    {
      assert Covered(s.outbox, s.log, s.sessions[e].ids);
    }
    if !promise.InOrder? {
      MarkKeepsPrefix(s, d);
    }
    if promise.Current? {
      MarkKeepsUndercut(s, d);
    }
  }

  // ---------- Every guarded run ----------

  lemma StepKeepsOrder<E>(s: State<E>, step: Step<E>, promise: Promise)
    requires AppendInv(s) && DispatchInv(s) && OrderInv(s, promise) && Enabled(s, step) && Guarded(s, step, promise)
    ensures OrderInv(After(s, step), promise)
  {
    if step.Claim? {
      ClaimKeepsOrder(s, step, promise);
    } else if step.Publish? || step.CrashPublishing? {
      PublishKeepsOrder(s, step, promise);
    } else if step.CommitClaim? || step.ServerMark? {
      MarkStepKeepsOrder(s, step, promise);
    } else {
      OtherStepKeepsOrder(s, step, promise);
    }
  }

  lemma MarkStepKeepsOrder<E>(s: State<E>, step: Step<E>, promise: Promise)
    requires DispatchInv(s) && OrderInv(s, promise) && Enabled(s, step) && (step.CommitClaim? || step.ServerMark?)
    ensures OrderInv(After(s, step), promise)
  {
    MarkKeepsOrder(s, step.d, promise);
  }

  lemma OtherStepKeepsOrder<E>(s: State<E>, step: Step<E>, promise: Promise)
    requires AppendInv(s) && DispatchInv(s) && OrderInv(s, promise) && Enabled(s, step) && !DispatchStep(step)
    ensures OrderInv(After(s, step), promise)
  {
    OtherStepsAreQuiet(s, step);
    QuietKeepsOrder(s, After(s, step), promise);
  }

  lemma QuietKeepsOrder<E>(s: State<E>, s': State<E>, promise: Promise)
    requires DispatchInv(s) && OrderInv(s, promise) && Quiet(s, s')
    ensures OrderInv(s', promise)
  {
    QuietKeepsOffer(s, s');
    if !promise.InOrder? {
      QuietKeepsPrefix(s, s');
    }
    if promise.Current? {
      forall d | 0 <= d < |s.sessions| ensures Same(s.sessions[d], s'.sessions[d]) {
      }
      SessionsKeepUndercut(s, s');
    }
  }

  lemma {:induction false} GuardedFromKeepsOrder<E>(s: State<E>, steps: seq<Step<E>>, promise: Promise)
    requires AppendInv(s) && DispatchInv(s) && OrderInv(s, promise) && GuardedFrom(s, steps, promise)
    ensures AppendInv(From(s, steps).value) && DispatchInv(From(s, steps).value)
    ensures OrderInv(From(s, steps).value, promise)
  {
    FromKeepsInv(s, steps);
    if steps != [] {
      FromKeepsInv(s, steps[..|steps| - 1]);
      GuardedFromKeepsOrder(s, steps[..|steps| - 1], promise);
      StepKeepsOrder(From(s, steps[..|steps| - 1]).value, steps[|steps| - 1], promise);
    }
  }

  /** Every run from the empty database whose claims are guarded, with any number of dispatchers. */
  lemma GuardedRunKeepsOrder<E>(bus: Bus, steps: seq<Step<E>>, promise: Promise)
    requires GuardedFrom(Init(bus), steps, promise)
    ensures Run(bus, steps) == From(Init(bus), steps)
    ensures AppendInv(Run(bus, steps).value) && DispatchInv(Run(bus, steps).value)
    ensures OrderInv(Run(bus, steps).value, promise)
  {
    RunIsFrom(bus, steps);
    RunKeepsAppendInv<E>(bus, []);
    RunKeepsDispatchInv<E>(bus, []);
    assert Run<E>(bus, []) == Some(Init(bus));
    GuardedFromKeepsOrder(Init(bus), steps, promise);
  }

  // ---------- The guards are exact ----------

  lemma NotDeliveredBefore<E>(log: seq<Delivery<E>>, p: nat, id: nat)
    requires p <= |log| && !Delivered(log, id)
    ensures !Delivered(log[..p], id)
  {
    assert forall q | 0 <= q < p :: log[..p][q] == log[q];
  }

  lemma NotAmongQuiet<E>(s: State<E>, ids: seq<nat>, i: nat)
    requires forall j | 0 <= j < |ids| :: ids[j] in s.outbox
    requires !Delivered(s.log, i) && i !in ids
    ensures !Delivered(s.log + QuietLog(s.outbox, s.bus, ids), i)
  {
    var log' := s.log + QuietLog(s.outbox, s.bus, ids);
    forall p | 0 <= p < |log'| ensures !(log'[p].id == i && log'[p].Ok()) {
      if p < |s.log| {
        assert log'[p] == s.log[p];
      } else {
        assert log'[p].id == ids[p - |s.log|];
      }
    }
  }

  /** Row e is offered when row i has not been delivered. */
  ghost predicate Overtakes<E>(log: seq<Delivery<E>>, e: nat, i: nat) {
    exists p :: 0 <= p < |log| && log[p].id == e && !Delivered(log[..p], i)
  }

  /** A claim that leaves out a row which has not been delivered publishes its entries past it. */
  lemma OffersPast<E>(s: State<E>, batchSize: nat, ids: seq<nat>, m: nat, i: nat)
    returns (steps: seq<Step<E>>, s': State<E>)
    requires ClaimResult(s, batchSize, ids) && m < |ids| && i !in ids && !Delivered(s.log, i)
    ensures From(After(s, Step<E>.Claim(batchSize, ids)), steps) == Some(s')
    ensures forall k | 0 <= k < |steps| :: steps[k].Publish?
    ensures s'.outbox == s.outbox && s'.txs == s.txs && Overtakes(s'.log, ids[m], i)
  {
    steps := PublishAll(s, batchSize, ids, |ids|);
    s' := From(After(s, Step<E>.Claim(batchSize, ids)), steps).value;
    assert ids[..|ids|] == ids;
    var p := |s.log| + m;
    assert s'.log[p] == QuietLog(s.outbox, s.bus, ids)[m];
    NotAmongQuiet(s, ids, i);
    NotDeliveredBefore(s'.log, p, i);
  }

  /** The claim that leaves out a predecessor which has not been delivered overtakes it. */
  lemma UncoveredOvertakes<E>(s: State<E>, batchSize: nat, ids: seq<nat>) returns (steps: seq<Step<E>>)
    requires ClaimResult(s, batchSize, ids) && !Covered(s.outbox, s.log, ids)
    ensures GuardedFrom(After(s, Step<E>.Claim(batchSize, ids)), steps, InOrder)
    ensures var s' := From(After(s, Step<E>.Claim(batchSize, ids)), steps).value; !OfferedInOrder(s'.outbox, s'.log)
  {
    var i, m :| 0 <= m < |ids| && SameStream(s.outbox, i, ids[m]) && i < ids[m] && i !in ids && !Delivered(s.log, i);
    var s';
    steps, s' := OffersPast(s, batchSize, ids, m, i);
    UnclaimingIsGuarded(After(s, Step<E>.Claim(batchSize, ids)), steps, InOrder);
    var p :| 0 <= p < |s'.log| && s'.log[p].id == ids[m] && !Delivered(s'.log[..p], i);
    assert SameStream(s'.outbox, i, s'.log[p].id);
  }

  /** The claim that leaves out a pending predecessor dispatches out of order. */
  lemma UnclosedSkips<E>(s: State<E>, batchSize: nat, ids: seq<nat>) returns (steps: seq<Step<E>>)
    requires DispatchInv(s) && ClaimResult(s, batchSize, ids) && !Closed(s.outbox, s.dispatched, ids)
    ensures GuardedFrom(After(s, Step<E>.Claim(batchSize, ids)), steps, Prefixes)
    ensures var s' := From(After(s, Step<E>.Claim(batchSize, ids)), steps).value;
      !DispatchedPrefix(s'.outbox, s'.dispatched)
  {
    var i, m :| 0 <= m < |ids| && SameStream(s.outbox, i, ids[m]) && i < ids[m] && i !in ids && i !in s.dispatched;
    var s';
    steps, s' := Serve(s, batchSize, ids);
    UnclaimingIsGuarded(After(s, Step<E>.Claim(batchSize, ids)), steps, Prefixes);
    assert SameStream(s'.outbox, i, ids[m]);
  }

  /** The exact condition for overtaking. From a state that guarded claims have led to, a claim keeps every
      continuation with guarded claims from offering an event before its predecessors are delivered, if and
      only if each predecessor that it leaves out has been delivered already. */
  lemma OvertakingCondition<E>(s: State<E>, batchSize: nat, ids: seq<nat>)
    requires AppendInv(s) && DispatchInv(s) && OrderInv(s, InOrder) && ClaimResult(s, batchSize, ids)
    ensures var s' := After(s, Step<E>.Claim(batchSize, ids));
      Covered(s.outbox, s.log, ids) <==>
      forall steps | GuardedFrom(s', steps, InOrder) :: InOrderAfter(s', steps)
  {
    var claim: Step<E> := Claim(batchSize, ids);
    var s' := After(s, claim);
    if Covered(s.outbox, s.log, ids) {
      StepKeepsAppendInv(s, claim);
      StepKeepsDispatchInv(s, claim);
      StepKeepsOrder(s, claim, InOrder);
      forall steps | GuardedFrom(s', steps, InOrder) ensures InOrderAfter(s', steps) {
        GuardedFromKeepsOrder(s', steps, InOrder);
      }
    } else {
      var steps := UncoveredOvertakes(s, batchSize, ids);
      assert !InOrderAfter(s', steps);
    }
  }

  ghost predicate InOrderAfter<E>(s: State<E>, steps: seq<Step<E>>) {
    From(s, steps).Some? && OfferedInOrder(From(s, steps).value.outbox, From(s, steps).value.log)
  }

  ghost predicate PrefixesAfter<E>(s: State<E>, steps: seq<Step<E>>) {
    From(s, steps).Some? && DispatchedPrefix(From(s, steps).value.outbox, From(s, steps).value.dispatched)
  }

  /** The exact condition for dispatching prefixes only: a claim takes every pending predecessor of its rows. */
  lemma PrefixCondition<E>(s: State<E>, batchSize: nat, ids: seq<nat>)
    requires AppendInv(s) && DispatchInv(s) && OrderInv(s, Prefixes) && ClaimResult(s, batchSize, ids)
    ensures var s' := After(s, Step<E>.Claim(batchSize, ids));
      Closed(s.outbox, s.dispatched, ids) <==>
      forall steps | GuardedFrom(s', steps, Prefixes) :: PrefixesAfter(s', steps)
  {
    var claim: Step<E> := Claim(batchSize, ids);
    var s' := After(s, claim);
    if Closed(s.outbox, s.dispatched, ids) {
      StepKeepsAppendInv(s, claim);
      StepKeepsDispatchInv(s, claim);
      StepKeepsOrder(s, claim, Prefixes);
      forall steps | GuardedFrom(s', steps, Prefixes) ensures PrefixesAfter(s', steps) {
        GuardedFromKeepsOrder(s', steps, Prefixes);
      }
    } else {
      var steps := UnclosedSkips(s, batchSize, ids);
      assert !PrefixesAfter(s', steps);
    }
  }

  // ---------- Every state of every guarded run ----------

  /** The log has a successful delivery of this position of the stream. */
  ghost predicate DeliveredAt<E>(log: seq<Delivery<E>>, k: Key) {
    exists p :: 0 <= p < |log| && KeyOf(log[p].env) == k && log[p].Ok()
  }

  /** An event is not offered to the bus before its predecessors in the stream have been published
      successfully. */
  lemma NeverOvertakes<E>(s: State<E>, p: nat, n: nat)
    requires AppendInv(s) && DispatchInv(s) && OfferInv(s) && p < |s.log| && 1 <= n < s.log[p].env.sequence
    ensures DeliveredAt(s.log[..p], Key(s.log[p].env.aggregateId, n))
  {
    var env := s.log[p].env;
    var k := Key(env.aggregateId, n);
    assert KeyOf(env) in s.events && Reached(s.events, KeyOf(env));
    assert HasOutboxRow(s.events, s.outbox, k);
    var i :| i in s.outbox && s.outbox[i] == s.events[k];
    assert KeyOf(s.events[k]) == k;
    assert SameStream(s.outbox, i, s.log[p].id);
    assert Delivered(s.log[..p], i);
    var q :| 0 <= q < p && s.log[..p][q].id == i && s.log[..p][q].Ok();
    assert s.log[q].env == s.outbox[s.log[q].id];
    assert KeyOf(s.log[..p][q].env) == k;
  }

  lemma NotDeliveredEarlier<E>(log: seq<Delivery<E>>, p: nat, k: Key)
    requires p <= |log| && !DeliveredAt(log[..p], k)
    ensures forall q | 0 <= q <= p :: !DeliveredAt(log[..q], k)
  {
    forall q | 0 <= q <= p ensures !DeliveredAt(log[..q], k) {
      assert forall r | 0 <= r < q :: log[..q][r] == log[..p][r];
    }
  }

  /** First successful deliveries run 1, 2, 3, …: when position n of a stream is delivered for the first
      time, exactly the positions 1 .. n - 1 have been delivered before. */
  lemma FirstDeliveriesAreConsecutive<E>(s: State<E>, p: nat, m: nat)
    requires AppendInv(s) && DispatchInv(s) && OfferInv(s) && p < |s.log|
    requires !DeliveredAt(s.log[..p], KeyOf(s.log[p].env))
    ensures DeliveredAt(s.log[..p], Key(s.log[p].env.aggregateId, m)) <==> 1 <= m < s.log[p].env.sequence
  {
    var env := s.log[p].env;
    var k := Key(env.aggregateId, m);
    if 1 <= m < env.sequence {
      NeverOvertakes(s, p, m);
    } else if DeliveredAt(s.log[..p], k) {
      NotDeliveredEarlier(s.log, p, KeyOf(env));
      var q :| 0 <= q < p && KeyOf(s.log[..p][q].env) == k && s.log[..p][q].Ok();
      assert s.log[q] == s.log[..p][q] && s.log[q].id in s.outbox;
      assert s.outbox[s.log[q].id] == s.log[q].env && KeyOf(s.log[q].env) in s.events;
      assert s.outbox[s.log[p].id] == env && KeyOf(env) in s.events;
      if env.sequence < m {
        NeverOvertakes(s, q, env.sequence);
      }
    }
  }

  /** The dispatched rows of a stream are a prefix of it. */
  lemma DispatchedIsPrefix<E>(s: State<E>, i: nat, j: nat)
    requires AppendInv(s) && DispatchInv(s) && PrefixInv(s) && i in s.outbox && j in s.dispatched
    requires s.outbox[i].aggregateId == s.outbox[j].aggregateId && s.outbox[i].sequence <= s.outbox[j].sequence
    ensures i in s.dispatched
  {
    assert SameStream(s.outbox, i, j);
    assert i == j || i < j || j < i;
  }
}
