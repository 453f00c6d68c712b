/** The dispatcher's tick and its drain loop, over the store and the bus. */
module Dispatcher {
  import opened Events
  import opened Protocol
  import opened AppendSafety
  import opened DispatchSafety
  import opened Continuations
  import opened DispatchOrder
  import opened Postgres

  // ---------- A tick that nothing disturbs ----------

  /** Claim, publish every entry, commit. */
  ghost function QuietTick<E>(s: State<E>, batchSize: nat): State<E> {
    var ids := FirstPending(s, batchSize);
    if ids == [] then s else Served(s, ids)
  }

  ghost function QuietTicks<E>(s: State<E>, batchSize: nat, k: nat): State<E> {
    if k == 0 then s else QuietTick(QuietTicks(s, batchSize, k - 1), batchSize)
  }

  /** A quiet tick leads from s to s', and fetches n entries. */
  ghost predicate Ticks<E>(s: State<E>, s': State<E>, batchSize: nat, n: nat) {
    s' == QuietTick(s, batchSize) && n == |FirstPending(s, batchSize)|
  }

  /** Quiet ticks lead through these states, and fetch so many entries each. */
  ghost predicate QuietRun<E>(states: seq<State<E>>, batchSize: nat, fetches: seq<nat>) {
    && |states| == |fetches| + 1
    && forall i {:trigger fetches[i]} | 0 <= i < |fetches| :: Ticks(states[i], states[i + 1], batchSize, fetches[i])
  }

  lemma QuietRunExtends<E>(states: seq<State<E>>, s: State<E>, batchSize: nat, fetches: seq<nat>, n: nat)
    requires QuietRun(states, batchSize, fetches) && Ticks(states[|fetches|], s, batchSize, n)
    ensures QuietRun(states + [s], batchSize, fetches + [n])
  {
    var states', fetches' := states + [s], fetches + [n];
    forall i | 0 <= i < |fetches'| ensures Ticks(states'[i], states'[i + 1], batchSize, fetches'[i]) {
      if i < |fetches| {
        TicksAre(states[i], states[i + 1], batchSize, fetches[i], states'[i], states'[i + 1], fetches'[i]);
      } else {
        TicksAre(states[i], s, batchSize, n, states'[i], states'[i + 1], fetches'[i]);
      }
    }
  }

  lemma TicksAre<E>(s: State<E>, s': State<E>, batchSize: nat, n: nat, t: State<E>, t': State<E>, m: nat)
    requires Ticks(s, s', batchSize, n) && t == s && t' == s' && m == n
    ensures Ticks(t, t', batchSize, m)
  {
  }

  lemma {:induction false} QuietRunTicks<E>(states: seq<State<E>>, batchSize: nat, fetches: seq<nat>, k: nat)
    requires QuietRun(states, batchSize, fetches) && k < |states|
    ensures states[k] == QuietTicks(states[0], batchSize, k)
  {
    if k > 0 {
      QuietRunTicks(states, batchSize, fetches, k - 1);
      assert Ticks(states[k - 1], states[k], batchSize, fetches[k - 1]);
    }
  }

  /** A quiet tick under way: n entries of the claim are published. */
  ghost predicate QuietAt<E>(s0: State<E>, s: State<E>, ids: seq<nat>, n: nat) {
    && n <= |ids|
    && (forall j | 0 <= j < |ids| :: ids[j] in s0.outbox)
    && s == s0.(sessions := s0.sessions + [Session(ids, n, false, true, true, false, false)],
                log := s0.log + QuietLog(s0.outbox, s0.bus, ids[..n]))
  }

  lemma QuietPublish<E>(s0: State<E>, s: State<E>, s': State<E>, ids: seq<nat>, n: nat)
    requires QuietAt(s0, s, ids, n) && n < |ids| && PublishedByAll(s, s', |s0.sessions|)
    ensures QuietAt(s0, s', ids, n + 1)
  {
    var d := |s0.sessions|;
    var delivery := Deliver(s, d, AllNil(|Subscribers(s.bus, CurrentEntry(s, d).eventType)|));
    assert delivery.Ok();
    assert ids[..n + 1] == ids[..n] + [ids[n]];
    assert QuietLog(s0.outbox, s0.bus, ids[..n + 1]) == QuietLog(s0.outbox, s0.bus, ids[..n]) + [delivery];
    assert s'.sessions == s0.sessions + [Session(ids, n + 1, false, true, true, false, false)];
    assert s'.log == s0.log + QuietLog(s0.outbox, s0.bus, ids[..n + 1]);
  }

  lemma QuietBegin<E>(s0: State<E>, s: State<E>, batchSize: nat, ids: seq<nat>)
    requires Enabled(s0, Step<E>.Claim(batchSize, ids)) && s == After(s0, Step<E>.Claim(batchSize, ids))
    ensures QuietAt(s0, s, ids, 0)
  {
    assert QuietLog(s0.outbox, s0.bus, ids[..0]) == [];
  }

  lemma QuietEnd<E>(s0: State<E>, s: State<E>, s': State<E>, batchSize: nat, ids: seq<nat>)
    requires QuietAt(s0, s, ids, |ids|) && ids == FirstPending(s0, batchSize) && ids != []
    requires Enabled(s, Step<E>.CommitClaim(|s0.sessions|)) && s' == After(s, Step<E>.CommitClaim(|s0.sessions|))
    ensures s' == QuietTick(s0, batchSize)
  {
    assert ids[..|ids|] == ids;
  }

  function Min(a: nat, b: nat): nat {
    if a <= b then a else b
  }

  // ---------- What the handlers answered ----------

  /** The last Publish was of row id, and some handler's answer is an error. */
  ghost predicate RefusedLast<E>(s: State<E>, id: nat) {
    && s.log != []
    && var last := s.log[|s.log| - 1];
    && last.id == id && |last.results| == |last.handlers|
    && exists j :: 0 <= j < |last.results| && !last.results[j]
  }

  /** All that a claim has published has been answered nil by every handler. */
  lemma PublishedAreAnswered<E>(bus: Bus, steps: seq<Step<E>>, s: State<E>, d: nat, n: nat)
    requires Run(bus, steps) == Some(s) && d < |s.sessions| && s.sessions[d].published == n <= |s.sessions[d].ids|
    ensures forall i | i in s.sessions[d].ids[..n] :: AnsweredNil(s, i)
  {
    RunKeepsDispatchInv(bus, steps);
    var x := s.sessions[d];
    assert PublishedOk(s.log, x);
    forall i | i in x.ids[..n] ensures AnsweredNil(s, i) {
      var j :| 0 <= j < n && x.ids[..n][j] == i;
      assert Delivered(s.log, x.ids[j]);
      DeliveredIsAnswered(s, i);
    }
  }

  /** A claim that its dispatcher has ended. */
  lemma ClaimIsOver<E>(
    bus: Bus, before: seq<Step<E>>, steps: seq<Step<E>>, s: State<E>, d: nat, ids: seq<nat>, n: nat, from: nat,
    batchSize: int)
    requires Run(bus, steps) == Some(s) && before <= steps && FetchedAt(bus, before, from, batchSize, |ids|)
    requires n <= |ids| && Ended(s, d, ids, n, n < |ids|)
    ensures EndSteps(steps, d) == 1 && FetchedAt(bus, steps, from, batchSize, |ids|)
    ensures forall i | i in ids[..n] :: AnsweredNil(s, i)
  {
    EndedOnce(bus, steps, d);
    PublishedAreAnswered(bus, steps, s, d, n);
    FetchedStays(bus, before, steps, from, from, batchSize, |ids|);
  }

  // ---------- How many rows a tick fetches ----------

  /** One of the steps from the `from`-th on is a claim that took n rows: as many as could be claimed then, up to
      batchSize. */
  ghost predicate FetchedAt<E>(bus: Bus, steps: seq<Step<E>>, from: nat, batchSize: int, n: nat) {
    exists m {:trigger steps[m]} :: from <= m < |steps| && FetchStep(bus, steps, m, batchSize, n)
  }

  ghost predicate FetchStep<E>(bus: Bus, steps: seq<Step<E>>, m: nat, batchSize: int, n: nat)
    requires m < |steps|
  {
    && Run(bus, steps[..m]).Some?
    && steps[m].Claim? && steps[m].batchSize == batchSize && |steps[m].ids| == n
    && n == Min(steps[m].batchSize, |FreeRows(Run(bus, steps[..m]).value)|)
  }

  lemma ClaimIsFetch<E>(bus: Bus, steps: seq<Step<E>>, from: nat, batchSize: int, ids: seq<nat>)
    requires from < |steps| && ClaimedFirst(bus, steps, batchSize, ids)
    ensures FetchedAt(bus, steps, from, batchSize, |ids|)
  {
    var m := |steps| - 1;
    FirstClaimSize(Run(bus, steps[..m]).value, batchSize, ids);
    assert FetchStep(bus, steps, m, batchSize, |ids|);
  }

  lemma FetchedStays<E>(
    bus: Bus, steps: seq<Step<E>>, steps': seq<Step<E>>, from: nat, from': nat, batchSize: int, n: nat)
    requires FetchedAt(bus, steps, from, batchSize, n) && steps <= steps' && from' <= from
    ensures FetchedAt(bus, steps', from', batchSize, n)
  {
    var m :| from <= m < |steps| && FetchStep(bus, steps, m, batchSize, n);
    assert steps'[..m] == steps[..m] && steps'[m] == steps[m];
    assert FetchStep(bus, steps', m, batchSize, n);
  }

  lemma FetchesStay<E>(
    bus: Bus, steps: seq<Step<E>>, steps': seq<Step<E>>, from: nat, batchSize: int, fetches: seq<nat>)
    requires steps <= steps'
    requires forall i | 0 <= i < |fetches| && fetches[i] > 0 :: FetchedAt(bus, steps, from, batchSize, fetches[i])
    ensures forall i | 0 <= i < |fetches| && fetches[i] > 0 :: FetchedAt(bus, steps', from, batchSize, fetches[i])
  {
    forall i | 0 <= i < |fetches| && fetches[i] > 0 ensures FetchedAt(bus, steps', from, batchSize, fetches[i]) {
      FetchedStays(bus, steps, steps', from, from, batchSize, fetches[i]);
    }
  }

  // ---------- The dispatcher ----------

  class Dispatcher<E> {
    const store: Store<E>
    const batchSize: int
    const pollInterval: nat
    /** How often onError was called. */
    var reported: nat

    constructor (store: Store<E>, batchSize: int, pollInterval: nat)
      ensures this.store == store && this.batchSize == batchSize && this.pollInterval == pollInterval
      ensures reported == 0
    {
      this.store := store;
      this.batchSize := batchSize;
      this.pollInterval := pollInterval;
      reported := 0;
    }

    method Report(failed: bool)
      modifies this
      ensures reported == old(reported) + if failed then 1 else 0
    {
      if failed {
        reported := reported + 1;
      }
    }

    /** Publishes entries in order up to the first failure. */
    method PublishAll(d: nat, entries: seq<OutboxEntry<E>>, ghost s0: State<E>) returns (delivered: seq<nat>)
      requires store.Valid() && Working(store.s, d, Ids(entries), 0, false)
      requires store.calm ==> d == |s0.sessions| && QuietAt(s0, store.s, Ids(entries), 0)
      modifies this, store
      ensures store.Valid() && old(store.steps) <= store.steps
      ensures |delivered| <= |entries| && delivered == Ids(entries)[..|delivered|]
      ensures Working(store.s, d, Ids(entries), |delivered|, |delivered| < |entries|)
      ensures reported == old(reported) + if |delivered| < |entries| then 1 else 0
      ensures forall i | i in delivered :: AnsweredNil(store.s, i)
      ensures |delivered| < |entries| ==> RefusedLast(store.s, entries[|delivered|].id)
      ensures store.calm ==> |delivered| == |entries| && QuietAt(s0, store.s, Ids(entries), |entries|)
    {
      ghost var ids := Ids(entries);
      delivered := [];
      for n := 0 to |entries|
        invariant store.Valid() && old(store.steps) <= store.steps
        invariant |delivered| == n && delivered == ids[..n]
        invariant Working(store.s, d, ids, n, false) && reported == old(reported)
        invariant store.calm ==> QuietAt(s0, store.s, ids, n)
      {
        ghost var before := store.s;
        var ok := store.Publish(d, entries[n], ids, n);
        if store.calm {
          QuietPublish(s0, before, store.s, ids, n);
        }
        Report(!ok);
        if !ok {
          PublishedAreAnswered(store.bus, store.steps, store.s, d, n);
          return;
        }
        delivered := delivered + [entries[n].id];
        assert ids[..n + 1] == ids[..n] + [ids[n]];
      }
      PublishedAreAnswered(store.bus, store.steps, store.s, d, |entries|);
    }

    /** Release if nothing got through, commit what did otherwise. */
    method EndClaim(d: nat, delivered: seq<nat>, ghost ids: seq<nat>, ghost stopped: bool) returns (r: Result<()>)
      requires store.Valid() && Working(store.s, d, ids, |delivered|, stopped)
      requires |delivered| <= |ids| && delivered == ids[..|delivered|]
      modifies store
      ensures store.Valid() && old(store.steps) <= store.steps
      ensures Ended(store.s, d, ids, |delivered|, stopped)
      ensures r.Ok? ==>
        MarkedExactly(store.s, ids, |delivered|) && (store.s.sessions[d].marked <==> |delivered| > 0)
      ensures store.calm && delivered != [] && old(store.s.sessions[d]).live ==>
        && r.Ok? && Enabled(old(store.s), Step<E>.CommitClaim(d))
        && store.s == After(old(store.s), Step<E>.CommitClaim(d))
    {
      if |delivered| == 0 {
        r := store.Release(d, ids, 0, stopped);
      } else {
        r := store.Commit(d, delivered, ids, |delivered|, stopped);
      }
    }

    /** One batch. A tick that has fetched entries has ended its claim exactly once. It has published a
        prefix of them, and exactly this prefix is dispatched unless the commit or the release reported an
        error; when nothing was reported, every fetched entry is dispatched. */
    method Tick() returns (fetched: nat, ghost d: nat, ghost ids: seq<nat>, ghost n: nat)
      requires store.Valid()
      modifies this, store
      ensures store.Valid() && old(store.steps) <= store.steps
      ensures fetched == |ids| && (batchSize <= 0 ==> fetched == 0) && (fetched > 0 ==> fetched <= batchSize)
      ensures fetched > 0 ==>
        && n <= |ids| && Ended(store.s, d, ids, n, n < |ids|)
        && |old(store.s.sessions)| <= d && EndSteps(store.steps, d) == 1
      ensures fetched > 0 && reported == old(reported) + (if n < |ids| then 1 else 0) ==>
        MarkedExactly(store.s, ids, n) && (store.s.sessions[d].marked <==> n > 0)
      ensures fetched > 0 && reported == old(reported) ==> n == |ids| && MarkedExactly(store.s, ids, n)
      ensures fetched > 0 ==> forall i | i in ids[..n] :: AnsweredNil(store.s, i)
      ensures fetched > 0 ==> FetchedAt(store.bus, store.steps, |old(store.steps)|, batchSize, fetched)
      ensures fetched == 0 && batchSize > 0 && reported == old(reported) ==> FirstPending(store.s, batchSize) == []
      ensures store.calm && batchSize >= 0 ==>
        fetched == |FirstPending(old(store.s), batchSize)| && store.s == QuietTick(old(store.s), batchSize)
    {
      fetched, d, ids, n := 0, 0, [], 0;
      ghost var s0 := store.s;
      var claim, entries := store.Claim(batchSize);
      if claim.Err? {
        Report(true);
        return;
      }
      if claim.value.None? {
        return;
      }
      var session := claim.value.value;
      d, ids := session, Ids(entries);
      ghost var steps := store.steps;
      ClaimIsFetch(store.bus, steps, |old(store.steps)|, batchSize, ids);
      if store.calm {
        QuietBegin(s0, store.s, batchSize, ids);
      }
      var delivered := PublishAll(session, entries, s0);
      n := |delivered|;
      ghost var s1 := store.s;
      var ended := EndClaim(session, delivered, ids, |delivered| < |entries|);
      if store.calm {
        QuietEnd(s0, s1, store.s, batchSize, ids);
      }
      Report(ended.Err?);
      fetched := |entries|;
      ClaimIsOver(store.bus, steps, store.steps, store.s, d, ids, n, |old(store.steps)|, batchSize);
    }

    /** Run, cancelled after some number of timer firings: what each tick fetched, and how long the timer
        was set to wait after it. There is no wait exactly after a full batch, whether or not publishing it
        succeeded; so with a batch size of zero there is never one. */
    method Run(firings: nat) returns (fetches: seq<nat>, waits: seq<nat>)
      requires store.Valid()
      modifies this, store
      ensures store.Valid() && old(store.steps) <= store.steps
      ensures |fetches| == |waits| == firings
      ensures forall i | 0 <= i < firings :: waits[i] == if fetches[i] == batchSize then 0 else pollInterval
      ensures batchSize == 0 ==> forall i | 0 <= i < firings :: waits[i] == 0
      ensures forall i | 0 <= i < firings && fetches[i] > 0 ::
        FetchedAt(store.bus, store.steps, |old(store.steps)|, batchSize, fetches[i])
      ensures store.calm && batchSize >= 0 ==> store.s == QuietTicks(old(store.s), batchSize, firings)
      ensures store.calm && batchSize > 0 && Idle(old(store.s)) ==>
        && (Pending(store.s) == [] <==> firings * batchSize >= |Pending(old(store.s))|)
        && forall i | 0 <= i < firings ::
             waits[i] == if (i + 1) * batchSize <= |Pending(old(store.s))| then 0 else pollInterval
    {
      fetches, waits := [], [];
      ghost var states, steps0 := [store.s], store.steps;
      for i := 0 to firings
        invariant store.Valid() && old(store.steps) <= store.steps
        invariant |fetches| == |waits| == i
        invariant forall j | 0 <= j < i :: waits[j] == if fetches[j] == batchSize then 0 else pollInterval
        invariant batchSize == 0 ==> forall j | 0 <= j < i :: fetches[j] == 0
        invariant forall j | 0 <= j < i && fetches[j] > 0 ::
          FetchedAt(store.bus, store.steps, |old(store.steps)|, batchSize, fetches[j])
        invariant |states| == i + 1 && states[0] == old(store.s) && states[i] == store.s
        invariant store.calm && batchSize >= 0 ==> QuietRun(states, batchSize, fetches)
      {
        ghost var steps := store.steps;
        var fetched, d, ids, n := Tick();
        FetchesStay(store.bus, steps, store.steps, |steps0|, batchSize, fetches);
        if fetched > 0 {
          FetchedStays(store.bus, store.steps, store.steps, |steps|, |steps0|, batchSize, fetched);
        }
        var wait := pollInterval;
        if fetched == batchSize {
          wait := 0;
        }
        if store.calm && batchSize >= 0 {
          QuietRunExtends(states, store.s, batchSize, fetches, fetched);
        }
        states := states + [store.s];
        fetches := fetches + [fetched];
        waits := waits + [wait];
      }
      if store.calm && batchSize >= 0 {
        QuietRunTicks(states, batchSize, fetches, firings);
        if batchSize > 0 && Idle(states[0]) {
          RunDrains(store.bus, steps0, states, batchSize, fetches);
        }
      }
    }
  }

  // ---------- Draining ----------

  /** Of an ascending sequence, all but the last element. */
  lemma AllButLast(a: seq<nat>, i: nat)
    requires Ascending(a) && a != []
    ensures Ascending(a[..|a| - 1])
    ensures i in a ==> i <= a[|a| - 1]
    ensures i in a[..|a| - 1] <==> i in a && i != a[|a| - 1]
  {
    assert a == a[..|a| - 1] + [a[|a| - 1]];
  }

  lemma {:induction false} AscendingIsUnique(a: seq<nat>, b: seq<nat>)
    requires Ascending(a) && Ascending(b) && forall i: nat :: i in a <==> i in b
    ensures a == b
  {
    assert |a| > 0 ==> a[0] in b;
    assert |b| > 0 ==> b[0] in a;
    if a != [] && b != [] {
      var a', b', x, y := a[..|a| - 1], b[..|b| - 1], a[|a| - 1], b[|b| - 1];
      AllButLast(b, x);
      AllButLast(a, y);
      forall i: nat ensures i in a' <==> i in b' {
        AllButLast(a, i);
        AllButLast(b, i);
      }
      AscendingIsUnique(a', b');
      assert a == a' + [x] && b == b' + [y];
    }
  }

  /** Marking the claimed rows makes exactly these unclaimable. */
  lemma QuietTickMarks<E>(s: State<E>, batchSize: nat)
    requires Tables(s) && Idle(s)
    ensures var s' := QuietTick(s, batchSize);
      && Tables(s') && Idle(s')
      && forall i: nat :: Claimable(s', i) <==> Claimable(s, i) && i !in FirstPending(s, batchSize)
  {
    var s' := QuietTick(s, batchSize);
    forall i: nat ensures !Locked(s, i) && !Locked(s', i) {
      assert forall d | 0 <= d < |s'.sessions| :: !s'.sessions[d].live;
    }
  }

  lemma PendingAfter<E>(s: State<E>, s': State<E>, n: nat)
    requires s'.nextId == s.nextId && n <= |Pending(s)|
    requires forall i: nat | Claimable(s, i) || Claimable(s', i) :: i < s.nextId
    requires forall i: nat :: Claimable(s', i) <==> Claimable(s, i) && i !in Pending(s)[..n]
    ensures Pending(s') == Pending(s)[n..]
  {
    var p, p' := Pending(s), Pending(s');
    PendingFromIsComplete(s, 0);
    PendingFromIsComplete(s', 0);
    var taken, rest := p[..n], p[n..];
    assert p == taken + rest;
    forall i: nat ensures i in p' <==> i in rest {
      assert i in p <==> Claimable(s, i);
      assert i in p' <==> Claimable(s', i);
      assert i in p <==> i in taken || i in rest;
      assert !(i in taken && i in rest);
    }
    AscendingIsUnique(p', rest);
  }

  /** A quiet tick removes exactly the rows it claimed from the pending ones. */
  lemma QuietTickDrains<E>(s: State<E>, batchSize: nat)
    requires Tables(s) && Idle(s)
    ensures var s' := QuietTick(s, batchSize);
      Tables(s') && Idle(s') && Pending(s') == Pending(s)[|FirstPending(s, batchSize)|..]
  {
    QuietTickMarks(s, batchSize);
    var n := |FirstPending(s, batchSize)|;
    assert FirstPending(s, batchSize) == Pending(s)[..n];
    PendingAfter(s, QuietTick(s, batchSize), n);
  }

  /** Of the pending rows of s, the first n have been published once each, in id order, and are dispatched;
      the others are still pending. */
  ghost predicate Drained<E>(s: State<E>, s': State<E>, n: nat) {
    && Tables(s') && Idle(s') && s'.outbox == s.outbox && s'.bus == s.bus
    && n <= |Pending(s)|
    && Pending(s') == Pending(s)[n..]
    && s'.log == s.log + QuietLog(s.outbox, s.bus, Pending(s)[..n])
    && s'.dispatched == s.dispatched + Elements(Pending(s)[..n])
  }

  lemma QuietTickEffect<E>(s: State<E>, batchSize: nat)
    ensures var s', ids := QuietTick(s, batchSize), FirstPending(s, batchSize);
      && s'.outbox == s.outbox && s'.bus == s.bus
      && s'.log == s.log + QuietLog(s.outbox, s.bus, ids)
      && s'.dispatched == s.dispatched + Elements(ids)
  {
    if FirstPending(s, batchSize) == [] {
      assert s.dispatched + Elements([]) == s.dispatched;
    }
  }

  lemma DrainsMore<E>(s: State<E>, s': State<E>, s'': State<E>, m: nat, n: nat, ids: seq<nat>)
    requires Drained(s, s', m) && m <= n <= |Pending(s)| && ids == Pending(s)[m..n]
    requires Tables(s'') && Idle(s'') && s''.outbox == s'.outbox && s''.bus == s'.bus
    requires Pending(s'') == Pending(s')[|ids|..]
    requires s''.log == s'.log + QuietLog(s'.outbox, s'.bus, ids)
    requires s''.dispatched == s'.dispatched + Elements(ids)
    ensures Drained(s, s'', n)
  {
    var p := Pending(s);
    Slices(p, m, n);
    QuietLogGrows(s.log, s.outbox, s.bus, p[..m], ids, p[..n]);
    ElementsSplit(p[..m], ids);
  }

  lemma QuietLogGrows<E>(
    log: seq<Delivery<E>>, outbox: map<nat, Envelope<E>>, bus: Bus, a: seq<nat>, b: seq<nat>, ids: seq<nat>)
    requires ids == a + b && forall j | 0 <= j < |ids| :: ids[j] in outbox
    ensures (forall j | 0 <= j < |a| :: a[j] in outbox) && (forall j | 0 <= j < |b| :: b[j] in outbox)
    ensures log + QuietLog(outbox, bus, a) + QuietLog(outbox, bus, b) == log + QuietLog(outbox, bus, ids)
  {
    QuietLogSplits(outbox, bus, a, b, ids);
  }

  lemma Slices(p: seq<nat>, m: nat, n: nat)
    requires m <= n <= |p|
    ensures p[..n] == p[..m] + p[m..n] && p[m..][|p[m..n]|..] == p[n..]
  {
  }

  lemma ElementsSplit(a: seq<nat>, b: seq<nat>)
    ensures Elements(a + b) == Elements(a) + Elements(b)
  {
  }

  lemma FirstOf(p: seq<nat>, m: nat, batchSize: nat)
    requires m <= |p|
    ensures var rest, n := p[m..], Min(m + batchSize, |p|);
      (if |rest| <= batchSize then rest else rest[..batchSize]) == p[m..n]
  {
  }

  lemma QuietTickDrainsMore<E>(s: State<E>, s': State<E>, batchSize: nat, m: nat)
    requires Drained(s, s', m)
    ensures Drained(s, QuietTick(s', batchSize), Min(m + batchSize, |Pending(s)|))
  {
    QuietTickDrains(s', batchSize);
    QuietTickEffect(s', batchSize);
    var n, ids := Min(m + batchSize, |Pending(s)|), FirstPending(s', batchSize);
    FirstOf(Pending(s), m, batchSize);
    DrainsMore(s, s', QuietTick(s', batchSize), m, n, ids);
  }

  lemma NothingDrained<E>(s: State<E>)
    requires Tables(s) && Idle(s)
    ensures Drained(s, s, 0)
  {
    assert QuietLog(s.outbox, s.bus, Pending(s)[..0]) == [];
    assert Elements(Pending(s)[..0]) == {};
  }

  lemma NextBatch(k: nat, batchSize: nat, n: nat)
    requires k > 0
    ensures Min(k * batchSize, n) == Min(Min((k - 1) * batchSize, n) + batchSize, n)
  {
    assert k * batchSize == (k - 1) * batchSize + batchSize;
  }

  /** k quiet ticks drain the first k * batchSize pending rows. */
  lemma {:induction false} QuietTicksDrain<E>(s: State<E>, batchSize: nat, k: nat)
    requires Tables(s) && Idle(s) && batchSize > 0
    ensures Drained(s, QuietTicks(s, batchSize, k), Min(k * batchSize, |Pending(s)|))
  {
    if k == 0 {
      NothingDrained(s);
    } else {
      QuietTicksDrain(s, batchSize, k - 1);
      NextTickDrains(s, QuietTicks(s, batchSize, k - 1), batchSize, k, |Pending(s)|);
    }
  }

  lemma NextTickDrains<E>(s: State<E>, s': State<E>, batchSize: nat, k: nat, n: nat)
    requires k > 0 && n == |Pending(s)| && Drained(s, s', Min((k - 1) * batchSize, n))
    ensures Drained(s, QuietTick(s', batchSize), Min(k * batchSize, n))
  {
    QuietTickDrainsMore(s, s', batchSize, Min((k - 1) * batchSize, n));
    NextBatch(k, batchSize, n);
  }

  /** Draining ends: with one dispatcher, no failures and no new appends, k ticks empty the outbox if and
      only if k * batchSize is at least the number of pending rows. The timer does not wait after the tick
      that follows k others exactly if a full batch was left. */
  lemma Drains<E>(s: State<E>, batchSize: nat, k: nat)
    requires Tables(s) && Idle(s) && batchSize > 0
    ensures Pending(QuietTicks(s, batchSize, k)) == [] <==> k * batchSize >= |Pending(s)|
    ensures |FirstPending(QuietTicks(s, batchSize, k), batchSize)| == batchSize <==>
            (k + 1) * batchSize <= |Pending(s)|
  {
    QuietTicksDrain(s, batchSize, k);
    assert (k + 1) * batchSize == k * batchSize + batchSize;
  }

  /** What a run of quiet ticks fetched, from a state that the protocol has reached with no claim open. */
  lemma RunDrains<E>(bus: Bus, steps: seq<Step<E>>, states: seq<State<E>>, batchSize: nat, fetches: seq<nat>)
    requires QuietRun(states, batchSize, fetches) && batchSize > 0
    requires Run(bus, steps) == Some(states[0]) && Idle(states[0])
    ensures Pending(states[|fetches|]) == [] <==> |fetches| * batchSize >= |Pending(states[0])|
    ensures forall i | 0 <= i < |fetches| :: fetches[i] == batchSize <==> (i + 1) * batchSize <= |Pending(states[0])|
  {
    RunKeepsAppendInv(bus, steps);
    QuietRunTicks(states, batchSize, fetches, |fetches|);
    Drains(states[0], batchSize, |fetches|);
    forall i | 0 <= i < |fetches| ensures fetches[i] == batchSize <==> (i + 1) * batchSize <= |Pending(states[0])| {
      QuietRunTicks(states, batchSize, fetches, i);
      assert Ticks(states[i], states[i + 1], batchSize, fetches[i]);
      Drains(states[0], batchSize, i);
    }
  }
}
