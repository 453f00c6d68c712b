/** Runs that go on from a given state, and what a dispatcher can always do in them. */
module Continuations {
  import opened Events
  import opened Protocol
  import opened AppendSafety
  import opened DispatchSafety

  /** The state that the steps lead to, or None when one of them is not enabled. */
  ghost function From<E>(s: State<E>, steps: seq<Step<E>>): Option<State<E>> {
    if steps == [] then Some(s)
    else
      var before, step := From(s, steps[..|steps| - 1]), steps[|steps| - 1];
      if before.Some? && Enabled(before.value, step) then Some(After(before.value, step)) else None
  }

  lemma {:induction false} RunIsFrom<E>(bus: Bus, steps: seq<Step<E>>)
    ensures Run(bus, steps) == From(Init(bus), steps)
  {
    if steps != [] {
      RunIsFrom(bus, steps[..|steps| - 1]);
    }
  }

  lemma FromExtends<E>(s: State<E>, steps: seq<Step<E>>, s': State<E>, step: Step<E>) returns (steps': seq<Step<E>>)
    requires From(s, steps) == Some(s') && Enabled(s', step)
    ensures steps' == steps + [step] && From(s, steps') == Some(After(s', step))
  {
    steps' := steps + [step];
    assert steps'[..|steps'| - 1] == steps;
  }

  lemma {:induction false} FromConcat<E>(s: State<E>, first: seq<Step<E>>, second: seq<Step<E>>)
    requires From(s, first).Some?
    ensures From(s, first + second) == From(From(s, first).value, second)
  {
    if second == [] {
      assert first + second == first;
    } else {
      var last := |second| - 1;
      FromConcat(s, first, second[..last]);
      assert (first + second)[..|first + second| - 1] == first + second[..last];
    }
  }

  lemma {:induction false} FromKeepsInv<E>(s: State<E>, steps: seq<Step<E>>)
    requires AppendInv(s) && DispatchInv(s) && From(s, steps).Some?
    ensures AppendInv(From(s, steps).value) && DispatchInv(From(s, steps).value)
  {
    if steps != [] {
      FromKeepsInv(s, steps[..|steps| - 1]);
      StepKeepsAppendInv(From(s, steps[..|steps| - 1]).value, steps[|steps| - 1]);
      StepKeepsDispatchInv(From(s, steps[..|steps| - 1]).value, steps[|steps| - 1]);
    }
  }

  // ---------- Publishing without failures ----------

  function AllNil(n: nat): (r: seq<bool>)
    ensures |r| == n
    ensures forall i | 0 <= i < n :: r[i]
  {
    seq(n, _ => true)
  }

  /** The deliveries of these rows, every handler returning nil. */
  function QuietLog<E>(outbox: map<nat, Envelope<E>>, bus: Bus, ids: seq<nat>): (r: seq<Delivery<E>>)
    requires forall j | 0 <= j < |ids| :: ids[j] in outbox
    ensures |r| == |ids|
    ensures forall j | 0 <= j < |r| :: r[j].id == ids[j] && r[j].Ok()
  {
    seq(|ids|, j requires 0 <= j < |ids| =>
      var env := outbox[ids[j]];
      var handlers := Subscribers(bus, env.eventType);
      Delivery(ids[j], env, handlers, AllNil(|handlers|)))
  }

  /** The session is at work and has more to publish. */
  predicate Publishing(x: Session) {
    x.running && !x.stopped && x.published < |x.ids|
  }

  ghost function PublishNext<E>(s: State<E>, d: nat): Step<E>
    requires CanPublish(s, d)
  {
    Step<E>.Publish(d, AllNil(|Subscribers(s.bus, CurrentEntry(s, d).eventType)|))
  }

  lemma PublishOne<E>(s: State<E>, d: nat)
    requires CanPublish(s, d)
    ensures Enabled(s, PublishNext(s, d))
    ensures var x := s.sessions[d];
      After(s, PublishNext(s, d)) == s.(
        sessions := s.sessions[d := x.(published := x.published + 1)],
        log := s.log + QuietLog(s.outbox, s.bus, [x.ids[x.published]]))
  {
    var step := PublishNext(s, d);
    var delivery := Deliver(s, d, step.results);
    assert delivery.Ok();
    assert QuietLog(s.outbox, s.bus, [s.sessions[d].ids[s.sessions[d].published]]) == [delivery];
  }

  /** The state in which claim d has published up to its n-th entry. */
  function PublishedTo<E>(s: State<E>, d: nat, n: nat): State<E>
    requires d < |s.sessions| && s.sessions[d].published <= n <= |s.sessions[d].ids|
    requires forall j | 0 <= j < |s.sessions[d].ids| :: s.sessions[d].ids[j] in s.outbox
  {
    var x := s.sessions[d];
    s.(sessions := s.sessions[d := x.(published := n)], log := s.log + QuietLog(s.outbox, s.bus, x.ids[x.published..n]))
  }

  lemma {:induction false} PublishOn<E>(s: State<E>, d: nat, n: nat) returns (steps: seq<Step<E>>)
    requires d < |s.sessions| && s.sessions[d].published <= n <= |s.sessions[d].ids|
    requires forall j | 0 <= j < |s.sessions[d].ids| :: s.sessions[d].ids[j] in s.outbox
    requires s.sessions[d].running && !s.sessions[d].stopped
    ensures From(s, steps) == Some(PublishedTo(s, d, n))
    ensures forall i | 0 <= i < |steps| :: steps[i].Publish?
  {
    if n == s.sessions[d].published {
      steps := [];
      NothingPublished(s, d);
    } else {
      steps := PublishOn(s, d, n - 1);
      var s' := PublishedTo(s, d, n - 1);
      assert CanPublish(s', d);
      PublishOne(s', d);
      PublishedNext(s, d, n - 1);
      steps := FromExtends(s, steps, s', PublishNext(s', d));
    }
  }

  lemma NothingPublished<E>(s: State<E>, d: nat)
    requires d < |s.sessions| && s.sessions[d].published <= |s.sessions[d].ids|
    requires forall j | 0 <= j < |s.sessions[d].ids| :: s.sessions[d].ids[j] in s.outbox
    ensures PublishedTo(s, d, s.sessions[d].published) == s
  {
    var x := s.sessions[d];
    assert s.sessions[d := x] == s.sessions;
    assert s.log + QuietLog(s.outbox, s.bus, x.ids[x.published..x.published]) == s.log;
  }

  lemma PublishedNext<E>(s: State<E>, d: nat, n: nat)
    requires d < |s.sessions| && s.sessions[d].published <= n < |s.sessions[d].ids|
    requires forall j | 0 <= j < |s.sessions[d].ids| :: s.sessions[d].ids[j] in s.outbox
    ensures var s', x := PublishedTo(s, d, n), s.sessions[d];
      PublishedTo(s, d, n + 1) == s'.(
        sessions := s'.sessions[d := x.(published := n + 1)],
        log := s'.log + QuietLog(s.outbox, s.bus, [x.ids[n]]))
  {
    var x := s.sessions[d];
    QuietLogSplits(s.outbox, s.bus, x.ids[x.published..n], [x.ids[n]], x.ids[x.published..n + 1]);
    assert s.sessions[d := x.(published := n)][d := x.(published := n + 1)] == s.sessions[d := x.(published := n + 1)];
  }

  lemma QuietLogSplits<E>(outbox: map<nat, Envelope<E>>, bus: Bus, a: seq<nat>, b: seq<nat>, ids: seq<nat>)
    requires ids == a + b && forall j | 0 <= j < |ids| :: ids[j] in outbox
    ensures (forall j | 0 <= j < |a| :: a[j] in outbox) && (forall j | 0 <= j < |b| :: b[j] in outbox)
    ensures QuietLog(outbox, bus, ids) == QuietLog(outbox, bus, a) + QuietLog(outbox, bus, b)
  {
    assert forall j | 0 <= j < |a| :: a[j] == ids[j];
    assert forall j | 0 <= j < |b| :: b[j] == ids[|a| + j];
  }

  /** All entries of a fresh claim published, without failures. */
  lemma PublishAll<E>(s: State<E>, batchSize: nat, ids: seq<nat>, n: nat) returns (steps: seq<Step<E>>)
    requires ClaimResult(s, batchSize, ids) && n <= |ids|
    ensures forall j | 0 <= j < |ids| :: ids[j] in s.outbox
    ensures From(After(s, Step<E>.Claim(batchSize, ids)), steps) ==
      Some(s.(sessions := s.sessions + [Session(ids, n, false, true, true, false, false)],
              log := s.log + QuietLog(s.outbox, s.bus, ids[..n])))
    ensures forall i | 0 <= i < |steps| :: steps[i].Publish?
  {
    var s' := After(s, Step<E>.Claim(batchSize, ids));
    var d := |s.sessions|;
    forall j | 0 <= j < |ids| ensures ids[j] in s.outbox {
      assert Claimable(s, ids[j]);
    }
    steps := PublishOn(s', d, n);
    assert s'.sessions[d := s'.sessions[d].(published := n)] ==
      s.sessions + [Session(ids, n, false, true, true, false, false)];
    assert ids[0..n] == ids[..n];
  }

  /** The state after a claim all of whose entries were published and marked. */
  function Served<E>(s: State<E>, ids: seq<nat>): State<E>
    requires forall j | 0 <= j < |ids| :: ids[j] in s.outbox
  {
    s.(sessions := s.sessions + [Session(ids, |ids|, false, false, false, false, true)],
       log := s.log + QuietLog(s.outbox, s.bus, ids),
       dispatched := s.dispatched + Elements(ids))
  }

  lemma Serve<E>(s: State<E>, batchSize: nat, ids: seq<nat>) returns (steps: seq<Step<E>>, s': State<E>)
    requires ClaimResult(s, batchSize, ids)
    ensures forall j | 0 <= j < |ids| :: ids[j] in s.outbox
    ensures From(After(s, Step<E>.Claim(batchSize, ids)), steps) == Some(s') && s' == Served(s, ids)
    ensures forall i | 0 <= i < |steps| :: steps[i].Publish? || steps[i].CommitClaim?
  {
    var d := |s.sessions|;
    var claimed := After(s, Step<E>.Claim(batchSize, ids));
    steps := PublishAll(s, batchSize, ids, |ids|);
    var published := From(claimed, steps).value;
    assert ids[..|ids|] == ids;
    steps := FromExtends(claimed, steps, published, CommitClaim(d));
    s' := After(published, Step<E>.CommitClaim(d));
    assert s'.sessions == s.sessions + [Session(ids, |ids|, false, false, false, false, true)];
  }

  // ---------- An append of one row, the last one to begin ----------

  lemma HeadCheckAlone<E>(s: State<E>, x: Tx<E>)
    requires x.phase.Begun? && IsHead(s.events, x.stream, x.expected)
    ensures var step := Step<E>.HeadCheck(|s.txs|, x.expected);
      var s1 := s.(txs := s.txs + [x]);
      Enabled(s1, step) && After(s1, step) == s.(txs := s.txs + [x.(phase := Inserting)])
  {
  }

  lemma InsertEventAlone<E>(s: State<E>, x: Tx<E>)
    requires x.phase.Inserting? && x.rows == 0 == |x.ids| && |x.batch| == 1 && KeyOf(x.batch[0]) !in s.events
    requires forall t | 0 <= t < |s.txs| :: !s.txs[t].Holds(KeyOf(x.batch[0]))
    ensures var step := Step<E>.InsertEvent(|s.txs|);
      var s1 := s.(txs := s.txs + [x]);
      Enabled(s1, step) && After(s1, step) == s.(txs := s.txs + [x.(rows := 1)])
  {
  }

  lemma InsertOutboxAlone<E>(s: State<E>, x: Tx<E>)
    requires x.phase.Inserting? && x.rows == 1 && x.ids == []
    ensures var step := Step<E>.InsertOutbox(|s.txs|);
      var s1 := s.(txs := s.txs + [x]);
      Enabled(s1, step) &&
      After(s1, step) == s.(txs := s.txs + [x.(ids := [s.nextId])], nextId := s.nextId + 1)
  {
    var x' := x.(ids := [s.nextId]);
    assert x.ids + [s.nextId] == [s.nextId];
    assert (s.txs + [x])[|s.txs| := x'] == s.txs + [x'];
  }

  lemma CommitAlone<E>(s: State<E>, x: Tx<E>, id: nat)
    requires x.phase.Inserting? && x.rows == 1 == |x.batch| && x.ids == [id]
    ensures var step := Step<E>.CommitAppend(|s.txs|);
      var s1 := s.(txs := s.txs + [x]);
      Enabled(s1, step) &&
      After(s1, step) == s.(txs := s.txs + [x.(phase := Committed(true))],
                              events := s.events[KeyOf(x.batch[0]) := x.batch[0]],
                              outbox := s.outbox[id := x.batch[0]])
  {
    assert InsertRows(s.events, x.batch, 0) == s.events;
    assert InsertOutboxRows(s.outbox, x.ids, x.batch, 0) == s.outbox;
  }
}
