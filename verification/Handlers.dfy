/** What a handler has seen last, with any number of dispatchers whose claims are guarded. */
module Handlers {
  import opened Events
  import opened Protocol
  import opened AppendSafety
  import opened DispatchSafety
  import opened Continuations
  import opened DispatchOrder

  /** For each stream, the sequence of the last delivery that ran handler h. */
  ghost function LastSeen<E>(log: seq<Delivery<E>>, h: nat): map<Uuid, nat> {
    if log == [] then map[]
    else
      var before, last := LastSeen(log[..|log| - 1], h), log[|log| - 1];
      if last.Ran(h) then before[last.env.aggregateId := last.env.sequence] else before
  }

  /** Handler h has seen the row or a later one last. */
  ghost predicate SeenFrom<E>(outbox: map<nat, Envelope<E>>, log: seq<Delivery<E>>, h: nat, id: nat) {
    id in outbox && outbox[id].aggregateId in LastSeen(log, h) &&
    LastSeen(log, h)[outbox[id].aggregateId] >= outbox[id].sequence
  }

  /** Subscriptions: a new handler comes last among those of its type, and nothing else changes them. */
  lemma StepSubscribes<E>(s: State<E>, step: Step<E>, eventType: string)
    requires Enabled(s, step)
    ensures var s' := After(s, step);
      var before := if eventType in s.bus then s.bus[eventType] else [];
      var after := if eventType in s'.bus then s'.bus[eventType] else [];
      after == before + if step.Subscribe? && step.eventType == eventType then [step.handler] else []
  {
  }

  /** Handler h is subscribed to every type of event that is stored. */
  ghost predicate Subscribed<E>(s: State<E>, h: nat) {
    forall i | i in s.outbox :: h in Subscribers(s.bus, s.outbox[i].eventType)
  }

  /** The handler never falls behind what is dispatched, nor behind what an open transaction may mark. */
  ghost predicate SeenInv<E>(s: State<E>, h: nat) {
    && (forall i {:trigger SeenFrom(s.outbox, s.log, h, i)} | i in s.dispatched :: SeenFrom(s.outbox, s.log, h, i))
    && (forall d | 0 <= d < |s.sessions| && s.sessions[d].live :: PublishedSeen(s.outbox, s.log, h, s.sessions[d]))
  }

  ghost predicate PublishedSeen<E>(outbox: map<nat, Envelope<E>>, log: seq<Delivery<E>>, h: nat, x: Session) {
    forall j {:trigger SeenFrom(outbox, log, h, x.ids[j])} | 0 <= j < x.published && j < |x.ids| ::
      SeenFrom(outbox, log, h, x.ids[j])
  }

  lemma LastSeenExtend<E>(log: seq<Delivery<E>>, delivery: Delivery<E>, h: nat)
    ensures LastSeen(log + [delivery], h) ==
      if delivery.Ran(h) then LastSeen(log, h)[delivery.env.aggregateId := delivery.env.sequence] else LastSeen(log, h)
  {
    assert (log + [delivery])[..|log|] == log;
  }

  /** Offering a row keeps what the handler has seen of a row that the offered one does not come before. */
  lemma OfferKeepsSeen<E>(s: State<E>, delivery: Delivery<E>, h: nat, i: nat)
    requires OutboxOk(s.events, s.outbox) && delivery.id in s.outbox && delivery.env == s.outbox[delivery.id]
    requires SeenFrom(s.outbox, s.log, h, i)
    requires !(SameStream(s.outbox, delivery.id, i) && delivery.id < i)
    ensures SeenFrom(s.outbox, s.log + [delivery], h, i)
  {
    LastSeenExtend(s.log, delivery, h);
    assert i == delivery.id || i < delivery.id || delivery.id < i;
  }

  /** An open transaction has published the row. */
  ghost predicate MayMark(sessions: seq<Session>, i: nat) {
    exists e, k :: 0 <= e < |sessions| && sessions[e].live &&
                   0 <= k < |sessions[e].ids| && k < sessions[e].published && sessions[e].ids[k] == i
  }

  /** The next entry of a session at work comes before no row that is dispatched, and before none that an open
      transaction has published. */
  lemma NextComesLast<E>(s: State<E>, d: nat, i: nat)
    requires Sessions(s) && UndercutInv(s) && d < |s.sessions| && Publishing(s.sessions[d])
    requires i in s.dispatched || MayMark(s.sessions, i)
    ensures var next := s.sessions[d].ids[s.sessions[d].published];
      !(SameStream(s.outbox, next, i) && next < i)
  {
    var x := s.sessions[d];
    assert SessionOk(s.outbox, s.dispatched, x);
    var next := x.ids[x.published];
    assert SameStream(s.outbox, next, i) && next < i ==> Undercuts(s.outbox, x, i);
    if i in s.dispatched {
      assert !Undercuts(s.outbox, s.sessions[d], i);
    } else {
      var e, k :| 0 <= e < |s.sessions| && s.sessions[e].live &&
                  0 <= k < |s.sessions[e].ids| && k < s.sessions[e].published && s.sessions[e].ids[k] == i;
      if e == d {
        assert i < next;
      } else {
        assert !Undercuts(s.outbox, s.sessions[d], s.sessions[e].ids[k]);
      }
    }
  }

  lemma DeliveryKeepsSeen<E>(s: State<E>, d: nat, x': Session, delivery: Delivery<E>, h: nat)
    requires AppendInv(s) && DispatchInv(s) && UndercutInv(s) && SeenInv(s, h)
    requires d < |s.sessions| && Publishing(s.sessions[d])
    requires delivery.id == s.sessions[d].ids[s.sessions[d].published]
    requires delivery.id in s.outbox && delivery.env == s.outbox[delivery.id]
    requires x'.ids == s.sessions[d].ids && (x'.live ==> s.sessions[d].live)
    requires x'.published == s.sessions[d].published || (x'.published == s.sessions[d].published + 1 && delivery.Ran(h))
    ensures SeenInv(SetSession(s, d, x').(log := s.log + [delivery]), h)
  {
    var s' := SetSession(s, d, x').(log := s.log + [delivery]);
    forall i | i in s.dispatched ensures SeenFrom(s.outbox, s'.log, h, i) {
      assert SeenFrom(s.outbox, s.log, h, i);
      NextComesLast(s, d, i);
      OfferKeepsSeen(s, delivery, h, i);
    }
    forall e | 0 <= e < |s'.sessions| && s'.sessions[e].live
      ensures PublishedSeen(s.outbox, s'.log, h, s'.sessions[e])
    {
      var y := s.sessions[e];
      forall k | 0 <= k < s'.sessions[e].published && k < |y.ids| ensures SeenFrom(s.outbox, s'.log, h, y.ids[k]) {
        if k < y.published {
          assert PublishedSeen(s.outbox, s.log, h, y) && SeenFrom(s.outbox, s.log, h, y.ids[k]);
          assert MayMark(s.sessions, y.ids[k]);
          NextComesLast(s, d, y.ids[k]);
          OfferKeepsSeen(s, delivery, h, y.ids[k]);
        } else {
          LastSeenExtend(s.log, delivery, h);
        }
      }
    }
  }

  lemma PublishKeepsSeen<E>(s: State<E>, step: Step<E>, h: nat)
    requires AppendInv(s) && DispatchInv(s) && UndercutInv(s) && SeenInv(s, h) && Subscribed(s, h)
    requires Enabled(s, step) && (step.Publish? || step.CrashPublishing?)
    ensures SeenInv(After(s, step), h)
  {
    var delivery := Deliver(s, step.d, step.results);
    assert delivery.Ok() ==> delivery.Ran(h);
    DeliveryKeepsSeen(s, step.d, After(s, step).sessions[step.d], delivery, h);
  }

  lemma MarkKeepsSeen<E>(s: State<E>, d: nat, h: nat)
    requires DispatchInv(s) && SeenInv(s, h)
    requires d < |s.sessions| && s.sessions[d].live && s.sessions[d].published <= |s.sessions[d].ids|
    ensures SeenInv(ApplyMarks(s, d), h)
  {
    var x := s.sessions[d];
    var s' := ApplyMarks(s, d);
    forall i | i in s'.dispatched ensures SeenFrom(s.outbox, s.log, h, i) {
      if i !in s.dispatched {
        var j :| 0 <= j < x.published && x.ids[..x.published][j] == i;
        assert PublishedSeen(s.outbox, s.log, h, x) && SeenFrom(s.outbox, s.log, h, x.ids[j]);
      } else {
        assert SeenFrom(s.outbox, s.log, h, i);
      }
    }
  }

  /** A handler that is subscribed to all stored types never falls behind what is dispatched. */
  lemma StepKeepsSeen<E>(s: State<E>, step: Step<E>, h: nat)
    requires AppendInv(s) && DispatchInv(s) && OrderInv(s, Current) && SeenInv(s, h) && Subscribed(s, h)
    requires Enabled(s, step)
    ensures SeenInv(After(s, step), h)
  {
    if step.Publish? || step.CrashPublishing? {
      PublishKeepsSeen(s, step, h);
    } else if step.CommitClaim? || step.ServerMark? {
      MarkStepKeepsSeen(s, step, h);
    } else {
      OtherStepKeepsSeen(s, step, h);
    }
  }

  lemma MarkStepKeepsSeen<E>(s: State<E>, step: Step<E>, h: nat)
    requires DispatchInv(s) && SeenInv(s, h) && Enabled(s, step) && (step.CommitClaim? || step.ServerMark?)
    ensures SeenInv(After(s, step), h)
  {
    MarkKeepsSeen(s, step.d, h);
  }

  lemma OtherStepKeepsSeen<E>(s: State<E>, step: Step<E>, h: nat)
    requires AppendInv(s) && SeenInv(s, h) && Enabled(s, step) && (step.Claim? || !DispatchStep(step))
    ensures SeenInv(After(s, step), h)
  {
    if !step.Claim? {
      OtherStepsAreQuiet(s, step);
      QuietKeepsSeen(s, After(s, step), h);
    }
  }

  lemma QuietKeepsSeen<E>(s: State<E>, s': State<E>, h: nat)
    requires SeenInv(s, h) && Quiet(s, s')
    ensures SeenInv(s', h)
  {
    forall i | i in s'.dispatched ensures SeenFrom(s'.outbox, s'.log, h, i) {
      assert SeenFrom(s.outbox, s.log, h, i);
    }
    forall d | 0 <= d < |s'.sessions| && s'.sessions[d].live
      ensures PublishedSeen(s'.outbox, s'.log, h, s'.sessions[d])
    {
      var x := s.sessions[d];
      assert Same(x, s'.sessions[d]);
      forall j | 0 <= j < x.published && j < |x.ids| ensures SeenFrom(s'.outbox, s'.log, h, x.ids[j]) {
        assert PublishedSeen(s.outbox, s.log, h, x) && SeenFrom(s.outbox, s.log, h, x.ids[j]);
      }
    }
  }
}
