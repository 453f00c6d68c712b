/** The guard on claims is exact for the read model: a claim that breaks it can be followed by steps that leave
    a record wrong, with its whole stream dispatched. */
module AgreementGuard {
  import opened Events
  import opened Protocol
  import opened AppendSafety
  import opened Streams
  import opened DispatchSafety
  import opened Continuations
  import opened DispatchOrder
  import opened Handlers
  import opened Orders
  import opened OrdersSystem
  import opened ProjectionAgreement

  // ---------- Going on from a world ----------

  ghost function WorldFrom(w: World, steps: seq<WorldStep>): Option<World> {
    if steps == [] then Some(w)
    else
      var before, step := WorldFrom(w, steps[..|steps| - 1]), steps[|steps| - 1];
      if before.Some? && WorldEnabled(before.value, step) then Some(WorldAfter(before.value, step)) else None
  }

  /** The steps lead on from w, and all claims among them are guarded. */
  ghost predicate GuardedWorldFrom(w: World, steps: seq<WorldStep>) {
    && WorldFrom(w, steps).Some?
    && (steps == [] ||
        (GuardedWorldFrom(w, steps[..|steps| - 1]) &&
         GuardedWorldStep(WorldFrom(w, steps[..|steps| - 1]).value, steps[|steps| - 1])))
  }

  lemma {:induction false} WorldFromKeepsAgreement(w: World, steps: seq<WorldStep>)
    requires AgreementInv(w) && GuardedWorldFrom(w, steps)
    ensures AgreementInv(WorldFrom(w, steps).value)
  {
    if steps != [] {
      WorldFromKeepsAgreement(w, steps[..|steps| - 1]);
      StepKeepsAgreementInv(WorldFrom(w, steps[..|steps| - 1]).value, steps[|steps| - 1]);
    }
  }

  /** Steps of the protocol that begin no append are steps of the world. */
  lemma {:induction false} Lift(w: World, steps: seq<Step<OrderEvent>>) returns (lifted: seq<WorldStep>)
    requires WorldInv(w) && WiredInv(w.db) && GuardedFrom(w.db, steps, Current)
    requires forall i | 0 <= i < |steps| :: !steps[i].Begin?
    ensures GuardedWorldFrom(w, lifted) && WorldFrom(w, lifted) == Some(w.(db := From(w.db, steps).value))
    ensures WorldInv(WorldFrom(w, lifted).value) && WiredInv(WorldFrom(w, lifted).value.db)
  {
    if steps == [] {
      lifted := [];
    } else {
      var step := steps[|steps| - 1];
      lifted := Lift(w, steps[..|steps| - 1]);
      var before := WorldFrom(w, lifted).value;
      WorldStepKeepsInv(before, System(step));
      SystemStepKeepsWired(before, step);
      var all := lifted + [System(step)];
      assert all[..|all| - 1] == lifted;
      lifted := all;
    }
  }

  // ---------- The two ways to break the guard ----------

  /** Both rows of an order are dispatched, and the first one was delivered last. */
  ghost predicate EndsBehind(db: Db, first: nat, second: nat) {
    && SameStream(db.outbox, first, second) && first < second
    && first in db.dispatched && second in db.dispatched
    && db.log != [] && db.log[|db.log| - 1].id == first && db.log[|db.log| - 1].Ok()
  }

  lemma LastQuiet(outbox: map<nat, Envelope<OrderEvent>>, bus: Bus, log: Log, ids: seq<nat>)
    requires ids != [] && forall j | 0 <= j < |ids| :: ids[j] in outbox
    ensures var log' := log + QuietLog(outbox, bus, ids);
      log' != [] && log'[|log'| - 1].id == ids[|ids| - 1] && log'[|log'| - 1].Ok()
  {
    var log', quiet := log + QuietLog(outbox, bus, ids), QuietLog(outbox, bus, ids);
    assert log'[|log'| - 1] == quiet[|quiet| - 1];
  }

  /** A row that no live transaction holds, at the latest after its holder's connection is lost. */
  lemma Unlock(db: Db, id: nat) returns (steps: seq<Step<OrderEvent>>, db': Db)
    requires DispatchInv(db) && id in db.outbox && id !in db.dispatched
    ensures From(db, steps) == Some(db') && Claimable(db', id)
    ensures db'.outbox == db.outbox && db'.dispatched == db.dispatched && db'.log == db.log
    ensures db'.bus == db.bus && db'.events == db.events
    ensures forall i | 0 <= i < |steps| :: steps[i].Drop?
  {
    if Locked(db, id) {
      var d :| 0 <= d < |db.sessions| && db.sessions[d].live && id in db.sessions[d].ids;
      var j :| 0 <= j < |db.sessions[d].ids| && db.sessions[d].ids[j] == id;
      ReleasedRowsAreFree(db, Drop(d), d, j);
      db' := After(db, Step<OrderEvent>.Drop(d));
      steps := FromExtends(db, [], db, Drop(d));
    } else {
      steps, db' := [], db;
    }
  }

  /** Nothing comes before the first row of a stream. */
  lemma FirstRowIsGuarded(db: Db, id: nat)
    requires AppendInv(db) && id in db.outbox && db.outbox[id].sequence == 1
    ensures Guard(db, [id], Current)
  {
    forall i: nat | SameStream(db.outbox, i, id) ensures i >= id {
      assert KeyOf(db.outbox[i]) in db.events;
    }
  }

  /** Steps that begin no append and claim nothing. */
  ghost predicate Plain(steps: seq<Step<OrderEvent>>) {
    forall i | 0 <= i < |steps| :: !steps[i].Begin? && !steps[i].Claim?
  }

  /** The steps lead from db to db', begin no append, and their claims are guarded. */
  ghost predicate Leads(db: Db, steps: seq<Step<OrderEvent>>, db': Db) {
    && GuardedFrom(db, steps, Current) && From(db, steps) == Some(db')
    && forall i | 0 <= i < |steps| :: !steps[i].Begin?
  }

  lemma GoOn(db: Db, steps: seq<Step<OrderEvent>>, db': Db, more: seq<Step<OrderEvent>>, db'': Db)
    requires Leads(db, steps, db') && From(db', more) == Some(db'') && Plain(more)
    ensures Leads(db, steps + more, db'')
  {
    UnclaimingIsGuarded(db', more, Current);
    GuardedConcat(db, steps, db', more, Current);
  }

  /** The claim is served. */
  lemma ServeLeads(db: Db, batchSize: nat, ids: seq<nat>) returns (steps: seq<Step<OrderEvent>>, db': Db)
    requires AppendInv(db) && DispatchInv(db) && ClaimResult(db, batchSize, ids)
    ensures forall j | 0 <= j < |ids| :: ids[j] in db.outbox
    ensures Leads(After(db, Step<OrderEvent>.Claim(batchSize, ids)), steps, db') && db' == Served(db, ids)
    ensures AppendInv(db') && DispatchInv(db')
  {
    steps, db' := Serve(db, batchSize, ids);
    ClaimKeepsInv(db, batchSize, ids);
    PlainLeads(After(db, Step<OrderEvent>.Claim(batchSize, ids)), steps, db');
  }

  lemma PlainLeads(db: Db, steps: seq<Step<OrderEvent>>, db': Db)
    requires AppendInv(db) && DispatchInv(db) && From(db, steps) == Some(db') && Plain(steps)
    ensures Leads(db, steps, db') && AppendInv(db') && DispatchInv(db')
  {
    FromKeepsInv(db, steps);
    UnclaimingIsGuarded(db, steps, Current);
  }

  lemma ClaimKeepsInv(db: Db, batchSize: nat, ids: seq<nat>)
    requires AppendInv(db) && DispatchInv(db) && ClaimResult(db, batchSize, ids)
    ensures AppendInv(After(db, Step<OrderEvent>.Claim(batchSize, ids)))
    ensures DispatchInv(After(db, Step<OrderEvent>.Claim(batchSize, ids)))
  {
    StepKeepsAppendInv(db, Step<OrderEvent>.Claim(batchSize, ids));
    StepKeepsDispatchInv(db, Step<OrderEvent>.Claim(batchSize, ids));
  }

  /** The claim is served, and the lock on the row that it left out is gone. */
  lemma ServeAndUnlock(db: Db, batchSize: nat, ids: seq<nat>, first: nat)
    returns (steps: seq<Step<OrderEvent>>, db': Db)
    requires AppendInv(db) && DispatchInv(db) && ClaimResult(db, batchSize, ids)
    requires first in db.outbox && first !in ids && first !in db.dispatched
    ensures Leads(After(db, Step<OrderEvent>.Claim(batchSize, ids)), steps, db')
    ensures AppendInv(db') && Claimable(db', first) && db'.outbox == db.outbox
    ensures db'.dispatched == db.dispatched + Elements(ids)
  {
    var served, more;
    steps, served := ServeLeads(db, batchSize, ids);
    more, db' := Unlock(served, first);
    FromKeepsInv(served, more);
    GoOn(After(db, Step<OrderEvent>.Claim(batchSize, ids)), steps, served, more, db');
    steps := steps + more;
  }

  /** A row is claimed and served. */
  lemma ServeOne(start: Db, steps: seq<Step<OrderEvent>>, db: Db, id: nat)
    returns (steps': seq<Step<OrderEvent>>, db': Db)
    requires Leads(start, steps, db) && Claimable(db, id) && Guard(db, [id], Current)
    ensures Leads(start, steps', db') && db' == Served(db, [id])
  {
    var claim: Step<OrderEvent> := Claim(1, [id]);
    steps' := GuardedExtends(start, steps, db, claim, Current);
    var more;
    more, db' := Serve(db, 1, [id]);
    GoOn(start, steps', After(db, claim), more, db');
    steps' := steps' + more;
  }

  /** The claim left out a pending row, the first one of the order. It is served; then the row is claimed. */
  lemma LeftOutEndsBehind(db: Db, batchSize: nat, ids: seq<nat>, first: nat, m: nat)
    returns (steps: seq<Step<OrderEvent>>, db': Db)
    requires AppendInv(db) && DispatchInv(db) && ClaimResult(db, batchSize, ids) && m < |ids|
    requires SameStream(db.outbox, first, ids[m]) && first < ids[m] && db.outbox[first].sequence == 1
    requires first !in ids && first !in db.dispatched
    ensures Leads(After(db, Step<OrderEvent>.Claim(batchSize, ids)), steps, db')
    ensures db'.outbox == db.outbox && EndsBehind(db', first, ids[m])
  {
    var free;
    steps, free := ServeAndUnlock(db, batchSize, ids, first);
    FirstRowIsGuarded(free, first);
    steps, db' := ServeOne(After(db, Step<OrderEvent>.Claim(batchSize, ids)), steps, free, first);
    LastQuiet(free.outbox, free.bus, free.log, [first]);
    assert [first][0] in Elements([first]);
  }

  /** Another dispatcher has yet to publish the first row of the order, which the claim takes or finds
      dispatched. The claim is served; then that dispatcher goes on. */
  lemma UndercutEndsBehind(db: Db, batchSize: nat, ids: seq<nat>, d: nat, j: nat, m: nat)
    returns (steps: seq<Step<OrderEvent>>, db': Db)
    requires AppendInv(db) && DispatchInv(db) && ClaimResult(db, batchSize, ids) && m < |ids|
    requires Closed(db.outbox, db.dispatched, ids)
    requires d < |db.sessions| && Publishing(db.sessions[d]) && db.sessions[d].published <= j < |db.sessions[d].ids|
    requires SameStream(db.outbox, db.sessions[d].ids[j], ids[m]) && db.sessions[d].ids[j] < ids[m]
    ensures Leads(After(db, Step<OrderEvent>.Claim(batchSize, ids)), steps, db')
    ensures db'.outbox == db.outbox && EndsBehind(db', db.sessions[d].ids[j], ids[m])
  {
    var claimed := After(db, Step<OrderEvent>.Claim(batchSize, ids));
    assert SessionOk(db.outbox, db.dispatched, db.sessions[d]);
    var served, more;
    steps, served := ServeLeads(db, batchSize, ids);
    more, db' := GoOnPublishing(served, d, j);
    GoOn(claimed, steps, served, more, db');
    steps := steps + more;
  }

  lemma GoOnPublishing(db: Db, d: nat, j: nat) returns (steps: seq<Step<OrderEvent>>, db': Db)
    requires d < |db.sessions| && Publishing(db.sessions[d]) && db.sessions[d].published <= j < |db.sessions[d].ids|
    requires forall k | 0 <= k < |db.sessions[d].ids| :: db.sessions[d].ids[k] in db.outbox
    ensures From(db, steps) == Some(db') && Plain(steps)
    ensures db'.outbox == db.outbox && db'.dispatched == db.dispatched
    ensures db'.log != [] && db'.log[|db'.log| - 1].id == db.sessions[d].ids[j] && db'.log[|db'.log| - 1].Ok()
  {
    var x := db.sessions[d];
    steps := PublishOn(db, d, j + 1);
    db' := PublishedTo(db, d, j + 1);
    var offered := x.ids[x.published..j + 1];
    assert offered[|offered| - 1] == x.ids[j];
    LastQuiet(db.outbox, db.bus, db.log, offered);
  }

  // ---------- The read model is wrong then ----------

  /** Two rows of one order are its two events. */
  lemma TwoRows(w: World, first: nat, second: nat)
    requires WorldInv(w) && SameStream(w.db.outbox, first, second) && first < second
    ensures w.db.outbox[first].sequence == 1 && w.db.outbox[second].sequence == 2
    ensures |Stream(w.db.events, w.db.outbox[first].aggregateId)| == 2
    ensures forall i | i in w.db.outbox && w.db.outbox[i].aggregateId == w.db.outbox[first].aggregateId ::
      i == first || i == second
  {
    var id := w.db.outbox[first].aggregateId;
    OutboxRowIsStreamRow(w, first);
    OutboxRowIsStreamRow(w, second);
    assert OrderRows(id, Stream(w.db.events, id));
    forall i | i in w.db.outbox && w.db.outbox[i].aggregateId == id ensures i == first || i == second {
      OutboxRowIsStreamRow(w, i);
      OutboxIdsFollowSequences(w.db, i, first);
      OutboxIdsFollowSequences(w.db, i, second);
    }
  }

  lemma BehindIsWrong(w: World, first: nat, second: nat)
    requires WorldInv(w) && WiredInv(w.db) && EndsBehind(w.db, first, second)
    ensures !RecordAgrees(w.db, w.db.outbox[first].aggregateId)
  {
    var db := w.db;
    var id := db.outbox[first].aggregateId;
    TwoRows(w, first, second);
    var last := db.log[|db.log| - 1];
    assert last.env == db.outbox[first];
    assert last.handlers[..|last.handlers|] == last.handlers && last.Ran(PROJECTION);
    assert LastSeen(db.log, PROJECTION)[id] == 1;
    AgreementCondition(w, id);
  }

  /** A row of the claim, and the row of the same order by which the claim breaks the guard. */
  lemma UnguardedEndsBehind(w: World, batchSize: nat, ids: seq<nat>)
    returns (steps: seq<Step<OrderEvent>>, db': Db, first: nat, second: nat)
    requires WorldInv(w) && ClaimResult(w.db, batchSize, ids) && !Guard(w.db, ids, Current)
    ensures Leads(After(w.db, Step<OrderEvent>.Claim(batchSize, ids)), steps, db') && EndsBehind(db', first, second)
  {
    var m: nat;
    if !Closed(w.db.outbox, w.db.dispatched, ids) {
      first, m :| m < |ids| && SameStream(w.db.outbox, first, ids[m]) && first < ids[m] &&
                  first !in ids && first !in w.db.dispatched;
      TwoRows(w, first, ids[m]);
      steps, db' := LeftOutEndsBehind(w.db, batchSize, ids, first, m);
    } else {
      var d: nat;
      d, m :| d < |w.db.sessions| && m < |ids| && Undercuts(w.db.outbox, w.db.sessions[d], ids[m]);
      var x := w.db.sessions[d];
      var j :| x.published <= j < |x.ids| && SameStream(w.db.outbox, x.ids[j], ids[m]) && x.ids[j] < ids[m];
      first := x.ids[j];
      steps, db' := UndercutEndsBehind(w.db, batchSize, ids, d, j, m);
    }
    second := ids[m];
  }

  lemma UnguardedDisagrees(w: World, batchSize: nat, ids: seq<nat>) returns (steps: seq<WorldStep>, id: Uuid)
    requires AgreementInv(w) && ClaimResult(w.db, batchSize, ids) && !Guard(w.db, ids, Current)
    ensures var w' := WorldAfter(w, System(Claim(batchSize, ids)));
      GuardedWorldFrom(w', steps) && !RecordAgrees(WorldFrom(w', steps).value.db, id)
  {
    var w' := WorldAfter(w, System(Claim(batchSize, ids)));
    WorldStepKeepsInv(w, System(Claim(batchSize, ids)));
    SystemStepKeepsWired(w, Claim(batchSize, ids));
    var more, db', first, second := UnguardedEndsBehind(w, batchSize, ids);
    steps := Lift(w', more);
    id := db'.outbox[first].aggregateId;
    BehindIsWrong(WorldFrom(w', steps).value, first, second);
  }

  ghost predicate AgreesAfter(w: World, steps: seq<WorldStep>) {
    WorldFrom(w, steps).Some? && forall id: Uuid :: RecordAgrees(WorldFrom(w, steps).value.db, id)
  }

  /** The exact condition for the agreement of the read model, at the claim. From a world that guarded claims have
      led to, with any number of dispatchers, a claim is followed by agreement in every continuation with
      guarded claims if and only if it is guarded: it takes every pending row that comes before one of its
      rows, and no dispatcher has yet to publish a row that comes before one of them. */
  lemma AgreementGuardIsExact(w: World, batchSize: nat, ids: seq<nat>)
    requires AgreementInv(w) && ClaimResult(w.db, batchSize, ids)
    ensures var w' := WorldAfter(w, System(Claim(batchSize, ids)));
      Guard(w.db, ids, Current) <==> forall steps | GuardedWorldFrom(w', steps) :: AgreesAfter(w', steps)
  {
    var claim := System(Claim(batchSize, ids));
    var w' := WorldAfter(w, claim);
    if Guard(w.db, ids, Current) {
      StepKeepsAgreementInv(w, claim);
      forall steps | GuardedWorldFrom(w', steps) ensures AgreesAfter(w', steps) {
        WorldFromKeepsAgreement(w', steps);
        forall id: Uuid ensures RecordAgrees(WorldFrom(w', steps).value.db, id) {
          DispatchedStreamsAgree(WorldFrom(w', steps).value, id);
        }
      }
    } else {
      var steps, id := UnguardedDisagrees(w, batchSize, ids);
      assert !AgreesAfter(w', steps);
    }
  }
}
