/** Aggregates and their repository: version bookkeeping, replay, and the two delivery modes of Save. */
module Aggregate {
  import opened Events
  import Protocol
  import AppendSafety
  import Streams
  import Memory
  import Postgres

  /** An aggregate with its embedded Base, over an arbitrary deterministic Apply. `observed` are the events
      the store has acknowledged or returned. */
  class Aggregate<S, E> {
    const apply: (S, E) -> S
    const initial: S
    const aggregateType: string
    var id: Uuid
    var currentVersion: nat
    var committedVersion: nat
    var uncommitted: seq<E>
    var state: S
    ghost var observed: seq<E>

    /** The queued events apply on top of the replay of the committed ones, and the versions count both. */
    ghost predicate Valid()
      reads this
    {
      && state == Fold(apply, Fold(apply, initial, observed), uncommitted)
      && committedVersion == |observed|
      && currentVersion == committedVersion + |uncommitted|
    }

    constructor (apply: (S, E) -> S, initial: S, aggregateType: string)
      ensures Valid() && observed == [] && uncommitted == [] && id == NIL
      ensures this.apply == apply && this.initial == initial && this.aggregateType == aggregateType
    {
      this.apply := apply;
      this.initial := initial;
      this.aggregateType := aggregateType;
      id := NIL;
      currentVersion, committedVersion := 0, 0;
      uncommitted := [];
      state := initial;
      observed := [];
    }

    /** The live state is the replay of what is committed followed by what is queued. */
    lemma LiveStateIsReplay()
      requires Valid()
      ensures state == Fold(apply, initial, observed + uncommitted)
      ensures currentVersion == |observed + uncommitted|
    {
      FoldConcat(apply, initial, observed, uncommitted);
    }

    /** Two copies of an aggregate with nothing queued, of which one has seen what the other has seen: equal
        versions mean equal states. */
    lemma VersionsDecide(copy: Aggregate<S, E>)
      requires Valid() && copy.Valid() && copy.apply == apply && copy.initial == initial
      requires uncommitted == [] == copy.uncommitted && observed <= copy.observed
      requires currentVersion == copy.currentVersion
      ensures state == copy.state && committedVersion == copy.committedVersion
    {
      assert observed == copy.observed;
    }

    /** Immutable once set, and never the zero UUID. */
    method SetID(newId: Uuid) returns (ok: bool)
      modifies this
      ensures ok <==> old(id) == NIL && newId != NIL
      ensures id == if ok then newId else old(id)
      ensures unchanged(this`state, this`uncommitted, this`observed, this`currentVersion, this`committedVersion)
    {
      if id != NIL || newId == NIL {
        return false;
      }
      id := newId;
      return true;
    }

    method Raise(e: E)
      requires Valid()
      modifies this
      ensures Valid() && observed == old(observed) && uncommitted == old(uncommitted) + [e] && id == old(id)
      ensures state == apply(old(state), e) && currentVersion == old(currentVersion) + 1
      ensures committedVersion == old(committedVersion)
    {
      state := apply(state, e);
      uncommitted := uncommitted + [e];
      currentVersion := currentVersion + 1;
      assert uncommitted[..|uncommitted| - 1] == old(uncommitted);
    }

    method MarkCommitted()
      requires Valid()
      modifies this
      ensures Valid() && observed == old(observed + uncommitted) && uncommitted == []
      ensures id == old(id) && state == old(state) && currentVersion == old(currentVersion)
      ensures committedVersion == currentVersion
    {
      LiveStateIsReplay();
      observed := observed + uncommitted;
      uncommitted := [];
      committedVersion := currentVersion;
    }

    /** A stored event: it is applied and counted as committed. The repository replays stored events into an
        aggregate that has not raised any; one that has would hold its own events beneath the stored one. */
    method Rehydrate(e: E)
      requires Valid()
      modifies this
      ensures state == apply(old(state), e) && uncommitted == old(uncommitted) && id == old(id)
      ensures currentVersion == old(currentVersion) + 1 && committedVersion == old(committedVersion) + 1
      ensures observed == old(observed) + [e]
      ensures old(uncommitted) == [] ==> Valid()
    {
      state := apply(state, e);
      currentVersion := currentVersion + 1;
      committedVersion := committedVersion + 1;
      observed := observed + [e];
      assert observed[..|observed| - 1] == old(observed);
    }
  }

  // ---------- Envelopes ----------

  /** The envelopes of a Save: the sequences go on from the version the aggregate was loaded at. */
  function Envelopes<E>(id: Uuid, aggregateType: string, expected: nat, kind: E -> string, pending: seq<E>)
    : (r: seq<Envelope<E>>)
    ensures |r| == |pending|
    ensures forall i | 0 <= i < |r| ::
      r[i] == Envelope(id, aggregateType, expected + i + 1, kind(pending[i]), pending[i])
  {
    seq(|pending|, i requires 0 <= i < |pending| =>
      Envelope(id, aggregateType, expected + i + 1, kind(pending[i]), pending[i]))
  }

  lemma EnvelopesAreWellFormed<E>(id: Uuid, aggregateType: string, expected: nat, kind: E -> string, pending: seq<E>)
    requires pending != []
    ensures WellFormedBatch(id, expected, Envelopes(id, aggregateType, expected, kind, pending))
    ensures Payloads(Envelopes(id, aggregateType, expected, kind, pending)) == pending
  {
  }

  // ---------- The repository ----------

  /** The store a repository is wired to. Only the Postgres store is an Outbox. */
  datatype Backend<E> = Plain(memory: Memory.Store<E>) | Outboxed(postgres: Postgres.Store<E>)
  {
    function Object(): object {
      match this
      case Plain(memory) => memory
      case Outboxed(postgres) => postgres
    }

    ghost predicate Valid()
      reads Object()
    {
      Outboxed? ==> postgres.Valid()
    }

    /** The committed stream. */
    ghost function Stream(id: Uuid): seq<Envelope<E>>
      reads Object()
    {
      match this
      case Plain(memory) => Memory.StreamOf(memory.streams, id)
      case Outboxed(postgres) => Streams.Stream(postgres.s.events, id)
    }
  }

  class Repository<S, E, V> {
    const store: Backend<E>
    const bus: Memory.Bus<E, V>
    const apply: (S, E) -> S
    const initial: S
    const aggregateType: string
    const kind: E -> string

    constructor (store: Backend<E>, bus: Memory.Bus<E, V>, apply: (S, E) -> S, initial: S, aggregateType: string,
                 kind: E -> string)
      ensures this.store == store && this.bus == bus && this.apply == apply && this.initial == initial
      ensures this.aggregateType == aggregateType && this.kind == kind
    {
      this.store := store;
      this.bus := bus;
      this.apply := apply;
      this.initial := initial;
      this.aggregateType := aggregateType;
      this.kind := kind;
    }

    /** The factory: a new aggregate with its ID set. The zero UUID is refused by SetID, and the factory
        ignores that. */
    method New(id: Uuid) returns (agg: Aggregate<S, E>)
      ensures fresh(agg) && agg.Valid() && agg.observed == [] && agg.uncommitted == [] && agg.id == id
      ensures agg.apply == apply && agg.initial == initial && agg.aggregateType == aggregateType
    {
      agg := new Aggregate(apply, initial, aggregateType);
      var ok := agg.SetID(id);
    }

    /** Replay of the stored stream. */
    method Load(id: Uuid, cancelled: bool) returns (r: Result<Aggregate<S, E>>)
      requires store.Valid()
      modifies store.Object()
      ensures store.Valid() && (store.Plain? ==> unchanged(store.Object()))
      ensures old(store.Stream(id)) <= store.Stream(id)
      ensures store.Outboxed? ==> old(store.postgres.steps) <= store.postgres.steps
      ensures store.Outboxed? && store.postgres.calm ==>
        && store.postgres.s == old(store.postgres.s)
        && if store.Stream(id) != [] then r.Ok? else r.Err? && r.error.StreamNotFound?
      ensures r.Ok? ==>
        var agg := r.value;
        && fresh(agg) && agg.Valid() && agg.id == id && agg.uncommitted == []
        && agg.apply == apply && agg.initial == initial && agg.aggregateType == aggregateType
        && agg.observed == Payloads(store.Stream(id))
        && agg.state == Fold(apply, initial, Payloads(store.Stream(id)))
      ensures r.Err? && r.error.StreamNotFound? ==> store.Stream(id) == []
      ensures store.Plain? && cancelled ==> r.Err? && r.error.Other?
      ensures store.Plain? && !cancelled ==>
        if id in store.memory.streams then r.Ok? else r.Err? && r.error.StreamNotFound?
    {
      var loaded: Result<seq<Envelope<E>>>;
      match store {
        case Plain(memory) => loaded := memory.Load(cancelled, id);
        case Outboxed(postgres) => loaded := postgres.Load(id);
      }
      if loaded.Err? {
        return Err(loaded.error);
      }
      var envelopes := loaded.value;
      var agg := New(id);
      for i := 0 to |envelopes|
        invariant agg.Valid() && agg.id == id && agg.uncommitted == []
        invariant agg.observed == Payloads(envelopes[..i])
        modifies agg
      {
        agg.Rehydrate(envelopes[i].payload);
      }
      assert envelopes[..|envelopes|] == envelopes;
      return Ok(agg);
    }

    /** The envelopes that a Save of agg appends. */
    ghost function Batch(agg: Aggregate<S, E>): (r: seq<Envelope<E>>)
      reads agg
      ensures |r| == |agg.uncommitted|
      ensures forall i | 0 <= i < |r| :: r[i] == Envelope(
        agg.id, agg.aggregateType, agg.committedVersion + i + 1, kind(agg.uncommitted[i]), agg.uncommitted[i])
    {
      Envelopes(agg.id, agg.aggregateType, agg.committedVersion, kind, agg.uncommitted)
    }

    /** What the aggregate counts as committed is what the store holds, up to what others appended since. */
    ghost predicate InSync(agg: Aggregate<S, E>)
      reads agg, store.Object()
    {
      agg.observed <= Payloads(store.Stream(agg.id))
    }

    /** The first step of the append that a Save of agg issues. */
    ghost function NextStep(agg: Aggregate<S, E>): Protocol.Step<E>
      reads agg
    {
      Protocol.Begin(agg.id, agg.committedVersion, Batch(agg))
    }

    ghost predicate UpToDate(agg: Aggregate<S, E>)
      reads agg, store.Object()
    {
      |store.Stream(agg.id)| == agg.committedVersion
    }

    /** The aggregate is up to date; and on Postgres nothing fails and nobody else is at work. */
    ghost predicate Undisturbed(agg: Aggregate<S, E>)
      reads agg, store.Object()
    {
      && UpToDate(agg)
      && (store.Outboxed? ==> store.postgres.calm && Postgres.NoneOpen(store.postgres.s))
    }

    /** Publishes in order, up to the first Publish that reports an error. */
    method PublishAppended(envelopes: seq<Envelope<E>>) returns (published: nat, ghost vs: seq<V>)
      modifies bus
      ensures bus.handlers == old(bus.handlers)
      ensures Memory.PublishedInTurn(old(bus.handlers), envelopes, published, vs)
      ensures vs[0] == old(bus.shared) && vs[|vs| - 1] == bus.shared
    {
      vs := [bus.shared];
      for i := 0 to |envelopes|
        invariant bus.handlers == old(bus.handlers)
        invariant Memory.PublishedInTurn(bus.handlers, envelopes[..i], i, vs)
        invariant vs[0] == old(bus.shared) && vs[i] == bus.shared
      {
        var errs, turns := bus.Publish(envelopes[i]);
        Memory.NextInTurn(bus.handlers, envelopes, i, vs, bus.shared, errs);
        vs := vs + [bus.shared];
        if errs != [] {
          return i, vs;
        }
      }
      assert envelopes[..|envelopes|] == envelopes;
      return |envelopes|, vs;
    }

    /** The Append of a Save, on either store. */
    method AppendBatch(agg: Aggregate<S, E>, cancelled: bool, envelopes: seq<Envelope<E>>)
      returns (r: Result<()>, ghost t: nat)
      requires store.Valid() && agg.Valid() && agg.uncommitted != [] && envelopes == Batch(agg)
      modifies store.Object()
      ensures store.Valid()
      ensures old(InSync(agg)) ==>
        InSync(agg) && (r.Ok? ==> agg.observed + agg.uncommitted <= Payloads(store.Stream(agg.id)))
      ensures store.Plain? ==>
        var streams := old(store.memory.streams);
        && r == (if cancelled then Err(Other)
                 else if |Memory.StreamOf(streams, agg.id)| != agg.committedVersion then Err(ConcurrencyConflict)
                 else Ok(()))
        && if r.Ok? then Memory.AppendTo(streams, agg.id, agg.committedVersion, envelopes) == Ok(store.memory.streams)
           else store.memory.streams == streams
      ensures store.Outboxed? ==>
        && t == |old(store.postgres.s.txs)| < |store.postgres.s.txs|
        && old(store.postgres.steps + [NextStep(agg)]) <= store.postgres.steps
        && Postgres.Answers(store.postgres.s.txs[t], agg.id, agg.committedVersion, envelopes, r)
        && Streams.Grows(old(store.postgres.s.events), store.postgres.s.events)
      ensures old(Undisturbed(agg)) && store.Outboxed? ==>
        r.Ok? && store.Stream(agg.id) == old(store.Stream(agg.id)) + envelopes
    {
      EnvelopesAreWellFormed(agg.id, agg.aggregateType, agg.committedVersion, kind, agg.uncommitted);
      ghost var before := store.Stream(agg.id);
      t := 0;
      match store {
        case Plain(memory) =>
          r := memory.Append(cancelled, agg.id, agg.committedVersion, envelopes);
          if r.Ok? {
            BehindIsStored(before, envelopes, store.Stream(agg.id));
          }
        case Outboxed(postgres) =>
          r, t := postgres.Append(agg.id, agg.committedVersion, envelopes);
      }
      assert before <= store.Stream(agg.id);
      if agg.observed <= Payloads(before) {
        if r.Ok? {
          Extends(before, store.Stream(agg.id), agg.observed, envelopes, agg.uncommitted);
        }
        ObservedStays(before, store.Stream(agg.id), agg.observed);
      }
    }

    /** Appends the queued events, expecting the version the aggregate was loaded at. On a failed append the
        aggregate is what it was, so that Save can be retried. On a plain store the appended envelopes are
        then published in order, up to the first Publish that reports an error; an outbox store leaves that
        to the dispatcher. */
    method Save(agg: Aggregate<S, E>, cancelled: bool)
      returns (r: Result<()>, ghost appended: bool, ghost published: nat, ghost vs: seq<V>, ghost t: nat)
      requires store.Valid() && agg.Valid()
      modifies agg, bus, store.Object()
      ensures store.Valid() && agg.Valid() && bus.handlers == old(bus.handlers)
      ensures unchanged(agg`id, agg`state, agg`currentVersion)
      ensures old(agg.uncommitted) == [] ==> r == Ok(()) && !appended && unchanged(store.Object())
      ensures !appended ==> unchanged(agg) && unchanged(bus) && (old(agg.uncommitted) != [] ==> r.Err?)
      ensures appended ==> agg.uncommitted == [] && agg.observed == old(agg.observed + agg.uncommitted)
      ensures old(InSync(agg)) ==> InSync(agg)
      // A plain store
      ensures store.Plain? && old(agg.uncommitted) != [] && !cancelled ==>
        (appended <==> |Memory.StreamOf(old(store.memory.streams), agg.id)| == old(agg.committedVersion))
      ensures store.Plain? && !appended ==> store.memory.streams == old(store.memory.streams)
      ensures store.Plain? && !appended && old(agg.uncommitted) != [] ==>
        r == Err(if cancelled then Other else ConcurrencyConflict)
      ensures store.Plain? && appended ==>
        && Memory.AppendTo(old(store.memory.streams), agg.id, old(agg.committedVersion), old(Batch(agg))) ==
           Ok(store.memory.streams)
        && Memory.PublishedInTurn(old(bus.handlers), old(Batch(agg)), published, vs)
        && vs[0] == old(bus.shared) && vs[|vs| - 1] == bus.shared
        && (r.Ok? <==> published == |old(Batch(agg))|)
      // An outbox store
      ensures store.Outboxed? ==> old(store.postgres.steps) <= store.postgres.steps
      ensures store.Outboxed? ==> unchanged(bus) && (old(agg.uncommitted) != [] ==>
        && (appended <==> r.Ok?)
        && t == |old(store.postgres.s.txs)| < |store.postgres.s.txs|
        && old(store.postgres.steps + [NextStep(agg)]) <= store.postgres.steps
        && Postgres.Answers(store.postgres.s.txs[t], agg.id, old(agg.committedVersion), old(Batch(agg)), r)
        && Streams.Grows(old(store.postgres.s.events), store.postgres.s.events))
      ensures old(agg.uncommitted != [] && Undisturbed(agg)) && store.Outboxed? ==>
        appended && store.Stream(agg.id) == old(store.Stream(agg.id)) + old(Batch(agg))
    {
      appended, published, vs, t := false, 0, [], 0;
      var pending := agg.uncommitted;
      if pending == [] {
        return Ok(()), appended, published, vs, t;
      }
      var expected := agg.committedVersion;
      var envelopes := Envelopes(agg.id, agg.aggregateType, expected, kind, pending);
      r, t := AppendBatch(agg, cancelled, envelopes);
      if r.Err? {
        return;
      }
      agg.MarkCommitted();
      appended := true;
      if store.Outboxed? {
        return;
      }
      var n, turns := PublishAppended(envelopes);
      published, vs := n, turns;
      return if n == |envelopes| then Ok(()) else Err(Other), appended, published, vs, t;
    }

    /** Since the n-th step of the Postgres store, or on a plain store, whose methods are atomic, no other writer
        has appended to the stream. */
    ghost predicate NoOtherWriter(n: nat, id: Uuid, mine: Postgres.Mine)
      reads store.Object()
    {
      store.Outboxed? ==> Postgres.NoOtherWriter(store.postgres.bus, store.postgres.steps, n, id, mine)
    }

    ghost function StepsTaken(): nat
      reads store.Object()
    {
      match store
      case Plain(_) => 0
      case Outboxed(postgres) => |postgres.steps|
    }

    /** The append that a Save issues next, if any. */
    ghost function NextAppend(agg: Aggregate<S, E>): Postgres.Mine
      reads agg, store.Object()
    {
      if store.Outboxed? && agg.uncommitted != [] then Postgres.OwnAppend(|store.postgres.s.txs|) else Postgres.Nothing
    }

    /** A Save, and when it reports an error the same Save again: of the two appends at most one is ever applied. If
        the first one was, although it reported an error, the second one reports one as well and the aggregate
        still is what it was. */
    method SaveAgain(agg: Aggregate<S, E>) returns (r: Result<()>, ghost retried: bool, ghost t: nat, ghost u: nat)
      requires store.Outboxed? && store.Valid() && agg.Valid() && agg.uncommitted != []
      modifies agg, bus, store.Object()
      ensures store.Valid() && agg.Valid() && unchanged(bus)
      ensures t < |store.postgres.s.txs| && (!retried ==> r.Ok?)
      ensures retried ==>
        var txs := store.postgres.s.txs;
        && u < |txs| && u != t
        && !(txs[t].phase.Committed? && txs[u].phase.Committed?)
        && (txs[t].phase.Committed? ==> r.Err? && unchanged(agg))
        && (r.Ok? ==> txs[u].phase.Committed? && agg.uncommitted == [])
    {
      ghost var published, appended, vs;
      retried, u := false, 0;
      r, appended, published, vs, t := Save(agg, false);
      if r.Err? {
        ghost var before := store.postgres.steps;
        retried := true;
        r, appended, published, vs, u := Save(agg, false);
        AtMostOneApplied(store.postgres, before, t, u);
      }
    }

    /** Loading another copy. The two agree when the stream is as long as the aggregate's committed version. */
    method Reload(agg: Aggregate<S, E>) returns (loaded: Result<Aggregate<S, E>>)
      requires store.Valid() && agg.Valid() && agg.apply == apply && agg.initial == initial && InSync(agg)
      modifies store.Object()
      ensures store.Valid() && InSync(agg) && old(store.Stream(agg.id)) <= store.Stream(agg.id)
      ensures store.Plain? ==> unchanged(store.Object())
      ensures store.Outboxed? ==> old(store.postgres.steps) <= store.postgres.steps
      ensures store.Outboxed? && store.postgres.calm ==> store.Stream(agg.id) == old(store.Stream(agg.id))
      ensures (store.Outboxed? ==> store.postgres.calm) && old(store.Stream(agg.id)) != [] ==> loaded.Ok?
      ensures loaded.Ok? ==> loaded.value.Valid() && agg.observed <= loaded.value.observed
      ensures loaded.Ok? && agg.uncommitted == [] && UpToDate(agg) ==> SameAs(agg, loaded.value)
    {
      loaded := Load(agg.id, false);
      if loaded.Ok? && agg.uncommitted == [] && UpToDate(agg) {
        agg.VersionsDecide(loaded.value);
      }
    }

    /** Saving and loading again reproduces state and versions, on either store, when the aggregate was up to date
        and no other writer has come in between. When nothing fails and nobody else is at work, both succeed. */
    method SaveAndReload(agg: Aggregate<S, E>) returns (loaded: Result<Aggregate<S, E>>)
      requires store.Valid() && agg.Valid() && agg.apply == apply && agg.initial == initial && InSync(agg)
      modifies agg, bus, store.Object()
      ensures store.Valid() && agg.Valid() && InSync(agg)
      ensures unchanged(agg`id, agg`state, agg`currentVersion)
      ensures loaded.Ok? ==> loaded.value.Valid() && agg.observed <= loaded.value.observed
      ensures NoOtherWriter(old(StepsTaken()), agg.id, old(NextAppend(agg))) && old(UpToDate(agg)) ==>
        loaded.Ok? && agg.uncommitted == [] ==> SameAs(agg, loaded.value)
      ensures old(agg.currentVersion > 0 && Undisturbed(agg)) ==> loaded.Ok? && SameAs(agg, loaded.value)
    {
      ghost var mine, before, batch := NextAppend(agg), store.Stream(agg.id), Batch(agg);
      ghost var steps0, steps1: seq<Protocol.Step<E>> := [], [];
      if store.Outboxed? {
        steps0 := store.postgres.steps;
      }
      var r, appended, published, vs, t := Save(agg, false);
      if store.Outboxed? {
        steps1 := store.postgres.steps;
      }
      loaded := Reload(agg);
      if agg.uncommitted == [] && store.Outboxed? && NoOtherWriter(|steps0|, agg.id, mine) {
        OnlySaved(store.postgres, steps0, steps1, agg.id, mine, batch);
      }
    }
  }

  /** Two appends with the same stream and expected version. */
  lemma AtMostOneApplied<E>(postgres: Postgres.Store<E>, before: seq<Protocol.Step<E>>, t: nat, u: nat)
    requires postgres.Valid() && before <= postgres.steps && Protocol.Run(postgres.bus, before).Some?
    requires t < |Protocol.Run(postgres.bus, before).value.txs| <= u < |postgres.s.txs|
    requires var x, y := Protocol.Run(postgres.bus, before).value.txs[t], postgres.s.txs[u];
      y.stream == x.stream && y.expected == x.expected
    ensures t < |postgres.s.txs| && !(postgres.s.txs[t].phase.Committed? && postgres.s.txs[u].phase.Committed?)
  {
    assert postgres.steps[..|before|] == before;
    Postgres.ArgumentsStay(postgres.bus, postgres.steps, |before|, t);
    AppendSafety.RunKeepsAppendInv(postgres.bus, postgres.steps);
    if postgres.s.txs[t].phase.Committed? {
      Streams.RetryConflicts(postgres.s, t, u);
    }
  }

  /** Since steps0 the stream has gained the batch, which had been stored when steps1 were taken, and nothing else. */
  lemma OnlySaved<E>(
    postgres: Postgres.Store<E>, steps0: seq<Protocol.Step<E>>, steps1: seq<Protocol.Step<E>>, id: Uuid,
    mine: Postgres.Mine, batch: seq<Envelope<E>>)
    requires postgres.Valid() && steps0 <= postgres.steps && steps1 <= postgres.steps
    requires Protocol.Run(postgres.bus, steps0).Some? && Protocol.Run(postgres.bus, steps1).Some?
    requires Postgres.NoOtherWriter(postgres.bus, postgres.steps, |steps0|, id, mine)
    requires
      var s0, s1 := Protocol.Run(postgres.bus, steps0).value, Protocol.Run(postgres.bus, steps1).value;
      if batch == [] then mine == Postgres.Nothing
      else
        && mine == Postgres.OwnAppend(|s0.txs|) && |s0.txs| < |s1.txs|
        && s1.txs[|s0.txs|].phase.Committed? && s1.txs[|s0.txs|].stream == id && s1.txs[|s0.txs|].batch == batch
    ensures Streams.Stream(postgres.s.events, id) ==
            Streams.Stream(Protocol.Run(postgres.bus, steps0).value.events, id) + batch
  {
    assert postgres.steps[..|steps0|] == steps0 && postgres.steps[..|steps1|] == steps1;
    Postgres.OnlyMine(postgres.bus, postgres.steps, |steps0|, |steps1|, id, mine, batch);
  }

  /** Both have nothing queued, and agree. */
  ghost predicate SameAs<S, E>(agg: Aggregate<S, E>, copy: Aggregate<S, E>)
    reads agg, copy
  {
    && copy.id == agg.id && copy.uncommitted == [] == agg.uncommitted
    && copy.state == agg.state
    && copy.currentVersion == agg.currentVersion && copy.committedVersion == agg.committedVersion
  }

  lemma BehindIsStored<E>(before: seq<Envelope<E>>, batch: seq<Envelope<E>>, after: seq<Envelope<E>>)
    requires after == before + batch
    ensures Streams.StoredAt(after, |before|, batch) && before <= after
  {
  }

  lemma ObservedStays<E>(before: seq<Envelope<E>>, after: seq<Envelope<E>>, observed: seq<E>)
    requires before <= after && observed <= Payloads(before)
    ensures observed <= Payloads(after)
  {
  }

  /** A batch stored right behind what was observed extends it. */
  lemma Extends<E>(
    before: seq<Envelope<E>>, after: seq<Envelope<E>>, observed: seq<E>, batch: seq<Envelope<E>>, pending: seq<E>)
    requires observed <= Payloads(before) && before <= after
    requires Payloads(batch) == pending && Streams.StoredAt(after, |observed|, batch)
    ensures observed + pending <= Payloads(after)
  {
    var n := |observed|;
    forall j | 0 <= j < |batch| ensures Payloads(after)[n + j] == pending[j] {
      assert after[n..n + |batch|][j] == batch[j];
    }
  }
}
