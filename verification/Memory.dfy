/** The in-memory store and bus. The store's compare-and-append is the sequential specification that
    the Postgres store is measured against. */
module Memory {
  import opened Events

  type Streams<E> = map<Uuid, seq<Envelope<E>>>

  function StreamOf<E>(streams: Streams<E>, id: Uuid): seq<Envelope<E>> {
    if id in streams then streams[id] else []
  }

  /** One Append whose context is not cancelled: the streams after it, or the conflict it reports. */
  function AppendTo<E>(streams: Streams<E>, id: Uuid, expected: nat, events: seq<Envelope<E>>): Result<Streams<E>> {
    if |StreamOf(streams, id)| != expected then Err(ConcurrencyConflict)
    else Ok(streams[id := StreamOf(streams, id) + events])
  }

  class Store<E> {
    var streams: Streams<E>

    constructor ()
      ensures streams == map[]
    {
      streams := map[];
    }

    method Append(cancelled: bool, id: Uuid, expected: nat, events: seq<Envelope<E>>) returns (r: Result<()>)
      modifies this
      ensures cancelled ==> r == Err(Other)
      ensures !cancelled && |StreamOf(old(streams), id)| != expected ==> r == Err(ConcurrencyConflict)
      ensures !cancelled && |StreamOf(old(streams), id)| == expected ==> r == Ok(())
      ensures r.Err? ==> streams == old(streams)
      ensures r.Ok? ==>
        streams == old(streams)[id := (if id in old(streams) then old(streams)[id] else []) + events]
      ensures r.Ok? ==> AppendTo(old(streams), id, expected, events) == Ok(streams)
    {
      if cancelled {
        return Err(Other);
      }
      var current := |StreamOf(streams, id)|;
      if current != expected {
        return Err(ConcurrencyConflict);
      }
      streams := streams[id := StreamOf(streams, id) + events];
      return Ok(());
    }

    /** A copy of the stream: later appends do not show in it, because sequences are values here. */
    method Load(cancelled: bool, id: Uuid) returns (r: Result<seq<Envelope<E>>>)
      ensures cancelled ==> r == Err(Other)
      ensures !cancelled && id !in streams ==> r == Err(StreamNotFound)
      ensures !cancelled && id in streams ==> r == Ok(streams[id])
    {
      if cancelled {
        return Err(Other);
      }
      if id !in streams {
        return Err(StreamNotFound);
      }
      return Ok(streams[id]);
    }
  }

  // ---------- The bus ----------

  /** A handler closes over state that it updates; here the state is passed through. The bool is whether
      it returned nil. */
  type Handler<!E, !V> = (V, Envelope<E>) -> (V, bool)

  type Handlers<!E, !V> = map<string, seq<Handler<E, V>>>

  function HandlersOf<E, V>(handlers: Handlers<E, V>, eventType: string): seq<Handler<E, V>> {
    if eventType in handlers then handlers[eventType] else []
  }

  /** Every handler in registration order, whatever the earlier ones returned; and which of them failed. */
  function RunAll<E, V>(hs: seq<Handler<E, V>>, v: V, env: Envelope<E>): (V, seq<nat>) {
    if hs == [] then (v, [])
    else
      var n := |hs| - 1;
      var (before, errs) := RunAll(hs[..n], v, env);
      var (after, ok) := hs[n](before, env);
      (after, if ok then errs else errs + [n])
  }

  /** Every handler runs in its turn on the state that the one before it left, whatever that one returned; and
      errors.Join is nil exactly if every handler returned nil. */
  lemma {:induction false} RunAllRunsEach<E, V>(hs: seq<Handler<E, V>>, v: V, env: Envelope<E>) returns (vs: seq<V>)
    ensures |vs| == |hs| + 1 && vs[0] == v && RunAll(hs, v, env).0 == vs[|hs|]
    ensures forall i | 0 <= i < |hs| :: vs[i + 1] == hs[i](vs[i], env).0
    ensures forall i: nat :: i in RunAll(hs, v, env).1 <==> i < |hs| && !hs[i](vs[i], env).1
    ensures RunAll(hs, v, env).1 == [] <==> forall i | 0 <= i < |hs| :: hs[i](vs[i], env).1
  {
    if hs == [] {
      vs := [v];
    } else {
      var n := |hs| - 1;
      var before := RunAllRunsEach(hs[..n], v, env);
      vs := before + [hs[n](before[n], env).0];
      var errs := RunAll(hs, v, env).1;
      assert errs != [] ==> errs[0] in errs;
    }
  }

  class Bus<E, V> {
    var handlers: Handlers<E, V>
    /** What the subscribed handlers close over. */
    var shared: V

    constructor (shared: V)
      ensures handlers == map[] && this.shared == shared
    {
      handlers := map[];
      this.shared := shared;
    }

    method Subscribe(eventType: string, h: Handler<E, V>)
      modifies this
      ensures handlers ==
        old(handlers)[eventType := (if eventType in old(handlers) then old(handlers)[eventType] else []) + [h]]
      ensures shared == old(shared)
    {
      handlers := handlers[eventType := HandlersOf(handlers, eventType) + [h]];
    }

    /** `vs` are the states between the handlers' turns. */
    method Publish(env: Envelope<E>) returns (errs: seq<nat>, ghost vs: seq<V>)
      modifies this
      ensures var hs := if env.eventType in old(handlers) then old(handlers)[env.eventType] else [];
        && |vs| == |hs| + 1 && vs[0] == old(shared) && shared == vs[|hs|]
        && (forall i | 0 <= i < |hs| :: vs[i + 1] == hs[i](vs[i], env).0)
        && (forall i: nat :: i in errs <==> i < |hs| && !hs[i](vs[i], env).1)
      ensures forall i, j | 0 <= i < j < |errs| :: errs[i] < errs[j]
      ensures (shared, errs) == RunAll(HandlersOf(old(handlers), env.eventType), old(shared), env)
      ensures handlers == old(handlers)
    {
      var hs := HandlersOf(handlers, env.eventType);
      errs := [];
      vs := [shared];
      for i := 0 to |hs|
        invariant |vs| == i + 1 && vs[0] == old(shared) && shared == vs[i]
        invariant forall j | 0 <= j < i :: vs[j + 1] == hs[j](vs[j], env).0
        invariant forall j: nat :: j in errs <==> j < i && !hs[j](vs[j], env).1
        invariant forall k | 0 <= k < |errs| :: errs[k] < i
        invariant forall j, k | 0 <= j < k < |errs| :: errs[j] < errs[k]
        invariant (shared, errs) == RunAll(hs[..i], old(shared), env)
        invariant handlers == old(handlers)
      {
        var (after, ok) := hs[i](shared, env);
        shared := after;
        vs := vs + [shared];
        if !ok {
          errs := errs + [i];
        }
        assert hs[..i + 1][..i] == hs[..i];
      }
      assert hs[..|hs|] == hs;
    }
  }

  /** The envelopes were published one after the other, each to the handlers of its own type on the state that the
      one before it left, up to the first Publish that reported an error. `vs` are the states in between. */
  ghost predicate PublishedInTurn<E, V>(handlers: Handlers<E, V>, envs: seq<Envelope<E>>, published: nat, vs: seq<V>) {
    && published <= |envs|
    && |vs| == (if published < |envs| then published + 2 else published + 1)
    && (forall i | 0 <= i < |vs| - 1 ::
          RunAll(HandlersOf(handlers, envs[i].eventType), vs[i], envs[i]).0 == vs[i + 1])
    && (forall i | 0 <= i < published :: RunAll(HandlersOf(handlers, envs[i].eventType), vs[i], envs[i]).1 == [])
    && (published < |envs| ==>
          RunAll(HandlersOf(handlers, envs[published].eventType), vs[published], envs[published]).1 != [])
  }

  lemma NextInTurn<E, V>(handlers: Handlers<E, V>, envs: seq<Envelope<E>>, i: nat, vs: seq<V>, after: V, errs: seq<nat>)
    requires i < |envs| && PublishedInTurn(handlers, envs[..i], i, vs)
    requires (after, errs) == RunAll(HandlersOf(handlers, envs[i].eventType), vs[i], envs[i])
    ensures if errs == [] then PublishedInTurn(handlers, envs[..i + 1], i + 1, vs + [after])
            else PublishedInTurn(handlers, envs, i, vs + [after])
  {
    var vs' := vs + [after];
    forall j | 0 <= j <= i
      ensures RunAll(HandlersOf(handlers, envs[j].eventType), vs'[j], envs[j]).0 == vs'[j + 1]
      ensures j < i ==> RunAll(HandlersOf(handlers, envs[j].eventType), vs'[j], envs[j]).1 == []
    {
      if j < i {
        assert envs[..i][j] == envs[j] && vs'[j] == vs[j] && vs'[j + 1] == vs[j + 1];
      }
    }
    assert forall j | 0 <= j <= i :: envs[..i + 1][j] == envs[j];
  }
}
