/** The values that every layer shares: envelopes, stream positions and replay. */
module Events {

  /** Aggregate identifiers. uuid.UUID is opaque to the write path apart from its zero value. */
  type Uuid = nat

  const NIL: Uuid := 0

  datatype Option<+T> = None | Some(value: T)

  /** What Store.Append and Store.Load can report besides success. */
  datatype Error = ConcurrencyConflict | StreamNotFound | Other

  datatype Result<+T> = Ok(value: T) | Err(error: Error)

  /** A stored event: `eventType` is Payload.EventType(), the column both tables store. */
  datatype Envelope<+E> = Envelope(
    aggregateId: Uuid,
    aggregateType: string,
    sequence: nat,
    eventType: string,
    payload: E)

  /** The primary key of the events table. */
  datatype Key = Key(stream: Uuid, sequence: nat)

  function KeyOf<E>(env: Envelope<E>): Key {
    Key(env.aggregateId, env.sequence)
  }

  /** What Save guarantees of the envelopes it appends, and neither Append checks. */
  ghost predicate WellFormedBatch<E>(stream: Uuid, expected: nat, batch: seq<Envelope<E>>) {
    && |batch| > 0
    && forall i | 0 <= i < |batch| :: KeyOf(batch[i]) == Key(stream, expected + i + 1)
  }

  function Payloads<E>(envelopes: seq<Envelope<E>>): (r: seq<E>)
    ensures |r| == |envelopes|
    ensures forall i | 0 <= i < |r| :: r[i] == envelopes[i].payload
  {
    seq(|envelopes|, i requires 0 <= i < |envelopes| => envelopes[i].payload)
  }

  /** Replay: the state after applying `events` in order. */
  function Fold<S, E>(apply: (S, E) -> S, initial: S, events: seq<E>): S {
    if events == [] then initial
    else apply(Fold(apply, initial, events[..|events| - 1]), events[|events| - 1])
  }

  lemma {:induction false} FoldConcat<S, E>(apply: (S, E) -> S, initial: S, first: seq<E>, second: seq<E>)
    ensures Fold(apply, initial, first + second) == Fold(apply, Fold(apply, initial, first), second)
  {
    if second == [] {
      assert first + second == first;
    } else {
      var n := |second| - 1;
      FoldConcat(apply, initial, first, second[..n]);
      assert (first + second)[..|first + second| - 1] == first + second[..n];
    }
  }
}
