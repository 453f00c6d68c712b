/** Committed streams, and what the primary key guarantees of them in every reachable state. */
module Streams {
  import opened Events
  import opened Protocol
  import opened AppendSafety

  // ---------- A stream as a sequence ----------

  ghost function Beyond<E>(events: map<Key, Envelope<E>>, stream: Uuid, n: nat): set<Key> {
    set k | k in events && k.stream == stream && k.sequence > n
  }

  /** The rows of a stream with the sequences n + 1, n + 2, … up to the first one that is missing. */
  ghost function StreamFrom<E>(events: map<Key, Envelope<E>>, stream: Uuid, n: nat): seq<Envelope<E>>
    decreases Beyond(events, stream, n)
  {
    var next := Key(stream, n + 1);
    if next in events then
      assert next in Beyond(events, stream, n) && next !in Beyond(events, stream, n + 1);
      [events[next]] + StreamFrom(events, stream, n + 1)
    else []
  }

  ghost function Stream<E>(events: map<Key, Envelope<E>>, stream: Uuid): seq<Envelope<E>> {
    StreamFrom(events, stream, 0)
  }

  /** `rows` are rows n + 1, n + 2, … of the stream. */
  ghost predicate Numbered<E>(events: map<Key, Envelope<E>>, stream: Uuid, n: nat, rows: seq<Envelope<E>>) {
    forall m: nat | n < m <= n + |rows| :: Key(stream, m) in events && events[Key(stream, m)] == rows[m - n - 1]
  }

  /** `rows` are exactly the rows of the stream, the one with sequence i + 1 at index i. */
  ghost predicate IsStream<E>(events: map<Key, Envelope<E>>, stream: Uuid, rows: seq<Envelope<E>>) {
    && Numbered(events, stream, 0, rows)
    && forall n: nat :: Key(stream, n) in events ==> 1 <= n <= |rows|
  }

  lemma {:induction false} StreamFromRows<E>(
    events: map<Key, Envelope<E>>, stream: Uuid, n: nat, rows: seq<Envelope<E>>)
    requires rows == StreamFrom(events, stream, n)
    ensures Numbered(events, stream, n, rows)
    ensures Key(stream, n + |rows| + 1) !in events
    decreases Beyond(events, stream, n)
  {
    var next := Key(stream, n + 1);
    if next in events {
      assert next in Beyond(events, stream, n) && next !in Beyond(events, stream, n + 1);
      assert rows[1..] == StreamFrom(events, stream, n + 1);
      StreamFromRows(events, stream, n + 1, rows[1..]);
      assert n + 1 + |rows[1..]| == n + |rows|;
      forall m: nat | n < m <= n + |rows|
        ensures Key(stream, m) in events && events[Key(stream, m)] == rows[m - n - 1]
      {
        assert m > n + 1 ==> rows[1..][m - n - 2] == rows[m - n - 1];
      }
    }
  }

  /** The stream function finds every row: nothing lies behind a gap. */
  lemma StreamIsStream<E>(events: map<Key, Envelope<E>>, stream: Uuid)
    requires EventsOk(events)
    ensures IsStream(events, stream, Stream(events, stream))
    ensures HeadAt(events, stream, |Stream(events, stream)|)
    ensures IsHead(events, stream, |Stream(events, stream)|)
  {
    var rows := Stream(events, stream);
    StreamFromRows(events, stream, 0, rows);
    BelowFree(events, stream, |rows| + 1);
    forall n: nat ensures Key(stream, n) in events ==> 1 <= n <= |rows| {
      assert Key(stream, n) in events ==> Key(stream, n).stream == stream;
    }
    HeadIsMax(events, stream, |rows|);
  }

  lemma StreamIsUnique<E>(events: map<Key, Envelope<E>>, stream: Uuid, rows: seq<Envelope<E>>)
    requires EventsOk(events) && IsStream(events, stream, rows)
    ensures rows == Stream(events, stream)
  {
    var rows' := Stream(events, stream);
    StreamIsStream(events, stream);
    var last, last' := Key(stream, |rows|), Key(stream, |rows'|);
    assert |rows| > 0 ==> last in events;
    assert |rows'| > 0 ==> last' in events;
    forall i | 0 <= i < |rows| && |rows| == |rows'| ensures rows[i] == rows'[i] {
      var k := Key(stream, i + 1);
      assert k in events && events[k] == rows[i];
    }
  }

  lemma HeadIsLength<E>(events: map<Key, Envelope<E>>, stream: Uuid, head: nat)
    requires EventsOk(events) && IsHead(events, stream, head)
    ensures head == |Stream(events, stream)|
  {
    StreamIsStream(events, stream);
    HeadIsMax(events, stream, head);
    HeadIsUnique(events, stream, head, |Stream(events, stream)|);
  }

  // ---------- Load ----------

  /** SELECT … WHERE aggregate_id = stream ORDER BY sequence. */
  ghost predicate LoadResult<E>(events: map<Key, Envelope<E>>, stream: Uuid, out: seq<Envelope<E>>) {
    && (forall i, j | 0 <= i < j < |out| :: out[i].sequence < out[j].sequence)
    && (forall i | 0 <= i < |out| ::
          out[i].aggregateId == stream && KeyOf(out[i]) in events && events[KeyOf(out[i])] == out[i])
    && (forall k {:trigger Loaded(events, out, k)} | k in events && k.stream == stream :: Loaded(events, out, k))
  }

  ghost predicate Loaded<E>(events: map<Key, Envelope<E>>, out: seq<Envelope<E>>, k: Key) {
    k in events && exists i :: 0 <= i < |out| && out[i] == events[k]
  }

  lemma {:induction false} LoadedInPlace<E>(
    events: map<Key, Envelope<E>>, stream: Uuid, out: seq<Envelope<E>>, i: nat)
    requires EventsOk(events) && LoadResult(events, stream, out) && i < |out|
    ensures out[i].sequence == i + 1
  {
    forall j | 0 <= j < i ensures out[j].sequence == j + 1 {
      LoadedInPlace(events, stream, out, j);
    }
    assert i > 0 ==> out[i - 1].sequence < out[i].sequence;
    var k := Key(stream, i + 1);
    assert Reached(events, KeyOf(out[i]));
    if out[i].sequence >= i + 1 {
      assert Loaded(events, out, k);
      var j :| 0 <= j < |out| && out[j] == events[k];
      assert KeyOf(events[k]) == k;
    }
  }

  /** Load returns MAX(sequence) rows, the one with sequence i + 1 at index i. */
  lemma LoadReadsStream<E>(events: map<Key, Envelope<E>>, stream: Uuid, out: seq<Envelope<E>>)
    requires EventsOk(events) && LoadResult(events, stream, out)
    ensures out == Stream(events, stream)
    ensures IsHead(events, stream, |out|)
  {
    forall i | 0 <= i < |out| ensures out[i].sequence == i + 1 {
      LoadedInPlace(events, stream, out, i);
    }
    forall n: nat ensures Key(stream, n) in events ==> 1 <= n <= |out| {
      var k := Key(stream, n);
      if k in events {
        assert Loaded(events, out, k);
        var i :| 0 <= i < |out| && out[i] == events[k];
        assert KeyOf(events[k]) == k;
      }
    }
    forall m: nat | 0 < m <= |out| ensures Key(stream, m) in events && events[Key(stream, m)] == out[m - 1] {
      assert KeyOf(out[m - 1]) == Key(stream, m);
    }
    StreamIsUnique(events, stream, out);
    StreamIsStream(events, stream);
  }

  /** The stream is what Load returns. */
  lemma StreamIsLoadResult<E>(events: map<Key, Envelope<E>>, stream: Uuid)
    requires EventsOk(events)
    ensures LoadResult(events, stream, Stream(events, stream))
  {
    var rows := Stream(events, stream);
    StreamIsStream(events, stream);
    forall i | 0 <= i < |rows| ensures KeyOf(rows[i]) == Key(stream, i + 1) && KeyOf(rows[i]) in events {
      assert Key(stream, i + 1) in events;
    }
    forall k | k in events && k.stream == stream ensures Loaded(events, rows, k) {
      assert Key(stream, k.sequence) == k;
      assert rows[k.sequence - 1] == events[k];
    }
  }

  // ---------- One step ----------

  lemma GrownExtends<E>(s: State<E>, s': State<E>, x: Tx<E>, stream: Uuid, rows: seq<Envelope<E>>)
    requires Grown(s, s', x) && IsStream(s.events, stream, Stream(s.events, stream))
    requires stream == x.stream ==> |Stream(s.events, stream)| == x.expected
    requires rows == Stream(s.events, stream) + if stream == x.stream then x.batch else []
    ensures IsStream(s'.events, stream, rows)
  {
    forall n: nat ensures Key(stream, n) in s'.events ==> 1 <= n <= |rows| {
      assert Key(stream, n) in s'.events <==> Key(stream, n) in s.events || InBatch(x, Key(stream, n));
    }
    forall m: nat | 0 < m <= |rows|
      ensures Key(stream, m) in s'.events && s'.events[Key(stream, m)] == rows[m - 1]
    {
      var k := Key(stream, m);
      assert m > |Stream(s.events, stream)| ==> InBatch(x, k);
      assert m <= |Stream(s.events, stream)| ==> k in s.events;
    }
  }

  /** A commit appends its batch to its own stream, at the position it expected, and leaves the others alone. */
  lemma ApplyExtendsStream<E>(s: State<E>, t: nat, acknowledged: bool, stream: Uuid)
    requires AppendInv(s) && t < |s.txs| && s.txs[t].Open() && s.txs[t].Complete()
    ensures s.txs[t].expected == |Stream(s.events, s.txs[t].stream)|
    ensures Stream(ApplyAppend(s, t, acknowledged).events, stream) ==
            Stream(s.events, stream) + if stream == s.txs[t].stream then s.txs[t].batch else []
  {
    var x := s.txs[t];
    var s' := ApplyAppend(s, t, acknowledged);
    assert TxOk(s, x);
    ApplyGrows(s, t, acknowledged);
    GrownKeepsEvents(s, s', x);
    StreamIsStream(s.events, stream);
    StreamIsStream(s.events, x.stream);
    HeadIsUnique(s.events, x.stream, x.expected, |Stream(s.events, x.stream)|);
    var rows := Stream(s.events, stream) + if stream == x.stream then x.batch else [];
    GrownExtends(s, s', x, stream, rows);
    StreamIsUnique(s'.events, stream, rows);
  }

  /** Streams only grow at their end, so what Load returned once stays a prefix. */
  lemma StepKeepsPrefix<E>(s: State<E>, step: Step<E>, stream: Uuid)
    requires AppendInv(s) && Enabled(s, step)
    ensures Stream(s.events, stream) <= Stream(After(s, step).events, stream)
  {
    if step.CommitAppend? || step.ServerCommit? {
      ApplyExtendsStream(s, step.t, step.CommitAppend?, stream);
    } else {
      OtherStepsKeepEvents(s, step);
    }
  }

  lemma {:induction false} RunKeepsPrefix<E>(bus: Bus, steps: seq<Step<E>>, n: nat, stream: Uuid)
    requires n <= |steps| && Run(bus, steps).Some? && Run(bus, steps[..n]).Some?
    ensures Stream(Run(bus, steps[..n]).value.events, stream) <= Stream(Run(bus, steps).value.events, stream)
  {
    if n == |steps| {
      assert steps[..n] == steps;
    } else {
      var before := steps[..|steps| - 1];
      assert before[..n] == steps[..n];
      RunKeepsPrefix(bus, before, n, stream);
      RunKeepsAppendInv(bus, before);
      StepKeepsPrefix(Run(bus, before).value, steps[|steps| - 1], stream);
    }
  }

  /** Every stream of events' begins with what it was in events. */
  ghost predicate Grows<E>(events: map<Key, Envelope<E>>, events': map<Key, Envelope<E>>) {
    forall id: Uuid :: Stream(events, id) <= Stream(events', id)
  }

  lemma StreamsGrow<E>(bus: Bus, steps: seq<Step<E>>, n: nat)
    requires n <= |steps| && Run(bus, steps).Some? && Run(bus, steps[..n]).Some?
    ensures Grows(Run(bus, steps[..n]).value.events, Run(bus, steps).value.events)
  {
    forall id: Uuid ensures Stream(Run(bus, steps[..n]).value.events, id) <= Stream(Run(bus, steps).value.events, id) {
      RunKeepsPrefix(bus, steps, n, id);
    }
  }

  /** A conflict is reported only when the stream has grown past what the caller expected. */
  lemma ConflictMeansStale<E>(s: State<E>, step: Step<E>, t: nat)
    requires AppendInv(s) && Enabled(s, step) && t < |s.txs|
    requires !s.txs[t].phase.Conflicted? && After(s, step).txs[t].phase.Conflicted?
    ensures |Stream(s.events, s.txs[t].stream)| != s.txs[t].expected
  {
    var x := s.txs[t];
    assert TxOk(s, x);
    StreamIsStream(s.events, x.stream);
    if step.HeadCheck? {
      HeadIsLength(s.events, x.stream, step.head);
    } else {
      assert KeyOf(x.batch[x.rows]) == Key(x.stream, x.expected + x.rows + 1);
      BelowFree(s.events, x.stream, |Stream(s.events, x.stream)| + 1);
      assert Key(x.stream, x.expected + x.rows + 1).stream == x.stream;
    }
  }

  // ---------- Every state of every run ----------

  /** A stream is numbered 1..head without gaps, and what MAX(sequence) reads is the number of rows
      that Load returns. */
  lemma StreamsAreContiguous<E>(s: State<E>, stream: Uuid, head: nat, out: seq<Envelope<E>>)
    requires AppendInv(s) && IsHead(s.events, stream, head) && LoadResult(s.events, stream, out)
    ensures |out| == head
    ensures forall n: nat :: Key(stream, n) in s.events <==> 1 <= n <= head
    ensures forall i | 0 <= i < head :: KeyOf(out[i]) == Key(stream, i + 1)
  {
    LoadReadsStream(s.events, stream, out);
    StreamIsStream(s.events, stream);
    HeadIsLength(s.events, stream, head);
  }

  /** At most one open append holds uncommitted rows of a stream, and they start right after its head. */
  lemma SingleWriter<E>(s: State<E>, t: nat)
    requires AppendInv(s) && t < |s.txs| && Writing(s.txs[t])
    ensures s.txs[t].expected == |Stream(s.events, s.txs[t].stream)|
    ensures forall u | 0 <= u < |s.txs| && u != t && Writing(s.txs[u]) :: s.txs[u].stream != s.txs[t].stream
  {
    assert TxOk(s, s.txs[t]);
    StreamIsStream(s.events, s.txs[t].stream);
    HeadIsUnique(s.events, s.txs[t].stream, s.txs[t].expected, |Stream(s.events, s.txs[t].stream)|);
    forall u | 0 <= u < |s.txs| && u != t && Writing(s.txs[u]) ensures s.txs[u].stream != s.txs[t].stream {
      assert Apart(s.txs[t], s.txs[u]);
    }
  }

  lemma HoldsOwnStream<E>(s: State<E>, x: Tx<E>, k: Key)
    requires TxOk(s, x) && x.Holds(k)
    ensures Writing(x) && x.stream == k.stream
  {
    var i :| 0 <= i < x.rows && i < |x.batch| && KeyOf(x.batch[i]) == k;
    assert KeyOf(x.batch[i]) == Key(x.stream, x.expected + i + 1);
  }

  /** The first row decides: once it is in, no later insert of the batch waits or conflicts. */
  lemma FirstRowDecides<E>(s: State<E>, t: nat)
    requires AppendInv(s) && TxStep(s, t, Inserting)
    requires |s.txs[t].ids| == s.txs[t].rows && 0 < s.txs[t].rows < |s.txs[t].batch|
    ensures Enabled(s, InsertEvent(t))
    ensures KeyOf(s.txs[t].batch[s.txs[t].rows]) !in s.events
  {
    var x := s.txs[t];
    assert TxOk(s, x);
    var k := KeyOf(x.batch[x.rows]);
    assert k == Key(x.stream, x.expected + x.rows + 1);
    BelowFree(s.events, x.stream, x.expected + 1);
    assert k in s.events ==> k.stream == x.stream;
    forall u | 0 <= u < |s.txs| && u != t ensures !s.txs[u].Holds(k) {
      assert Apart(x, s.txs[u]) && TxOk(s, s.txs[u]);
      if s.txs[u].Holds(k) {
        HoldsOwnStream(s, s.txs[u], k);
        assert false;
      }
    }
  }

  /** Events and outbox rows are in one-to-one correspondence, with equal contents. */
  lemma OneOutboxRowPerEvent<E>(s: State<E>, k: Key)
    requires AppendInv(s) && k in s.events
    ensures exists i :: i in s.outbox && s.outbox[i] == s.events[k]
    ensures forall i, j | i in s.outbox && j in s.outbox && KeyOf(s.outbox[i]) == k == KeyOf(s.outbox[j]) :: i == j
    ensures forall i | i in s.outbox && KeyOf(s.outbox[i]) == k :: s.outbox[i] == s.events[k]
  {
    assert HasOutboxRow(s.events, s.outbox, k);
    forall i, j | i in s.outbox && j in s.outbox && KeyOf(s.outbox[i]) == k == KeyOf(s.outbox[j]) ensures i == j {
      assert s.outbox[i].sequence == s.outbox[j].sequence;
    }
  }

  /** Ids are drawn before commit and leave gaps, yet within a stream they follow the sequences. */
  lemma OutboxIdsFollowSequences<E>(s: State<E>, i: nat, j: nat)
    requires AppendInv(s) && i in s.outbox && j in s.outbox
    requires s.outbox[i].aggregateId == s.outbox[j].aggregateId
    ensures i < j <==> s.outbox[i].sequence < s.outbox[j].sequence
  {
    assert i == j || i < j || j < i;
  }

  /** An append is all or nothing. A key is in the events table exactly if a committed append wrote it,
      and an outbox id is in use exactly if a committed append drew it. So an append that failed, at
      whatever insert, left nothing in either table. */
  lemma AppendIsAtomic<E>(s: State<E>, t: nat)
    requires AppendInv(s) && t < |s.txs|
    ensures forall k :: k in s.events <==> HasWriter(s.txs, k)
    ensures forall j | 0 <= j < |s.txs[t].ids| :: s.txs[t].ids[j] in s.outbox <==> s.txs[t].phase.Committed?
    ensures s.txs[t].phase.Committed? ==> Stored(s.events, s.txs[t]) && s.txs[t].Complete()
  {
    assert TxOk(s, s.txs[t]);
    forall k ensures k in s.events <==> HasWriter(s.txs, k) {
      if HasWriter(s.txs, k) {
        var u :| 0 <= u < |s.txs| && s.txs[u].phase.Committed? && InBatch(s.txs[u], k);
        assert TxOk(s, s.txs[u]);
      }
    }
  }

  /** A rollback frees the keys that the append held, stores nothing, and gives no drawn id back. */
  lemma RollbackFrees<E>(s: State<E>, t: nat)
    requires Enabled(s, Rollback(t))
    ensures var s' := After(s, Step<E>.Rollback(t));
      && s'.events == s.events && s'.outbox == s.outbox && s'.nextId == s.nextId
      && !s'.txs[t].Open() && !s'.txs[t].phase.Committed? && forall k :: !s'.txs[t].Holds(k)
  {
  }

  /** The counter of outbox ids never goes back: an insert draws one id, one may be lost, and no other step moves it. */
  lemma StepDrawsIds<E>(s: State<E>, step: Step<E>)
    requires Enabled(s, step)
    ensures After(s, step).nextId == s.nextId + if step.InsertOutbox? || step.SkipId? then 1 else 0
  {
  }

  ghost predicate StoredAt<E>(rows: seq<Envelope<E>>, at: nat, batch: seq<Envelope<E>>) {
    at + |batch| <= |rows| && rows[at..at + |batch|] == batch
  }

  /** What an applied append stored stands in its stream at the version that it expected. */
  lemma CommittedInPlace<E>(s: State<E>, t: nat)
    requires AppendInv(s) && t < |s.txs| && s.txs[t].phase.Committed?
    ensures StoredAt(Stream(s.events, s.txs[t].stream), s.txs[t].expected, s.txs[t].batch)
  {
    var x := s.txs[t];
    assert TxOk(s, x);
    var rows, last := Stream(s.events, x.stream), Key(x.stream, x.expected + |x.batch|);
    StreamIsStream(s.events, x.stream);
    assert InBatch(x, last) && last in s.events;
    forall j | 0 <= j < |x.batch| ensures x.expected + j < |rows| && rows[x.expected + j] == x.batch[j] {
      var k := Key(x.stream, x.expected + j + 1);
      assert InBatch(x, k) && k in s.events;
    }
  }

  /** Safe retry. Once an append has been applied, acknowledged or not, an append that expects the same
      version never holds a row and is never applied; while it is open, its head check and its first
      insert both report a conflict. */
  lemma RetryConflicts<E>(s: State<E>, t: nat, u: nat)
    requires AppendInv(s) && t < |s.txs| && u < |s.txs| && u != t && s.txs[t].phase.Committed?
    requires s.txs[u].stream == s.txs[t].stream && s.txs[u].expected == s.txs[t].expected
    ensures !Writing(s.txs[u]) && !s.txs[u].phase.Committed?
    ensures forall head :: IsHead(s.events, s.txs[u].stream, head) ==> head != s.txs[u].expected
    ensures Enabled(s, InsertEvent(u)) ==> KeyOf(s.txs[u].batch[s.txs[u].rows]) in s.events
  {
    var x, y := s.txs[t], s.txs[u];
    assert TxOk(s, x) && TxOk(s, y) && Apart(x, y);
    var k := Key(x.stream, x.expected + 1);
    assert InBatch(x, k) && k.stream == y.stream;
    if Enabled(s, InsertEvent(u)) {
      assert KeyOf(y.batch[y.rows]) == Key(y.stream, y.expected + y.rows + 1);
    }
  }
}
