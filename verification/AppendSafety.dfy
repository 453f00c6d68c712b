/** What every step keeps true of the two tables and of the open appends. */
module AppendSafety {
  import opened Events
  import opened Protocol

  // ---------- The invariant ----------

  /** No sequence below k is missing. */
  ghost predicate Reached<E>(events: map<Key, Envelope<E>>, k: Key) {
    forall n: nat | 1 <= n <= k.sequence :: Key(k.stream, n) in events
  }

  /** Rows sit under their own key, and the sequences of a stream run from 1 without a gap. */
  ghost predicate EventsOk<E>(events: map<Key, Envelope<E>>) {
    && (forall k | k in events :: KeyOf(events[k]) == k && k.sequence >= 1)
    && (forall k {:trigger Reached(events, k)} | k in events :: Reached(events, k))
  }

  ghost predicate HasOutboxRow<E>(events: map<Key, Envelope<E>>, outbox: map<nat, Envelope<E>>, k: Key) {
    k in events && exists i :: i in outbox && outbox[i] == events[k]
  }

  /** Every row of the outbox is one of the events table. */
  ghost predicate RowsOk<E>(events: map<Key, Envelope<E>>, outbox: map<nat, Envelope<E>>) {
    forall i | i in outbox :: KeyOf(outbox[i]) in events && events[KeyOf(outbox[i])] == outbox[i]
  }

  /** Within a stream, outbox ids and sequences agree on the order. */
  ghost predicate InStreamOrder<E>(outbox: map<nat, Envelope<E>>) {
    forall i, j | i in outbox && j in outbox && i < j && outbox[i].aggregateId == outbox[j].aggregateId ::
      outbox[i].sequence < outbox[j].sequence
  }

  /** The two tables hold the same envelopes, each once. */
  ghost predicate OutboxOk<E>(events: map<Key, Envelope<E>>, outbox: map<nat, Envelope<E>>) {
    && RowsOk(events, outbox)
    && (forall k {:trigger HasOutboxRow(events, outbox, k)} | k in events :: HasOutboxRow(events, outbox, k))
    && InStreamOrder(outbox)
  }

  /** `head` is the committed head of the stream, said without a maximum. */
  ghost predicate HeadAt<E>(events: map<Key, Envelope<E>>, stream: Uuid, head: nat) {
    && (head == 0 || Key(stream, head) in events)
    && Key(stream, head + 1) !in events
  }

  /** An open append with uncommitted event rows. */
  predicate Writing<E>(x: Tx<E>) {
    x.Open() && x.rows > 0
  }

  predicate InBatch<E>(x: Tx<E>, k: Key) {
    k.stream == x.stream && x.expected < k.sequence <= x.expected + |x.batch|
  }

  /** The batch is in the events table, row for row. */
  ghost predicate Stored<E>(events: map<Key, Envelope<E>>, x: Tx<E>) {
    forall k {:trigger InBatch(x, k)} | InBatch(x, k) ::
      k in events && events[k] == x.batch[k.sequence - x.expected - 1]
  }

  ghost predicate TxShape<E>(x: Tx<E>) {
    && WellFormedBatch(x.stream, x.expected, x.batch)
    && |x.ids| <= x.rows <= |x.ids| + 1 && x.rows <= |x.batch|
    && Ascending(x.ids)
    && (x.phase.Begun? ==> x.rows == 0)
    && (x.phase.Committed? ==> x.Complete())
  }

  ghost predicate TxEvents<E>(events: map<Key, Envelope<E>>, x: Tx<E>) {
    && (x.phase.Inserting? ==> x.expected == 0 || Key(x.stream, x.expected) in events)
    && (Writing(x) ==> HeadAt(events, x.stream, x.expected))
    && (x.phase.Committed? ==> Stored(events, x))
  }

  /** A committed append has an outbox row under each id it drew, any other append under none. While an
      append is open, its ids lie above every committed row of its stream. */
  ghost predicate TxIds<E>(outbox: map<nat, Envelope<E>>, x: Tx<E>) {
    && (!x.phase.Committed? ==> forall j | 0 <= j < |x.ids| :: x.ids[j] !in outbox)
    && (x.phase.Committed? ==>
          forall j | 0 <= j < |x.ids| && j < |x.batch| :: x.ids[j] in outbox && outbox[x.ids[j]] == x.batch[j])
    && (x.Open() ==>
          forall i, j | i in outbox && outbox[i].aggregateId == x.stream && 0 <= j < |x.ids| :: i < x.ids[j])
  }

  ghost predicate TxOk<E>(s: State<E>, x: Tx<E>) {
    && TxShape(x)
    && TxEvents(s.events, x)
    && TxIds(s.outbox, x)
    && forall j | 0 <= j < |x.ids| :: x.ids[j] < s.nextId
  }

  /** Two appends never hold rows of one stream at once, never store the same position, and never
      share an outbox id. */
  ghost predicate Apart<E>(x: Tx<E>, y: Tx<E>) {
    && !(Writing(x) && Writing(y) && x.stream == y.stream)
    && (x.phase.Committed? && y.phase.Committed? && x.stream == y.stream ==>
          x.expected + |x.batch| <= y.expected || y.expected + |y.batch| <= x.expected)
    && (forall i, j | 0 <= i < |x.ids| && 0 <= j < |y.ids| :: x.ids[i] != y.ids[j])
  }

  ghost predicate HasWriter<E>(txs: seq<Tx<E>>, k: Key) {
    exists t :: 0 <= t < |txs| && txs[t].phase.Committed? && InBatch(txs[t], k)
  }

  ghost predicate Txs<E>(s: State<E>) {
    && (forall t | 0 <= t < |s.txs| :: TxOk(s, s.txs[t]))
    && (forall t, u | 0 <= t < |s.txs| && 0 <= u < |s.txs| && t != u :: Apart(s.txs[t], s.txs[u]))
  }

  ghost predicate Tables<E>(s: State<E>) {
    && EventsOk(s.events)
    && OutboxOk(s.events, s.outbox)
    && (forall i | i in s.outbox :: i < s.nextId)
    && (forall k {:trigger HasWriter(s.txs, k)} | k in s.events :: HasWriter(s.txs, k))
  }

  ghost predicate AppendInv<E>(s: State<E>) {
    Tables(s) && Txs(s)
  }

  // ---------- Gap-free streams ----------

  /** Gap-freedom turns "the next key is free" into "nothing beyond". */
  lemma BelowFree<E>(events: map<Key, Envelope<E>>, stream: Uuid, free: nat)
    requires EventsOk(events) && free >= 1 && Key(stream, free) !in events
    ensures forall k | k in events && k.stream == stream :: k.sequence < free
  {
    forall k | k in events && k.stream == stream ensures k.sequence < free {
      assert Reached(events, k);
    }
  }

  lemma HeadIsUnique<E>(events: map<Key, Envelope<E>>, stream: Uuid, g: nat, h: nat)
    requires EventsOk(events) && HeadAt(events, stream, g) && HeadAt(events, stream, h)
    ensures g == h
  {
    BelowFree(events, stream, g + 1);
    BelowFree(events, stream, h + 1);
    assert g > 0 ==> Key(stream, g).sequence < h + 1;
    assert h > 0 ==> Key(stream, h).sequence < g + 1;
  }

  /** MAX(sequence) and the local description of the head agree. */
  lemma HeadIsMax<E>(events: map<Key, Envelope<E>>, stream: Uuid, head: nat)
    requires EventsOk(events)
    ensures IsHead(events, stream, head) <==> HeadAt(events, stream, head)
  {
    var next := Key(stream, head + 1);
    assert next in events ==> next.stream == stream && next.sequence > head;
    if HeadAt(events, stream, head) {
      BelowFree(events, stream, head + 1);
    }
  }

  // ---------- What the inserts of a whole batch add ----------

  lemma {:induction false} InsertRowsAdds<E>(
    events: map<Key, Envelope<E>>, stream: Uuid, expected: nat, batch: seq<Envelope<E>>, n: nat)
    requires WellFormedBatch(stream, expected, batch) && n <= |batch|
    ensures forall k ::
      k in InsertRows(events, batch, n) <==>
      k in events || (k.stream == stream && expected < k.sequence <= expected + n)
    ensures forall j | 0 <= j < n :: InsertRows(events, batch, n)[KeyOf(batch[j])] == batch[j]
    ensures forall k | k in events && !(k.stream == stream && expected < k.sequence <= expected + n) ::
      InsertRows(events, batch, n)[k] == events[k]
  {
    if n > 0 {
      InsertRowsAdds(events, stream, expected, batch, n - 1);
    }
  }

  lemma {:induction false} InsertOutboxRowsAdds<E>(
    outbox: map<nat, Envelope<E>>, ids: seq<nat>, batch: seq<Envelope<E>>, n: nat)
    requires n <= |batch| == |ids| && Ascending(ids)
    ensures forall i ::
      i in InsertOutboxRows(outbox, ids, batch, n) <==> i in outbox || i in ids[..n]
    ensures forall j | 0 <= j < n :: InsertOutboxRows(outbox, ids, batch, n)[ids[j]] == batch[j]
    ensures forall i | i in outbox && i !in ids[..n] :: InsertOutboxRows(outbox, ids, batch, n)[i] == outbox[i]
  {
    if n > 0 {
      InsertOutboxRowsAdds(outbox, ids, batch, n - 1);
      assert ids[..n] == ids[..n - 1] + [ids[n - 1]];
    }
  }

  // ---------- Steps that leave the tables alone ----------

  lemma BeginKeeps<E>(s: State<E>, step: Step<E>)
    requires AppendInv(s) && step.Begin? && Enabled(s, step)
    ensures AppendInv(After(s, step))
  {
    var s' := After(s, step);
    forall k | k in s'.events ensures HasWriter(s'.txs, k) {
      assert HasWriter(s.txs, k);
      var t :| 0 <= t < |s.txs| && s.txs[t].phase.Committed? && InBatch(s.txs[t], k);
      assert s'.txs[t] == s.txs[t];
    }
    forall t | 0 <= t < |s'.txs| ensures TxOk(s', s'.txs[t]) {
      assert t < |s.txs| ==> TxOk(s, s.txs[t]);
    }
    forall t, u | 0 <= t < |s'.txs| && 0 <= u < |s'.txs| && t != u ensures Apart(s'.txs[t], s'.txs[u]) {
      assert t < |s.txs| && u < |s.txs| ==> Apart(s.txs[t], s.txs[u]);
    }
  }

  /** A step that only replaces one append, without touching the tables. */
  lemma ReplaceKeeps<E>(s: State<E>, t: nat, x: Tx<E>, nextId: nat)
    requires AppendInv(s) && t < |s.txs| && s.nextId <= nextId && !s.txs[t].phase.Committed?
    requires TxOk(s.(nextId := nextId), x)
    requires forall u | 0 <= u < |s.txs| && u != t :: Apart(x, s.txs[u]) && Apart(s.txs[u], x)
    ensures AppendInv(SetTx(s, t, x).(nextId := nextId))
  {
    var s' := SetTx(s, t, x).(nextId := nextId);
    forall k | k in s'.events ensures HasWriter(s'.txs, k) {
      assert HasWriter(s.txs, k);
      var u :| 0 <= u < |s.txs| && s.txs[u].phase.Committed? && InBatch(s.txs[u], k);
      assert s'.txs[u] == s.txs[u];
    }
    forall u | 0 <= u < |s'.txs| ensures TxOk(s', s'.txs[u]) {
      assert u != t ==> TxOk(s, s.txs[u]);
    }
  }

  /** Two appends that have both passed their head check cannot both insert: the key is the same. */
  lemma FirstRowExcludes<E>(s: State<E>, t: nat, u: nat)
    requires AppendInv(s) && t < |s.txs| && u < |s.txs| && t != u
    requires Enabled(s, InsertEvent(t)) && Writing(s.txs[u]) && s.txs[u].stream == s.txs[t].stream
    ensures KeyOf(s.txs[t].batch[s.txs[t].rows]) in s.events
  {
    var x, y := s.txs[t], s.txs[u];
    assert TxOk(s, x) && TxOk(s, y) && Apart(x, y);
    var k := KeyOf(x.batch[x.rows]);
    assert x.rows == 0 && k == Key(x.stream, x.expected + 1);
    assert KeyOf(y.batch[0]) == Key(y.stream, y.expected + 1);
    assert y.Holds(KeyOf(y.batch[0]));
    if k !in s.events {
      HeadIsUnique(s.events, x.stream, x.expected, y.expected);
      assert false;
    }
  }

  lemma InsertEventKeeps<E>(s: State<E>, t: nat)
    requires AppendInv(s) && Enabled(s, InsertEvent(t))
    ensures AppendInv(After(s, InsertEvent(t)))
  {
    var x := s.txs[t];
    assert TxOk(s, x);
    var k := KeyOf(x.batch[x.rows]);
    var x' := if k in s.events then x.(phase := Conflicted) else x.(rows := x.rows + 1);
    assert k == Key(x.stream, x.expected + x.rows + 1);
    forall u | 0 <= u < |s.txs| && u != t ensures Apart(x', s.txs[u]) && Apart(s.txs[u], x') {
      assert Apart(x, s.txs[u]) && Apart(s.txs[u], x);
      if Writing(s.txs[u]) && s.txs[u].stream == x.stream {
        FirstRowExcludes(s, t, u);
      }
    }
    ReplaceKeeps(s, t, x', s.nextId);
  }

  lemma InsertOutboxKeeps<E>(s: State<E>, t: nat)
    requires AppendInv(s) && Enabled(s, InsertOutbox(t))
    ensures AppendInv(After(s, InsertOutbox(t)))
  {
    var x := s.txs[t];
    assert TxOk(s, x);
    var x' := x.(ids := x.ids + [s.nextId]);
    forall u | 0 <= u < |s.txs| && u != t ensures Apart(x', s.txs[u]) && Apart(s.txs[u], x') {
      assert Apart(x, s.txs[u]) && Apart(s.txs[u], x) && TxOk(s, s.txs[u]);
    }
    ReplaceKeeps(s, t, x', s.nextId + 1);
  }

  /** HeadCheck, ReportError and Rollback change a phase only. */
  lemma PhaseKeeps<E>(s: State<E>, step: Step<E>)
    requires AppendInv(s) && Enabled(s, step) && (step.HeadCheck? || step.ReportError? || step.Rollback?)
    ensures AppendInv(After(s, step))
  {
    var x := s.txs[step.t];
    assert TxOk(s, x);
    var x' := After(s, step).txs[step.t];
    forall u | 0 <= u < |s.txs| && u != step.t ensures Apart(x', s.txs[u]) && Apart(s.txs[u], x') {
      assert Apart(x, s.txs[u]) && Apart(s.txs[u], x);
    }
    if step.HeadCheck? {
      HeadIsMax(s.events, x.stream, step.head);
    }
    ReplaceKeeps(s, step.t, x', s.nextId);
  }

  /** Steps of the dispatch side. */
  lemma SameTablesKeeps<E>(s: State<E>, s': State<E>)
    requires AppendInv(s) && s'.events == s.events && s'.outbox == s.outbox && s'.txs == s.txs && s.nextId <= s'.nextId
    ensures AppendInv(s')
  {
    forall t | 0 <= t < |s'.txs| ensures TxOk(s', s'.txs[t]) {
      assert TxOk(s, s.txs[t]);
    }
  }

  // ---------- The commit of an append ----------

  /** The commit of x added its rows to the events table, and nothing else. */
  ghost predicate GrownEvents<E>(events: map<Key, Envelope<E>>, events': map<Key, Envelope<E>>, x: Tx<E>) {
    && (forall k :: k in events' <==> k in events || InBatch(x, k))
    && (forall k | k in events :: !InBatch(x, k) && events'[k] == events[k])
    && (forall k {:trigger InBatch(x, k)} | InBatch(x, k) :: events'[k] == x.batch[k.sequence - x.expected - 1])
  }

  /** The commit of x added its rows to the outbox, and nothing else. */
  ghost predicate GrownOutbox<E>(outbox: map<nat, Envelope<E>>, outbox': map<nat, Envelope<E>>, x: Tx<E>) {
    && |x.ids| == |x.batch|
    && (forall i :: i in outbox' <==> i in outbox || i in x.ids)
    && (forall i | i in outbox :: i !in x.ids && outbox'[i] == outbox[i])
    && (forall j {:trigger x.ids[j]} | 0 <= j < |x.ids| :: outbox'[x.ids[j]] == x.batch[j])
  }

  ghost predicate Grown<E>(s: State<E>, s': State<E>, x: Tx<E>) {
    s'.nextId == s.nextId && GrownEvents(s.events, s'.events, x) && GrownOutbox(s.outbox, s'.outbox, x)
  }

  /** x is about to be applied. */
  ghost predicate Applicable<E>(s: State<E>, x: Tx<E>) {
    Tables(s) && TxOk(s, x) && x.Open() && x.Complete()
  }

  lemma ApplyGrowsEvents<E>(events: map<Key, Envelope<E>>, x: Tx<E>, events': map<Key, Envelope<E>>)
    requires EventsOk(events) && TxShape(x) && x.Complete() && HeadAt(events, x.stream, x.expected)
    requires events' == InsertRows(events, x.batch, |x.batch|)
    ensures GrownEvents(events, events', x)
  {
    InsertRowsAdds(events, x.stream, x.expected, x.batch, |x.batch|);
    BelowFree(events, x.stream, x.expected + 1);
    forall k | InBatch(x, k) ensures k in events' && events'[k] == x.batch[k.sequence - x.expected - 1] {
      assert k == KeyOf(x.batch[k.sequence - x.expected - 1]);
    }
  }

  lemma ApplyGrowsOutbox<E>(outbox: map<nat, Envelope<E>>, x: Tx<E>)
    requires Ascending(x.ids) && x.Complete() && forall j | 0 <= j < |x.ids| :: x.ids[j] !in outbox
    ensures GrownOutbox(outbox, InsertOutboxRows(outbox, x.ids, x.batch, |x.batch|), x)
  {
    InsertOutboxRowsAdds(outbox, x.ids, x.batch, |x.batch|);
    assert x.ids[..|x.batch|] == x.ids;
  }

  lemma ApplyGrows<E>(s: State<E>, t: nat, acknowledged: bool)
    requires t < |s.txs| && Applicable(s, s.txs[t])
    ensures Grown(s, ApplyAppend(s, t, acknowledged), s.txs[t])
  {
    var x := s.txs[t];
    ApplyGrowsEvents(s.events, x, ApplyAppend(s, t, acknowledged).events);
    ApplyGrowsOutbox(s.outbox, x);
  }

  lemma GrownKeepsEvents<E>(s: State<E>, s': State<E>, x: Tx<E>)
    requires Applicable(s, x) && Grown(s, s', x)
    ensures EventsOk(s'.events)
  {
    var last := Key(x.stream, x.expected);
    forall k | k in s'.events ensures Reached(s'.events, k) && KeyOf(s'.events[k]) == k && k.sequence >= 1 {
      assert k in s.events ==> Reached(s.events, k);
      assert last in s.events ==> Reached(s.events, last);
      forall n: nat | 1 <= n <= k.sequence ensures Key(k.stream, n) in s'.events {
        assert InBatch(x, k) && x.expected < n ==> InBatch(x, Key(k.stream, n));
        assert InBatch(x, k) && n <= x.expected ==> Key(last.stream, n) in s.events;
      }
    }
  }

  /** A row that the commit of x added to the outbox. */
  lemma NewRow<E>(outbox: map<nat, Envelope<E>>, outbox': map<nat, Envelope<E>>, x: Tx<E>, i: nat) returns (j: nat)
    requires TxShape(x) && GrownOutbox(outbox, outbox', x) && i in outbox' && i !in outbox
    ensures j < |x.ids| == |x.batch| && x.ids[j] == i && outbox'[i] == x.batch[j]
    ensures KeyOf(outbox'[i]) == Key(x.stream, x.expected + j + 1) && InBatch(x, KeyOf(outbox'[i]))
  {
    assert i in x.ids;
    j :| 0 <= j < |x.ids| && x.ids[j] == i;
  }

  lemma GrownKeepsRows<E>(
    events: map<Key, Envelope<E>>, events': map<Key, Envelope<E>>,
    outbox: map<nat, Envelope<E>>, outbox': map<nat, Envelope<E>>, x: Tx<E>)
    requires TxShape(x) && GrownEvents(events, events', x) && GrownOutbox(outbox, outbox', x) && RowsOk(events, outbox)
    ensures RowsOk(events', outbox')
  {
    forall i | i in outbox' ensures KeyOf(outbox'[i]) in events' && events'[KeyOf(outbox'[i])] == outbox'[i] {
      if i !in outbox {
        var j := NewRow(outbox, outbox', x, i);
      }
    }
  }

  lemma GrownKeepsHasRow<E>(
    events: map<Key, Envelope<E>>, events': map<Key, Envelope<E>>,
    outbox: map<nat, Envelope<E>>, outbox': map<nat, Envelope<E>>, x: Tx<E>, k: Key)
    requires TxShape(x) && GrownEvents(events, events', x) && GrownOutbox(outbox, outbox', x) && k in events'
    requires k in events ==> HasOutboxRow(events, outbox, k)
    ensures HasOutboxRow(events', outbox', k)
  {
    if k in events {
      var i :| i in outbox && outbox[i] == events[k];
      assert outbox'[i] == events'[k];
    } else {
      var j := k.sequence - x.expected - 1;
      assert InBatch(x, k);
      assert outbox'[x.ids[j]] == x.batch[j] && x.ids[j] in outbox';
    }
  }

  lemma GrownKeepsOutbox<E>(s: State<E>, s': State<E>, x: Tx<E>)
    requires Applicable(s, x) && Grown(s, s', x)
    ensures RowsOk(s'.events, s'.outbox) && forall i | i in s'.outbox :: i < s'.nextId
    ensures forall k {:trigger HasOutboxRow(s'.events, s'.outbox, k)} | k in s'.events ::
      HasOutboxRow(s'.events, s'.outbox, k)
  {
    assert RowsOk(s.events, s.outbox);
    GrownKeepsRows(s.events, s'.events, s.outbox, s'.outbox, x);
    forall k | k in s'.events ensures HasOutboxRow(s'.events, s'.outbox, k) {
      assert k in s.events ==> HasOutboxRow(s.events, s.outbox, k);
      GrownKeepsHasRow(s.events, s'.events, s.outbox, s'.outbox, x, k);
    }
  }

  lemma GrownKeepsOrder<E>(s: State<E>, s': State<E>, x: Tx<E>)
    requires Applicable(s, x) && Grown(s, s', x)
    ensures InStreamOrder(s'.outbox)
  {
    BelowFree(s.events, x.stream, x.expected + 1);
    assert RowsOk(s.events, s.outbox);
    forall i, j | i in s'.outbox && j in s'.outbox && i < j && s'.outbox[i].aggregateId == s'.outbox[j].aggregateId
      ensures s'.outbox[i].sequence < s'.outbox[j].sequence
    {
      NewRowsComeLast(s.outbox, s'.outbox, x, i, j);
      assert i in s.outbox ==> KeyOf(s.outbox[i]) in s.events;
    }
  }

  /** A row that the commit of x added comes after every row of its stream that has a lower id. */
  lemma NewRowsComeLast<E>(outbox: map<nat, Envelope<E>>, outbox': map<nat, Envelope<E>>, x: Tx<E>, i: nat, j: nat)
    requires TxShape(x) && GrownOutbox(outbox, outbox', x) && TxIds(outbox, x) && x.Open()
    requires i in outbox' && j in outbox' && i < j && outbox'[i].aggregateId == outbox'[j].aggregateId
    ensures j in outbox ==> i in outbox && outbox'[i] == outbox[i] && outbox'[j] == outbox[j]
    ensures j !in outbox ==> outbox'[j].aggregateId == x.stream && outbox'[j].sequence > x.expected
    ensures i in outbox ==> outbox'[i] == outbox[i]
    ensures i !in outbox ==> j !in outbox && outbox'[i].sequence < outbox'[j].sequence
  {
    if j !in outbox {
      var q := NewRow(outbox, outbox', x, j);
      if i !in outbox {
        var p := NewRow(outbox, outbox', x, i);
        assert p == q || p < q || q < p;
      }
    } else if i !in outbox {
      var p := NewRow(outbox, outbox', x, i);
      assert false;
    }
  }

  lemma GrownKeepsOther<E>(s: State<E>, s': State<E>, x: Tx<E>, y: Tx<E>)
    requires Applicable(s, x) && TxOk(s, y) && Apart(x, y) && Grown(s, s', x)
    ensures TxOk(s', y)
  {
    assert forall p | 0 <= p < |x.ids| :: KeyOf(x.batch[p]).stream == x.stream;
  }

  lemma GrownKeepsWriters<E>(s: State<E>, s': State<E>, t: nat)
    requires AppendInv(s) && t < |s.txs| && Grown(s, s', s.txs[t]) && !s.txs[t].phase.Committed?
    requires |s'.txs| == |s.txs| && s'.txs == s.txs[t := s'.txs[t]] && s'.txs[t].phase.Committed?
    requires forall k :: InBatch(s'.txs[t], k) <==> InBatch(s.txs[t], k)
    ensures forall k {:trigger HasWriter(s'.txs, k)} | k in s'.events :: HasWriter(s'.txs, k)
  {
    forall k | k in s'.events ensures HasWriter(s'.txs, k) {
      if k in s.events {
        assert HasWriter(s.txs, k);
        var u :| 0 <= u < |s.txs| && s.txs[u].phase.Committed? && InBatch(s.txs[u], k);
        assert s'.txs[u] == s.txs[u];
      } else {
        assert InBatch(s'.txs[t], k);
      }
    }
  }

  lemma GrownKeepsTxs<E>(s: State<E>, s': State<E>, t: nat, acknowledged: bool)
    requires AppendInv(s) && t < |s.txs| && Applicable(s, s.txs[t]) && Grown(s, s', s.txs[t])
    requires s'.txs == s.txs[t := s.txs[t].(phase := Committed(acknowledged))]
    ensures Txs(s')
  {
    var x := s.txs[t];
    forall u | 0 <= u < |s'.txs| ensures TxOk(s', s'.txs[u]) {
      if u != t {
        assert TxOk(s, s.txs[u]) && Apart(x, s.txs[u]);
        GrownKeepsOther(s, s', x, s.txs[u]);
      } else {
        GrownKeepsSelf(s, s', x, acknowledged);
      }
    }
    forall u, v | 0 <= u < |s'.txs| && 0 <= v < |s'.txs| && u != v ensures Apart(s'.txs[u], s'.txs[v]) {
      assert Apart(s.txs[u], s.txs[v]) && TxOk(s, s.txs[u]) && TxOk(s, s.txs[v]);
      GrownApart(s, x, s.txs[u]);
      GrownApart(s, x, s.txs[v]);
    }
  }

  /** What is committed already lies below the batch that is about to be applied. */
  lemma GrownApart<E>(s: State<E>, x: Tx<E>, y: Tx<E>)
    requires Applicable(s, x) && TxOk(s, y)
    ensures y.phase.Committed? && y.stream == x.stream ==> y.expected + |y.batch| <= x.expected
  {
    BelowFree(s.events, x.stream, x.expected + 1);
    assert InBatch(y, Key(y.stream, y.expected + |y.batch|));
  }

  lemma GrownKeepsSelf<E>(s: State<E>, s': State<E>, x: Tx<E>, acknowledged: bool)
    requires TxShape(x) && x.Complete() && (forall j | 0 <= j < |x.ids| :: x.ids[j] < s.nextId) && Grown(s, s', x)
    ensures TxOk(s', x.(phase := Committed(acknowledged)))
  {
    var x' := x.(phase := Committed(acknowledged));
    assert TxShape(x');
    GrownStores(s.events, s'.events, x, x');
    assert TxIds(s'.outbox, x');
  }

  lemma GrownStores<E>(events: map<Key, Envelope<E>>, events': map<Key, Envelope<E>>, x: Tx<E>, x': Tx<E>)
    requires GrownEvents(events, events', x) && x' == x.(phase := x'.phase)
    ensures Stored(events', x')
  {
    forall k | InBatch(x', k) ensures k in events' && events'[k] == x'.batch[k.sequence - x'.expected - 1] {
      assert InBatch(x, k);
    }
  }

  lemma ApplyKeeps<E>(s: State<E>, t: nat, acknowledged: bool)
    requires AppendInv(s) && t < |s.txs| && s.txs[t].Open() && s.txs[t].Complete()
    ensures AppendInv(ApplyAppend(s, t, acknowledged))
  {
    var x := s.txs[t];
    var s' := ApplyAppend(s, t, acknowledged);
    assert TxOk(s, x);
    ApplyGrows(s, t, acknowledged);
    GrownKeepsEvents(s, s', x);
    GrownKeepsOutbox(s, s', x);
    GrownKeepsOrder(s, s', x);
    GrownKeepsTxs(s, s', t, acknowledged);
    GrownKeepsWriters(s, s', t);
  }

  lemma OtherStepsKeepEvents<E>(s: State<E>, step: Step<E>)
    requires Enabled(s, step) && !step.CommitAppend? && !step.ServerCommit?
    ensures After(s, step).events == s.events && After(s, step).outbox == s.outbox
  {
  }

  // ---------- Every run ----------

  lemma StepKeepsAppendInv<E>(s: State<E>, step: Step<E>)
    requires AppendInv(s) && Enabled(s, step)
    ensures AppendInv(After(s, step))
  {
    match step
    case Begin(_, _, _) => BeginKeeps(s, step);
    case HeadCheck(_, _) => PhaseKeeps(s, step);
    case InsertEvent(t) => InsertEventKeeps(s, t);
    case InsertOutbox(t) => InsertOutboxKeeps(s, t);
    case CommitAppend(t) => ApplyKeeps(s, t, true);
    case ServerCommit(t) => ApplyKeeps(s, t, false);
    case ReportError(_) => PhaseKeeps(s, step);
    case Rollback(_) => PhaseKeeps(s, step);
    case _ => SameTablesKeeps(s, After(s, step));
  }

  lemma {:induction false} RunKeepsAppendInv<E>(bus: Bus, steps: seq<Step<E>>)
    requires Run(bus, steps).Some?
    ensures AppendInv(Run(bus, steps).value)
  {
    if steps != [] {
      RunKeepsAppendInv(bus, steps[..|steps| - 1]);
      StepKeepsAppendInv(Run(bus, steps[..|steps| - 1]).value, steps[|steps| - 1]);
    }
  }
}
