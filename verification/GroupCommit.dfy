/** Group commit: a batch is filtered for duplicates, written in one transaction and then dispatched.
    Compared here with taking the same messages one at a time. */
module GroupCommit {
  import opened Events
  import opened Seqs
  import opened OutboxTables

  ghost predicate Carries(es: seq<Envelope>, k: Key) {
    exists i :: 0 <= i < |es| && es[i].metadata.idempotencyKey == Some(k)
  }

  /** A message is dropped when its key is on record or came earlier in the same batch. */
  ghost predicate Duplicate(processed: set<Key>, earlier: seq<Envelope>, e: Envelope) {
    e.metadata.idempotencyKey.Some?
    && (e.metadata.idempotencyKey.value in processed || Carries(earlier, e.metadata.idempotencyKey.value))
  }

  ghost function Dedupe(processed: set<Key>, batch: seq<Envelope>): seq<Envelope> {
    if batch == [] then []
    else
      var n := |batch| - 1;
      Dedupe(processed, batch[..n]) + (if Duplicate(processed, batch[..n], batch[n]) then [] else [batch[n]])
  }

  function DueNow(now: Nanos): Envelope -> bool { (e: Envelope) => !IsScheduled(e, now) }

  /** The tables after a batch, and the events then dispatched. */
  datatype Outcome = Outcome(tables: Tables, dispatched: seq<Envelope>)

  ghost function ProcessBatch(d: Directory, now: Nanos, t: Tables, batch: seq<Envelope>): Outcome {
    var valid := Dedupe(t.processedKeys, batch);
    Outcome(WriteAll(d, now, t, valid), Filter(valid, DueNow(now)))
  }

  /** The reference: every message is a batch of its own. */
  ghost function OneByOne(d: Directory, now: Nanos, t: Tables, es: seq<Envelope>): Outcome {
    if es == [] then Outcome(t, [])
    else
      var before := OneByOne(d, now, t, es[..|es| - 1]);
      var last := ProcessBatch(d, now, before.tables, [es[|es| - 1]]);
      Outcome(last.tables, before.dispatched + last.dispatched)
  }

  function HasSubscribers(d: Directory): Envelope -> bool { (e: Envelope) => Count(d, e.typeId) > 0 }

  /** What subscribers can see of an outcome: the tables, and the events dispatched to a type that
      lists anyone. */
  ghost predicate SameEffect(d: Directory, a: Outcome, b: Outcome) {
    a.tables == b.tables && Filter(a.dispatched, HasSubscribers(d)) == Filter(b.dispatched, HasSubscribers(d))
  }

  /** For each key not on record, if the first message carrying it has no subscribers then no later one has. */
  ghost predicate FirstDecides(d: Directory, processed: set<Key>, es: seq<Envelope>) {
    forall i, j :: 0 <= i < j < |es| && KeyOpens(processed, es, i) && SameKey(es[i], es[j]) && HasSubscribers(d)(es[j])
      ==> HasSubscribers(d)(es[i])
  }

  ghost predicate SameKey(x: Envelope, y: Envelope) {
    x.metadata.idempotencyKey.Some? && x.metadata.idempotencyKey == y.metadata.idempotencyKey
  }

  /** The i-th message is the first to carry its key, and the key is not on record. */
  ghost predicate KeyOpens(processed: set<Key>, es: seq<Envelope>, i: nat)
    requires i < |es|
  {
    es[i].metadata.idempotencyKey.Some? && !Duplicate(processed, es[..i], es[i])
  }

  lemma SingleBatch(d: Directory, now: Nanos, t: Tables, e: Envelope)
    ensures ProcessBatch(d, now, t, [e]) ==
      if e.metadata.idempotencyKey.Some? && e.metadata.idempotencyKey.value in t.processedKeys then Outcome(t, [])
      else Outcome(WriteOne(d, now, t, e), if IsScheduled(e, now) then [] else [e])
  {
    assert [e][..0] == [];
    assert Dedupe(t.processedKeys, []) == [];
    assert Dedupe(t.processedKeys, [e]) == if Duplicate(t.processedKeys, [], e) then [] else [e];
    assert WriteAll(d, now, t, [e]) == WriteOne(d, now, t, e);
    FilterPush([], e, DueNow(now));
  }

  /** The last message of a batch adds to the outcome of the others exactly when it is no duplicate. */
  lemma BatchStep(d: Directory, now: Nanos, t: Tables, batch: seq<Envelope>)
    requires batch != []
    ensures var n := |batch| - 1; var before := ProcessBatch(d, now, t, batch[..n]); var e := batch[n];
      ProcessBatch(d, now, t, batch) ==
        Extend(d, now, before, e, Duplicate(t.processedKeys, batch[..n], e))
  {
    var n := |batch| - 1;
    var valid := Dedupe(t.processedKeys, batch[..n]);
    if Duplicate(t.processedKeys, batch[..n], batch[n]) {
      assert valid + [] == valid;
    } else {
      assert (valid + [batch[n]])[..|valid|] == valid;
    }
  }

  /** Such a message is written: it is no duplicate and its type lists somebody. */
  ghost predicate Stores(d: Directory, t: Tables, batch: seq<Envelope>, k: nat) {
    k < |batch| && !Duplicate(t.processedKeys, batch[..k], batch[k])
    && batch[k].typeId in d.listed && d.listed[batch[k].typeId] > 0
  }

  /** What the rows of a message say: a scheduled row under its due millisecond and its id for an event
      whose time is still to come, else an event row and the count of subscriptions listed. */
  ghost predicate StoredAs(d: Directory, now: Nanos, t: Tables, e: Envelope) {
    var id, due := e.metadata.eventId, e.metadata.deliverAt;
    if due.Some? && due.value > now then
      var k := RowKey(due.value / 1_000_000, id);
      k in t.scheduled && IsRowOf(t.scheduled[k], e)
    else
      id in t.events && IsRowOf(t.events[id], e)
      && e.typeId in d.listed && id in t.refcount && t.refcount[id] == d.listed[e.typeId]
  }

  ghost predicate IsRowOf(row: PersistedEnvelope, e: Envelope) {
    row.typeName == e.typeName && row.metadata == e.metadata && row.payload == e.payload
  }

  /** Nothing of the event has changed. */
  ghost predicate Untouched(t: Tables, u: Tables, id: EventId) {
    && (id in u.events <==> id in t.events) && (id in t.events ==> u.events[id] == t.events[id])
    && (id in u.refcount <==> id in t.refcount) && (id in t.refcount ==> u.refcount[id] == t.refcount[id])
    && (forall k: RowKey :: k.id == id ==> (k in u.scheduled <==> k in t.scheduled))
    && (forall k: RowKey :: k.id == id && k in t.scheduled ==> u.scheduled[k] == t.scheduled[k])
  }

  lemma WriteStores(d: Directory, now: Nanos, t: Tables, e: Envelope)
    ensures e.typeId in d.listed && d.listed[e.typeId] > 0 ==> StoredAs(d, now, WriteOne(d, now, t, e), e)
  {
  }

  lemma WriteKeeps(d: Directory, now: Nanos, t: Tables, e: Envelope, f: Envelope)
    requires f.metadata.eventId != e.metadata.eventId
    ensures StoredAs(d, now, t, f) ==> StoredAs(d, now, WriteOne(d, now, t, e), f)
  {
  }

  lemma WriteSpares(d: Directory, now: Nanos, t: Tables, e: Envelope, id: EventId)
    requires Count(d, e.typeId) > 0 ==> e.metadata.eventId != id
    ensures Untouched(t, WriteOne(d, now, t, e), id) && WriteOne(d, now, t, e).dlq == t.dlq
  {
  }

  lemma UntouchedTwice(t: Tables, u: Tables, v: Tables, id: EventId)
    requires Untouched(t, u, id) && Untouched(u, v, id)
    ensures Untouched(t, v, id)
  {
  }

  /** Every message of a batch that is no duplicate and has subscribers is stored, unless a later one of
      the batch is for the same event. */
  lemma {:induction false} BatchStores(d: Directory, now: Nanos, t: Tables, batch: seq<Envelope>, k: nat)
    requires Stores(d, t, batch, k)
    requires forall m :: k < m < |batch| ==> batch[m].metadata.eventId != batch[k].metadata.eventId
    ensures StoredAs(d, now, ProcessBatch(d, now, t, batch).tables, batch[k])
  {
    hide ProcessBatch, StoredAs, Duplicate, WriteOne;
    var n := |batch| - 1;
    assert batch[..n][..k] == batch[..k];
    BatchStep(d, now, t, batch);
    var before := ProcessBatch(d, now, t, batch[..n]).tables;
    if k < n {
      BatchStores(d, now, t, batch[..n], k);
      WriteKeeps(d, now, before, batch[n], batch[k]);
    } else {
      WriteStores(d, now, before, batch[n]);
    }
  }

  lemma SparedBefore(d: Directory, t: Tables, batch: seq<Envelope>, id: EventId)
    requires batch != []
    requires forall k :: 0 <= k < |batch| && Stores(d, t, batch, k) ==> batch[k].metadata.eventId != id
    ensures var n := |batch| - 1;
      && (forall k :: 0 <= k < n && Stores(d, t, batch[..n], k) ==> batch[..n][k].metadata.eventId != id)
      && (!Duplicate(t.processedKeys, batch[..n], batch[n]) && Count(d, batch[n].typeId) > 0 ==>
            batch[n].metadata.eventId != id)
  {
    hide Duplicate;
    var n := |batch| - 1;
    forall k | 0 <= k < n && Stores(d, t, batch[..n], k) ensures batch[..n][k].metadata.eventId != id {
      assert batch[..n][..k] == batch[..k];
      assert Stores(d, t, batch, k);
    }
    assert Stores(d, t, batch, n) ==> batch[n].metadata.eventId != id;
  }

  /** An event without a message in the batch that is no duplicate and has subscribers stays as it was. */
  lemma {:induction false} BatchSpares(d: Directory, now: Nanos, t: Tables, batch: seq<Envelope>, id: EventId)
    requires forall k :: 0 <= k < |batch| && Stores(d, t, batch, k) ==> batch[k].metadata.eventId != id
    ensures Untouched(t, ProcessBatch(d, now, t, batch).tables, id)
    ensures ProcessBatch(d, now, t, batch).tables.dlq == t.dlq
  {
    hide Untouched, Duplicate, Stores, WriteOne;
    if batch == [] {
      assert Dedupe(t.processedKeys, batch) == [];
      Unchanged(t, id);
    } else {
      var n := |batch| - 1;
      SparedBefore(d, t, batch, id);
      BatchSpares(d, now, t, batch[..n], id);
      BatchStep(d, now, t, batch);
      hide ProcessBatch;
      var before := ProcessBatch(d, now, t, batch[..n]).tables;
      if !Duplicate(t.processedKeys, batch[..n], batch[n]) {
        WriteSpares(d, now, before, batch[n], id);
        UntouchedTwice(t, before, WriteOne(d, now, before, batch[n]), id);
      }
    }
  }

  lemma Unchanged(t: Tables, id: EventId)
    ensures Untouched(t, t, id)
  {
  }

  /** What a batch dispatches: every message that is no duplicate and whose time has come, and nothing
      else, in the order of the batch. */
  lemma {:induction false} BatchDispatches(d: Directory, now: Nanos, t: Tables, batch: seq<Envelope>)
    ensures var places := DispatchPlaces(t.processedKeys, now, batch);
      var sent := ProcessBatch(d, now, t, batch).dispatched;
      && |sent| == |places| && (forall i :: 0 <= i < |places| ==> places[i] < |batch| && sent[i] == batch[places[i]])
      && (forall i, j :: 0 <= i < j < |places| ==> places[i] < places[j])
      && (forall k: nat :: k in places <==> Dispatches(t.processedKeys, now, batch, k))
  {
    if batch == [] {
      assert Dedupe(t.processedKeys, batch) == [];
    } else {
      var n := |batch| - 1;
      BatchDispatches(d, now, t, batch[..n]);
      BatchStep(d, now, t, batch);
      hide ProcessBatch, Duplicate, WriteOne;
      forall k: nat | k < n
        ensures Dispatches(t.processedKeys, now, batch[..n], k) <==> Dispatches(t.processedKeys, now, batch, k)
      {
        assert batch[..n][..k] == batch[..k];
      }
    }
  }

  ghost predicate Dispatches(processed: set<Key>, now: Nanos, batch: seq<Envelope>, k: nat) {
    k < |batch| && !Duplicate(processed, batch[..k], batch[k])
    && (batch[k].metadata.deliverAt.None? || batch[k].metadata.deliverAt.value <= now)
  }

  ghost function DispatchPlaces(processed: set<Key>, now: Nanos, batch: seq<Envelope>): seq<nat> {
    if batch == [] then []
    else
      var n := |batch| - 1;
      DispatchPlaces(processed, now, batch[..n]) + (if Dispatches(processed, now, batch, n) then [n] else [])
  }

  /** Taking one more message alone. */
  lemma OneByOneStep(d: Directory, now: Nanos, t: Tables, es: seq<Envelope>)
    requires es != []
    ensures var n := |es| - 1; var before := OneByOne(d, now, t, es[..n]); var e := es[n];
      OneByOne(d, now, t, es) == Extend(d, now, before, e, OnRecord(before.tables.processedKeys, e))
  {
    var n := |es| - 1;
    var before := OneByOne(d, now, t, es[..n]);
    SingleBatch(d, now, before.tables, es[n]);
    assert before.dispatched + [] == before.dispatched;
  }

  predicate OnRecord(processed: set<Key>, e: Envelope) {
    e.metadata.idempotencyKey.Some? && e.metadata.idempotencyKey.value in processed
  }

  /** The i-th message carries the key and has subscribers. */
  predicate Records(d: Directory, es: seq<Envelope>, i: nat, k: Key)
    requires i < |es|
  {
    es[i].metadata.idempotencyKey == Some(k) && Count(d, es[i].typeId) > 0
  }

  /** The i-th message is the first to carry the key, and has subscribers. */
  ghost predicate Claims(d: Directory, processed: set<Key>, es: seq<Envelope>, i: nat, k: Key) {
    i < |es| && Records(d, es, i, k) && KeyOpens(processed, es, i)
  }

  lemma ClaimsStep(d: Directory, processed: set<Key>, es: seq<Envelope>, k: Key)
    requires es != []
    ensures var n := |es| - 1; (exists i :: Claims(d, processed, es, i, k)) <==>
      (exists i :: Claims(d, processed, es[..n], i, k)) || Claims(d, processed, es, n, k)
  {
    var n := |es| - 1;
    forall i: nat | i < n ensures Claims(d, processed, es, i, k) <==> Claims(d, processed, es[..n], i, k) {
      assert es[..n][..i] == es[..i];
    }
  }

  /** Which keys a batch puts on record: those whose first message has subscribers. */
  lemma {:induction false} BatchKeys(d: Directory, now: Nanos, t: Tables, batch: seq<Envelope>, k: Key)
    ensures k in ProcessBatch(d, now, t, batch).tables.processedKeys <==>
      k in t.processedKeys || exists i :: Claims(d, t.processedKeys, batch, i, k)
  {
    if batch != [] {
      var n := |batch| - 1;
      BatchKeys(d, now, t, batch[..n], k);
      BatchStep(d, now, t, batch);
      ClaimsStep(d, t.processedKeys, batch, k);
      ExtendKeys(d, now, ProcessBatch(d, now, t, batch[..n]), batch[n],
        Duplicate(t.processedKeys, batch[..n], batch[n]), k);
    }
  }

  lemma ExtendKeys(d: Directory, now: Nanos, o: Outcome, e: Envelope, drop: bool, k: Key)
    ensures k in Extend(d, now, o, e, drop).tables.processedKeys <==>
      k in o.tables.processedKeys || (!drop && Count(d, e.typeId) > 0 && e.metadata.idempotencyKey == Some(k))
  {
  }

  /** One at a time, a key goes on record with the first message that has subscribers. */
  lemma {:induction false} OneByOneKeys(d: Directory, now: Nanos, t: Tables, es: seq<Envelope>, k: Key)
    ensures k in OneByOne(d, now, t, es).tables.processedKeys <==>
      k in t.processedKeys || exists i :: 0 <= i < |es| && Records(d, es, i, k)
  {
    if es != [] {
      var n := |es| - 1;
      OneByOneKeys(d, now, t, es[..n], k);
      OneByOneStep(d, now, t, es);
      var before := OneByOne(d, now, t, es[..n]);
      ExtendKeys(d, now, before, es[n], OnRecord(before.tables.processedKeys, es[n]), k);
      assert forall i :: 0 <= i < n ==> (Records(d, es, i, k) <==> Records(d, es[..n], i, k));
      assert Records(d, es, n, k) <==> Count(d, es[n].typeId) > 0 && es[n].metadata.idempotencyKey == Some(k);
    }
  }

  /** The keys on record after a batch contain no key whose first message had no subscribers, those
      after taking messages one at a time do as soon as a later one has. So equal effects need the
      first message to decide, and that is also enough. */
  lemma {:induction false} BatchIsOneByOne(d: Directory, now: Nanos, t: Tables, batch: seq<Envelope>)
    ensures SameEffect(d, ProcessBatch(d, now, t, batch), OneByOne(d, now, t, batch))
      <==> FirstDecides(d, t.processedKeys, batch)
  {
    if FirstDecides(d, t.processedKeys, batch) {
      FirstDecidesSuffices(d, now, t, batch);
    } else {
      var i, j :| 0 <= i < j < |batch| && KeyOpens(t.processedKeys, batch, i) && SameKey(batch[i], batch[j])
        && HasSubscribers(d)(batch[j]) && !HasSubscribers(d)(batch[i]);
      var k := batch[i].metadata.idempotencyKey.value;
      assert Records(d, batch, j, k);
      OneByOneKeys(d, now, t, batch, k);
      BatchKeys(d, now, t, batch, k);
      if x :| Claims(d, t.processedKeys, batch, x, k) {
        OpensOnce(t.processedKeys, batch, i, x);
      }
    }
  }

  /** Two messages with the same key cannot both be the first to carry it. */
  lemma OpensOnce(processed: set<Key>, es: seq<Envelope>, i: nat, j: nat)
    requires i < |es| && j < |es| && KeyOpens(processed, es, i) && KeyOpens(processed, es, j) && SameKey(es[i], es[j])
    ensures i == j
  {
  }

  lemma {:induction false} FirstDecidesSuffices(d: Directory, now: Nanos, t: Tables, batch: seq<Envelope>)
    requires FirstDecides(d, t.processedKeys, batch)
    ensures SameEffect(d, ProcessBatch(d, now, t, batch), OneByOne(d, now, t, batch))
  {
    if batch != [] {
      var n := |batch| - 1;
      FirstDecidesBefore(d, t.processedKeys, batch);
      FirstDecidesSuffices(d, now, t, batch[..n]);
      BatchStep(d, now, t, batch);
      OneByOneStep(d, now, t, batch);
      LastAgrees(d, now, t, batch);
      EffectStep(d, now, ProcessBatch(d, now, t, batch[..n]), OneByOne(d, now, t, batch[..n]), batch[n],
        Duplicate(t.processedKeys, batch[..n], batch[n]),
        OnRecord(OneByOne(d, now, t, batch[..n]).tables.processedKeys, batch[n]));
    }
  }

  /** The outcome with one more message taken, or dropped. */
  ghost function Extend(d: Directory, now: Nanos, o: Outcome, e: Envelope, drop: bool): Outcome {
    if drop then o
    else Outcome(WriteOne(d, now, o.tables, e), o.dispatched + (if IsScheduled(e, now) then [] else [e]))
  }

  lemma EffectStep(d: Directory, now: Nanos, a: Outcome, b: Outcome, e: Envelope, dropA: bool, dropB: bool)
    requires SameEffect(d, a, b) && (HasSubscribers(d)(e) ==> dropA == dropB)
    ensures SameEffect(d, Extend(d, now, a, e, dropA), Extend(d, now, b, e, dropB))
  {
    FilterPush(a.dispatched, e, HasSubscribers(d));
    FilterPush(b.dispatched, e, HasSubscribers(d));
    assert a.dispatched + [] == a.dispatched && b.dispatched + [] == b.dispatched;
    assert Filter(a.dispatched, HasSubscribers(d)) + [] == Filter(a.dispatched, HasSubscribers(d));
  }

  lemma FirstDecidesBefore(d: Directory, processed: set<Key>, es: seq<Envelope>)
    requires es != [] && FirstDecides(d, processed, es)
    ensures FirstDecides(d, processed, es[..|es| - 1])
  {
    var n := |es| - 1;
    forall i | 0 <= i < n ensures KeyOpens(processed, es[..n], i) <==> KeyOpens(processed, es, i) {
      assert es[..n][..i] == es[..i];
    }
  }

  /** The last message is a duplicate in the batch exactly when its key is on record one at a time,
      unless it has no subscribers, when it makes no difference. */
  lemma LastAgrees(d: Directory, now: Nanos, t: Tables, batch: seq<Envelope>)
    requires batch != [] && FirstDecides(d, t.processedKeys, batch)
    ensures var n := |batch| - 1; HasSubscribers(d)(batch[n]) ==>
      (Duplicate(t.processedKeys, batch[..n], batch[n])
       <==> OnRecord(OneByOne(d, now, t, batch[..n]).tables.processedKeys, batch[n]))
  {
    var n := |batch| - 1;
    var e := batch[n];
    if HasSubscribers(d)(e) && e.metadata.idempotencyKey.Some? {
      var k := e.metadata.idempotencyKey.value;
      OneByOneKeys(d, now, t, batch[..n], k);
      if k !in t.processedKeys && Carries(batch[..n], k) {
        var i := FirstCarrier(t.processedKeys, batch, n, k);
        assert SameKey(batch[i], batch[n]);
        assert Records(d, batch[..n], i, k);
      }
    }
  }

  lemma {:induction false} FirstCarrier(processed: set<Key>, es: seq<Envelope>, n: nat, k: Key) returns (i: nat)
    requires n <= |es| && Carries(es[..n], k) && k !in processed
    ensures i < n && es[i].metadata.idempotencyKey == Some(k) && KeyOpens(processed, es, i)
  {
    assert forall x :: 0 <= x < n - 1 ==> es[..n - 1][x] == es[..n][x];
    if Carries(es[..n - 1], k) {
      i := FirstCarrier(processed, es, n - 1, k);
    } else {
      i := n - 1;
      var j :| 0 <= j < n && es[..n][j].metadata.idempotencyKey == Some(k);
    }
  }

  /** Messages sharing a key agree on whether they have subscribers. */
  ghost predicate KeysAgree(d: Directory, es: seq<Envelope>) {
    forall i, j :: 0 <= i < |es| && 0 <= j < |es| && SameKey(es[i], es[j]) ==>
      (HasSubscribers(d)(es[i]) <==> HasSubscribers(d)(es[j]))
  }

  ghost function Flatten(batches: seq<seq<Envelope>>): seq<Envelope> {
    if batches == [] then [] else Flatten(batches[..|batches| - 1]) + batches[|batches| - 1]
  }

  /** A stream taken in the given batches, one transaction each. */
  ghost function InBatches(d: Directory, now: Nanos, t: Tables, batches: seq<seq<Envelope>>): Outcome {
    if batches == [] then Outcome(t, [])
    else
      var before := InBatches(d, now, t, batches[..|batches| - 1]);
      var last := ProcessBatch(d, now, before.tables, batches[|batches| - 1]);
      Outcome(last.tables, before.dispatched + last.dispatched)
  }

  ghost function Then(a: Outcome, b: Outcome): Outcome {
    Outcome(b.tables, a.dispatched + b.dispatched)
  }

  lemma {:induction false} OneByOneConcat(d: Directory, now: Nanos, t: Tables, xs: seq<Envelope>, ys: seq<Envelope>)
    ensures OneByOne(d, now, t, xs + ys) ==
      Then(OneByOne(d, now, t, xs), OneByOne(d, now, OneByOne(d, now, t, xs).tables, ys))
  {
    hide ProcessBatch, Extend;
    var first := OneByOne(d, now, t, xs);
    if ys == [] {
      assert xs + ys == xs;
      assert first.dispatched + [] == first.dispatched;
    } else {
      var n := |ys| - 1;
      var second := OneByOne(d, now, first.tables, ys[..n]);
      OneByOneConcat(d, now, t, xs, ys[..n]);
      OneByOneStep(d, now, first.tables, ys);
      assert (xs + ys)[..|xs + ys| - 1] == xs + ys[..n];
      OneByOneStep(d, now, t, xs + ys);
      ExtendThen(d, now, first, second, ys[n], OnRecord(second.tables.processedKeys, ys[n]));
    }
  }

  lemma ExtendThen(d: Directory, now: Nanos, a: Outcome, b: Outcome, e: Envelope, drop: bool)
    ensures Extend(d, now, Then(a, b), e, drop) == Then(a, Extend(d, now, b, e, drop))
  {
    assert a.dispatched + b.dispatched + [] == a.dispatched + b.dispatched;
    assert a.dispatched + b.dispatched + [e] == a.dispatched + (b.dispatched + [e]);
  }

  lemma AgreementSplits(d: Directory, xs: seq<Envelope>, last: seq<Envelope>, processed: set<Key>)
    requires KeysAgree(d, xs + last)
    ensures KeysAgree(d, xs) && FirstDecides(d, processed, last)
  {
    var all := xs + last;
    assert forall i :: 0 <= i < |xs| ==> all[i] == xs[i];
    assert forall i :: 0 <= i < |last| ==> all[|xs| + i] == last[i];
  }

  /** However a stream falls into batches, and whatever their sizes, the tables and the deliveries are
      those of taking its messages one at a time. */
  lemma {:induction false} BatchingIsInvisible(d: Directory, now: Nanos, t: Tables, batches: seq<seq<Envelope>>)
    requires KeysAgree(d, Flatten(batches))
    ensures SameEffect(d, InBatches(d, now, t, batches), OneByOne(d, now, t, Flatten(batches)))
  {
    if batches != [] {
      var n := |batches| - 1;
      var xs, last := Flatten(batches[..n]), batches[n];
      hide KeysAgree, FirstDecides, ProcessBatch, OneByOne;
      var before := OneByOne(d, now, t, xs);
      AgreementSplits(d, xs, last, before.tables.processedKeys);
      BatchingIsInvisible(d, now, t, batches[..n]);
      OneByOneConcat(d, now, t, xs, last);
      BatchIsOneByOne(d, now, before.tables, last);
      var inBatches := InBatches(d, now, t, batches[..n]);
      FilterConcat(inBatches.dispatched, ProcessBatch(d, now, before.tables, last).dispatched, HasSubscribers(d));
      FilterConcat(before.dispatched, OneByOne(d, now, before.tables, last).dispatched, HasSubscribers(d));
    }
  }

  /** Without that agreement batching shows: a message that nobody subscribes to takes its key into
      the batch and hides a later one, which alone would be written. */
  lemma BatchingShows(d: Directory, now: Nanos, t: Tables, unheard: Envelope, heard: Envelope)
    requires Count(d, unheard.typeId) == 0 && Count(d, heard.typeId) > 0
    requires SameKey(unheard, heard) && heard.metadata.idempotencyKey.value !in t.processedKeys
    ensures ProcessBatch(d, now, t, [unheard, heard]).tables == t
    ensures heard.metadata.idempotencyKey.value in OneByOne(d, now, t, [unheard, heard]).tables.processedKeys
  {
    var es := [unheard, heard];
    assert es[..1] == [unheard];
    BatchStep(d, now, t, es);
    SingleBatch(d, now, t, unheard);
    assert Carries(es[..1], heard.metadata.idempotencyKey.value) by {
      assert es[..1][0].metadata.idempotencyKey == Some(heard.metadata.idempotencyKey.value);
    }
    OneByOneKeys(d, now, t, es, heard.metadata.idempotencyKey.value);
    assert Records(d, es, 1, heard.metadata.idempotencyKey.value);
  }
}
