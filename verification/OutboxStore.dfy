/** The tables as the workers of the outbox change them. */
module OutboxStore {
  import opened Events
  import opened Seqs
  import opened Sorting
  import opened OutboxTables
  import opened GroupCommit

  const MAX_BATCH: nat := 1000

  function ByDue(): (RowKey, RowKey) -> bool {
    (a: RowKey, b: RowKey) => a.dueMs < b.dueMs || (a.dueMs == b.dueMs && a.id < b.id)
  }

  function ById(): (EventId, EventId) -> bool { (a: EventId, b: EventId) => a < b }

  /** The scheduled rows whose time has come. */
  ghost function DueKeys(scheduled: map<RowKey, PersistedEnvelope>, nowMs: nat): set<RowKey> {
    set k | k in scheduled && k.dueMs <= nowMs
  }

  function Rows<K>(table: map<K, PersistedEnvelope>, keys: seq<K>): seq<PersistedEnvelope>
    requires InTable(keys, table)
  {
    seq(|keys|, i requires 0 <= i < |keys| => table[keys[i]])
  }

  class RedbStore {
    var events: map<EventId, PersistedEnvelope>
    var refcount: map<EventId, nat>
    var scheduled: map<RowKey, PersistedEnvelope>
    var processedKeys: set<Key>
    var dlq: map<EventId, PersistedEnvelope>

    function View(): Tables
      reads this
    {
      Tables(events, refcount, scheduled, processedKeys, dlq)
    }

    constructor ()
      ensures View() == Tables(map[], map[], map[], {}, map[])
    {
      events, refcount, scheduled, processedKeys, dlq := map[], map[], map[], {}, map[];
    }

    /** The acknowledgement worker: one transaction per message, until its channel is empty. */
    method DrainAcks(acks: seq<AckMessage>)
      modifies this
      ensures View() == AckAll(old(View()), acks)
    {
      for i := 0 to |acks|
        invariant View() == AckAll(old(View()), acks[..i])
      {
        assert acks[..i + 1][..i] == acks[..i];
        ApplyAck(acks[i]);
      }
      assert acks[..|acks|] == acks;
    }

    method ApplyAck(a: AckMessage)
      modifies this
      ensures View() == Ack(old(View()), a)
    {
      if a.id in refcount {
        var current := refcount[a.id];
        if current <= 1 {
          refcount := refcount - {a.id};
          if !a.success && a.id in events {
            dlq := dlq[a.id := events[a.id]];
          }
          events := events - {a.id};
        } else {
          refcount := refcount[a.id := current - 1];
        }
      }
    }

    /** Takes what is queued, up to the batch limit, starting with the message that woke the worker. */
    method TakeBatch(queue: seq<Envelope>) returns (batch: seq<Envelope>, rest: seq<Envelope>)
      requires queue != []
      ensures queue == batch + rest
      ensures 1 <= |batch| <= 1000 && (rest != [] ==> |batch| == 1000)
    {
      batch, rest := [queue[0]], queue[1..];
      while |batch| < MAX_BATCH
        invariant queue == batch + rest && 1 <= |batch| <= MAX_BATCH
        decreases MAX_BATCH - |batch|
      {
        if rest == [] {
          break;
        }
        batch, rest := batch + [rest[0]], rest[1..];
      }
    }

    /** Filters a batch for duplicates, writes it in one transaction and lists what is to be dispatched:
        a message that is no duplicate gets its row, event row or scheduled row, if it has subscribers and
        no later message of the batch is for the same event; it is dispatched if its time has come; and
        nothing else changes. */
    method CommitBatch(d: Directory, now: Nanos, batch: seq<Envelope>) returns (dispatched: seq<Envelope>)
      modifies this
      ensures Outcome(View(), dispatched) == ProcessBatch(d, now, old(View()), batch)
      ensures forall k: nat ::
        Stores(d, old(View()), batch, k)
        && (forall m :: k < m < |batch| ==> batch[m].metadata.eventId != batch[k].metadata.eventId) ==>
          StoredAs(d, now, View(), batch[k])
      ensures forall id ::
        (forall k :: 0 <= k < |batch| && Stores(d, old(View()), batch, k) ==> batch[k].metadata.eventId != id) ==>
          Untouched(old(View()), View(), id)
      ensures dlq == old(dlq)
      ensures forall e :: e in dispatched <==>
        exists k: nat :: k < |batch| && Dispatches(old(processedKeys), now, batch, k) && batch[k] == e
    {
      var valid := DropDuplicates(batch);
      for i := 0 to |valid|
        invariant View() == WriteAll(d, now, old(View()), valid[..i])
      {
        assert valid[..i + 1][..i] == valid[..i];
        WriteRow(d, now, valid[i]);
      }
      assert valid[..|valid|] == valid;
      dispatched := Select(valid, DueNow(now));
      BatchMeans(d, now, old(View()), batch);
    }

    method DropDuplicates(batch: seq<Envelope>) returns (valid: seq<Envelope>)
      ensures valid == Dedupe(processedKeys, batch)
    {
      valid := [];
      var batchKeys: set<Key> := {};
      for i := 0 to |batch|
        invariant valid == Dedupe(processedKeys, batch[..i])
        invariant forall k :: k in batchKeys <==> Carries(batch[..i], k) && k !in processedKeys
      {
        assert batch[..i + 1][..i] == batch[..i];
        CarriesStep(batch[..i], batch[i]);
        var isDuplicate := false;
        if batch[i].metadata.idempotencyKey.Some? {
          var key := batch[i].metadata.idempotencyKey.value;
          isDuplicate := key in batchKeys || key in processedKeys;
          if !isDuplicate {
            batchKeys := batchKeys + {key};
          }
        }
        if !isDuplicate {
          valid := valid + [batch[i]];
        }
        assert batch[..i + 1] == batch[..i] + [batch[i]];
      }
      assert batch[..|batch|] == batch;
    }

    lemma CarriesStep(es: seq<Envelope>, e: Envelope)
      ensures forall k :: Carries(es + [e], k) <==> Carries(es, k) || e.metadata.idempotencyKey == Some(k)
    {
      assert (es + [e])[|es|] == e;
      assert forall i :: 0 <= i < |es| ==> (es + [e])[i] == es[i];
    }

    method WriteRow(d: Directory, now: Nanos, e: Envelope)
      modifies this
      ensures View() == WriteOne(d, now, old(View()), e)
    {
      var count := Count(d, e.typeId);
      if count > 0 {
        var id := e.metadata.eventId;
        if e.metadata.idempotencyKey.Some? {
          processedKeys := processedKeys + {e.metadata.idempotencyKey.value};
        }
        if IsScheduled(e, now) {
          scheduled := scheduled[RowKey(Millis(e.metadata.deliverAt.value), id) := Persist(e)];
        } else {
          events := events[id := Persist(e)];
          refcount := refcount[id := count];
        }
      }
    }

    /** One tick of the scheduler: reads the table in order up to the first row that is not due, and
        takes out what it read. That is the whole of what is due, in order. */
    method PullScheduled(nowMs: nat) returns (keys: seq<RowKey>, ready: seq<PersistedEnvelope>)
      modifies this`scheduled
      ensures Lists(keys, DueKeys(old(scheduled), nowMs), ByDue())
      ensures InTable(keys, old(scheduled)) && ready == Rows(old(scheduled), keys)
      ensures scheduled == old(scheduled) - DueKeys(old(scheduled), nowMs)
      ensures forall k :: k in scheduled <==> k in old(scheduled) && k.dueMs > nowMs
      ensures forall k :: k in scheduled ==> scheduled[k] == old(scheduled)[k]
      ensures forall k :: k in keys <==> k in old(scheduled) && k.dueMs <= nowMs
      ensures forall i, j :: 0 <= i < j < |keys| ==>
        keys[i].dueMs < keys[j].dueMs || (keys[i].dueMs == keys[j].dueMs && keys[i].id < keys[j].id)
    {
      keys, ready := ScanDue(scheduled, nowMs);
      assert (set k | k in keys) == DueKeys(scheduled, nowMs);
      scheduled := scheduled - (set k | k in keys);
      forall i, j | 0 <= i < j < |keys|
        ensures keys[i].dueMs < keys[j].dueMs || (keys[i].dueMs == keys[j].dueMs && keys[i].id < keys[j].id)
      {
        assert ByDue()(keys[i], keys[j]);
      }
    }

    /** Empties the dead letters, then offers each row of a known type to a queue with some room
        left. Every such row is counted, whether the queue takes it or not. */
    method ReplayDlq(d: Directory, room: nat) returns (order: seq<EventId>, sent: seq<Envelope>, count: nat)
      modifies this`dlq
      ensures dlq == map[]
      ensures Lists(order, old(dlq).Keys, ById()) && InTable(order, old(dlq))
      ensures var known := KnownRows(d, Rows(old(dlq), order));
        count == |known| && sent == known[..if room < |known| then room else |known|]
      ensures var known := Filter(Rows(old(dlq), order), KnownType(d));
        && count == |known| && |sent| == (if room < |known| then room else |known|)
        && forall i :: 0 <= i < |sent| ==> RestoredAs(d, known[i], sent[i])
      ensures forall i, j :: 0 <= i < j < |order| ==> order[i] < order[j]
    {
      order := Iterate(dlq.Keys, ById());
      OrderInTable(order, dlq, ById());
      var rows := Rows(dlq, order);
      dlq := map[];
      sent, count := Offer(d, room, rows);
      KnownRowsMean(d, rows);
      ByIdAscends(order);
    }

    /** Puts every event row that is owed an acknowledgement and whose type still has subscribers back
        in the queue, unchanged, and removes the others with their counts. */
    method ReplayPending(d: Directory) returns (order: seq<EventId>, sent: seq<Envelope>)
      modifies this`events, this`refcount
      ensures Lists(order, LiveRows(d, old(View())), ById()) && InTable(order, old(events))
      ensures Restorable(d, Rows(old(events), order)) && sent == RestoreAll(d, Rows(old(events), order))
      ensures View() == Collected(d, old(View()))
      ensures AllCounted(old(View())) ==>
        forall all :: Lists(all, old(events).Keys, ById()) && InTable(all, old(events)) ==>
          sent == FlatMap(Rows(old(events), all), RestoredFor(d))
      ensures forall id :: id in events <==>
        id in old(events)
        && !(id in old(refcount)
             && (old(refcount)[id] == 0
                 || !(old(events)[id].typeName in d.names && d.names[old(events)[id].typeName] in d.listed
                      && d.listed[d.names[old(events)[id].typeName]] > 0)))
      ensures forall id :: id in events ==> events[id] == old(events)[id]
      ensures forall id :: id in refcount <==> id in old(refcount) && (id in old(events) ==> id in events)
      ensures forall id :: id in refcount ==> refcount[id] == old(refcount)[id]
      ensures |sent| == |order| && forall i, j :: 0 <= i < j < |order| ==> order[i] < order[j]
      ensures forall id :: id in order <==> id in events && id in refcount
      ensures forall i :: 0 <= i < |order| ==>
        var row := old(events)[order[i]];
        && row.typeName in d.names && sent[i].typeId == d.names[row.typeName]
        && sent[i].typeName == row.typeName && sent[i].metadata == row.metadata && sent[i].payload == row.payload
    {
      var dead;
      order, sent, dead := ScanPending(d, View());
      forall all | AllCounted(View()) && Lists(all, events.Keys, ById()) && InTable(all, events)
        ensures sent == FlatMap(Rows(events, all), RestoredFor(d))
      {
        PendingIsAll(d, View(), order, all);
      }
      events := events - dead;
      refcount := refcount - dead;
      ByIdAscends(order);
      forall id | id in old(events)
        ensures Replayable(d, old(events)[id]).Some? <==>
          old(events)[id].typeName in d.names && d.names[old(events)[id].typeName] in d.listed
          && d.listed[d.names[old(events)[id].typeName]] > 0
      {
      }
    }
  }

  lemma BatchMeans(d: Directory, now: Nanos, t: Tables, batch: seq<Envelope>)
    ensures var outcome := ProcessBatch(d, now, t, batch);
      && (forall k: nat ::
            k < |batch| && Stores(d, t, batch, k)
            && (forall m :: k < m < |batch| ==> batch[m].metadata.eventId != batch[k].metadata.eventId) ==>
              StoredAs(d, now, outcome.tables, batch[k]))
      && (forall id ::
            (forall k :: 0 <= k < |batch| && Stores(d, t, batch, k) ==> batch[k].metadata.eventId != id) ==>
              Untouched(t, outcome.tables, id))
      && outcome.tables.dlq == t.dlq
      && (forall e :: e in outcome.dispatched <==>
            exists k: nat :: k < |batch| && Dispatches(t.processedKeys, now, batch, k) && batch[k] == e)
  {
    hide ProcessBatch, StoredAs, Untouched, Stores;
    var outcome := ProcessBatch(d, now, t, batch);
    forall k: nat
      | k < |batch| && Stores(d, t, batch, k)
        && forall m :: k < m < |batch| ==> batch[m].metadata.eventId != batch[k].metadata.eventId
      ensures StoredAs(d, now, outcome.tables, batch[k])
    {
      BatchStores(d, now, t, batch, k);
    }
    forall id
      | forall k :: 0 <= k < |batch| && Stores(d, t, batch, k) ==> batch[k].metadata.eventId != id
      ensures Untouched(t, outcome.tables, id)
    {
      BatchSpares(d, now, t, batch, id);
    }
    DlqSpared(d, now, t, batch);
    DispatchedMembers(d, now, t, batch);
  }

  lemma DlqSpared(d: Directory, now: Nanos, t: Tables, batch: seq<Envelope>)
    ensures ProcessBatch(d, now, t, batch).tables.dlq == t.dlq
  {
    WriteAllDlq(d, now, t, Dedupe(t.processedKeys, batch));
  }

  lemma {:induction false} WriteAllDlq(d: Directory, now: Nanos, t: Tables, es: seq<Envelope>)
    ensures WriteAll(d, now, t, es).dlq == t.dlq
  {
    if es != [] {
      WriteAllDlq(d, now, t, es[..|es| - 1]);
    }
  }

  lemma DispatchedMembers(d: Directory, now: Nanos, t: Tables, batch: seq<Envelope>)
    ensures forall e :: e in ProcessBatch(d, now, t, batch).dispatched <==>
      exists k: nat :: k < |batch| && Dispatches(t.processedKeys, now, batch, k) && batch[k] == e
  {
    hide ProcessBatch;
    var sent, places := ProcessBatch(d, now, t, batch).dispatched, DispatchPlaces(t.processedKeys, now, batch);
    BatchDispatches(d, now, t, batch);
    forall k: nat | k < |batch| && Dispatches(t.processedKeys, now, batch, k) ensures batch[k] in sent {
      var i :| 0 <= i < |places| && places[i] == k;
      assert sent[i] == batch[k];
    }
    forall i | 0 <= i < |sent|
      ensures exists k: nat :: k < |batch| && Dispatches(t.processedKeys, now, batch, k) && batch[k] == sent[i]
    {
      assert places[i] in places;
      assert Dispatches(t.processedKeys, now, batch, places[i]);
    }
  }

  lemma ByIdAscends(order: seq<EventId>)
    requires Ascending(order, ById())
    ensures forall i, j :: 0 <= i < j < |order| ==> order[i] < order[j]
  {
    forall i, j | 0 <= i < j < |order| ensures order[i] < order[j] {
      assert ById()(order[i], order[j]);
    }
  }

  lemma ByDueOrders()
    ensures StrictOrder(ByDue())
  {
    forall x, y ensures ByDue()(x, y) || ByDue()(y, x) || x == y {
      assert x == RowKey(x.dueMs, x.id) && y == RowKey(y.dueMs, y.id);
    }
  }

  ghost predicate InTable<K, V>(keys: seq<K>, table: map<K, V>) {
    forall i :: 0 <= i < |keys| ==> keys[i] in table
  }

  lemma OrderInTable<K(!new), V>(order: seq<K>, table: map<K, V>, before: (K, K) -> bool)
    requires Lists(order, table.Keys, before)
    ensures InTable(order, table)
  {
    forall i | 0 <= i < |order| ensures order[i] in table {
      assert order[i] in order;
    }
  }

  method ScanDue(table: map<RowKey, PersistedEnvelope>, nowMs: nat)
    returns (keys: seq<RowKey>, ready: seq<PersistedEnvelope>)
    ensures Lists(keys, DueKeys(table, nowMs), ByDue())
    ensures InTable(keys, table) && ready == Rows(table, keys)
  {
    ByDueOrders();
    var order := Iterate(table.Keys, ByDue());
    OrderInTable(order, table, ByDue());
    var i;
    i, ready := TakeDue(order, table, nowMs);
    keys := order[..i];
    PrefixIsDue(order, table, i, nowMs);
  }

  method TakeDue(order: seq<RowKey>, table: map<RowKey, PersistedEnvelope>, nowMs: nat)
    returns (i: nat, ready: seq<PersistedEnvelope>)
    requires InTable(order, table)
    ensures i <= |order| && ready == Rows(table, order[..i])
    ensures forall j :: 0 <= j < i ==> order[j].dueMs <= nowMs
    ensures i < |order| ==> order[i].dueMs > nowMs
  {
    i, ready := 0, [];
    while i < |order| && order[i].dueMs <= nowMs
      invariant i <= |order| && ready == Rows(table, order[..i])
      invariant forall j :: 0 <= j < i ==> order[j].dueMs <= nowMs
    {
      ready := ready + [table[order[i]]];
      i := i + 1;
    }
  }

  /** Adding a row at the end. */
  lemma RestorePush(d: Directory, table: map<EventId, PersistedEnvelope>, keys: seq<EventId>, id: EventId)
    requires InTable(keys, table) && Restorable(d, Rows(table, keys))
    requires id in table && Replayable(d, table[id]).Some?
    ensures InTable(keys + [id], table)
    ensures Rows(table, keys + [id]) == Rows(table, keys) + [table[id]]
    ensures Restorable(d, Rows(table, keys + [id]))
    ensures RestoreAll(d, Rows(table, keys + [id])) ==
      RestoreAll(d, Rows(table, keys)) + [Restore(Replayable(d, table[id]).value, table[id])]
  {
    var rows := Rows(table, keys);
    assert forall i :: 0 <= i < |keys| ==> (keys + [id])[i] == keys[i];
    assert Rows(table, keys + [id]) == rows + [table[id]];
    forall i | 0 <= i <= |rows| ensures Replayable(d, (rows + [table[id]])[i]).Some? {
      if i < |rows| {
        assert (rows + [table[id]])[i] == rows[i];
      }
    }
  }

  lemma PrefixIsDue(order: seq<RowKey>, table: map<RowKey, PersistedEnvelope>, i: nat, nowMs: nat)
    requires Lists(order, table.Keys, ByDue()) && i <= |order|
    requires forall j :: 0 <= j < i ==> order[j].dueMs <= nowMs
    requires i < |order| ==> order[i].dueMs > nowMs
    ensures Lists(order[..i], DueKeys(table, nowMs), ByDue())
  {
    forall j | i < j < |order| ensures order[j].dueMs > nowMs {
      assert ByDue()(order[i], order[j]);
    }
    forall k ensures k in order[..i] <==> k in DueKeys(table, nowMs) {
      assert k in table <==> k in order;
      assert k in order[..i] ==> k in order;
    }
  }

  function Strip(row: PersistedEnvelope): PersistedEnvelope {
    row.(metadata := row.metadata.(deliverAt := None))
  }

  /** The message made of a row by the scheduler, and by a replay of pending rows, if anyone subscribes. */
  function SentFor(d: Directory): PersistedEnvelope -> seq<Envelope> {
    (row: PersistedEnvelope) =>
      match Replayable(d, row) case Some(typeId) => [Restore(typeId, Strip(row))] case None => []
  }

  function RestoredFor(d: Directory): PersistedEnvelope -> seq<Envelope> {
    (row: PersistedEnvelope) =>
      match Replayable(d, row) case Some(typeId) => [Restore(typeId, row)] case None => []
  }

  function HasTaker(d: Directory): PersistedEnvelope -> bool { (row: PersistedEnvelope) => Replayable(d, row).Some? }

  /** What the scheduler does with the rows it took out: those whose type still has subscribers go to
      the queue, in order and without their delivery time. The others are gone. */
  method SendReady(d: Directory, ready: seq<PersistedEnvelope>) returns (sent: seq<Envelope>)
    ensures var taken := Filter(ready, HasTaker(d));
      |sent| == |taken| && forall i :: 0 <= i < |taken| ==> SentAs(d, taken[i], sent[i])
    ensures forall i :: 0 <= i < |ready| ==>
      var name := ready[i].typeName;
      HasTaker(d)(ready[i]) <==> name in d.names && d.names[name] in d.listed && d.listed[d.names[name]] > 0
    ensures sent == FlatMap(ready, SentFor(d))
  {
    sent := [];
    for i := 0 to |ready|
      invariant |sent| == |Filter(ready[..i], HasTaker(d))| && sent == FlatMap(ready[..i], SentFor(d))
      invariant forall j :: 0 <= j < |sent| ==> SentAs(d, Filter(ready[..i], HasTaker(d))[j], sent[j])
    {
      assert ready[..i + 1][..i] == ready[..i];
      match Replayable(d, ready[i]) {
        case Some(typeId) => sent := sent + [Restore(typeId, Strip(ready[i]))];
        case None =>
      }
    }
    assert ready[..|ready|] == ready;
  }

  /** The event is the row's, under the type's current identity, and is never scheduled again. */
  ghost predicate SentAs(d: Directory, row: PersistedEnvelope, e: Envelope) {
    && e.typeName == row.typeName && e.payload == row.payload
    && e.metadata == row.metadata.(deliverAt := None)
    && row.typeName in d.names && e.typeId == d.names[row.typeName]
    && forall now :: !IsScheduled(e, now)
  }

  method Offer(d: Directory, room: nat, rows: seq<PersistedEnvelope>) returns (sent: seq<Envelope>, count: nat)
    ensures var known := KnownRows(d, rows);
      count == |known| && sent == known[..if room < |known| then room else |known|]
  {
    sent, count := [], 0;
    for i := 0 to |rows|
      invariant count == |KnownRows(d, rows[..i])|
      invariant sent == KnownRows(d, rows[..i])[..if room < count then room else count]
    {
      assert rows[..i + 1][..i] == rows[..i];
      if rows[i].typeName in d.names {
        if |sent| < room {
          sent := sent + [Restore(d.names[rows[i].typeName], rows[i])];
        }
        count := count + 1;
      }
    }
    assert rows[..|rows|] == rows;
  }

  method ScanPending(d: Directory, t: Tables)
    returns (order: seq<EventId>, sent: seq<Envelope>, dead: set<EventId>)
    ensures Lists(order, LiveRows(d, t), ById()) && InTable(order, t.events)
    ensures Restorable(d, Rows(t.events, order)) && sent == RestoreAll(d, Rows(t.events, order))
    ensures dead == DeadRows(d, t)
  {
    var all := Iterate(t.events.Keys, ById());
    OrderInTable(all, t.events, ById());
    order, sent, dead := [], [], {};
    for i := 0 to |all|
      invariant Lists(order, LiveRows(d, t) * Taken(all, i), ById())
      invariant InTable(order, t.events) && Restorable(d, Rows(t.events, order))
      invariant sent == RestoreAll(d, Rows(t.events, order))
      invariant dead == DeadRows(d, t) * Taken(all, i)
    {
      var id := all[i];
      assert Taken(all, i + 1) == Taken(all, i) + {id};
      if id in t.refcount && t.refcount[id] > 0 {
        match Replayable(d, t.events[id]) {
          case Some(typeId) =>
            forall j | 0 <= j < |order| ensures ById()(order[j], id) {
              assert order[j] in order;
              var k :| 0 <= k < i && all[k] == order[j];
            }
            RestorePush(d, t.events, order, id);
            order := order + [id];
            sent := sent + [Restore(typeId, t.events[id])];
          case None =>
            dead := dead + {id};
        }
      } else if id in t.refcount {
        dead := dead + {id};
      }
    }
    assert LiveRows(d, t) * Taken(all, |all|) == LiveRows(d, t);
    assert DeadRows(d, t) * Taken(all, |all|) == DeadRows(d, t);
  }

  /** Every event row is owed an acknowledgement. */
  ghost predicate AllCounted(t: Tables) {
    forall id :: id in t.events ==> id in t.refcount && t.refcount[id] > 0
  }

  /** Among all event rows, in their order, those are restored whose type has subscribers. */
  lemma PendingIsAll(d: Directory, t: Tables, order: seq<EventId>, all: seq<EventId>)
    requires AllCounted(t) && Lists(all, t.events.Keys, ById()) && InTable(all, t.events)
    requires Lists(order, LiveRows(d, t), ById()) && InTable(order, t.events)
    requires Restorable(d, Rows(t.events, order))
    ensures RestoreAll(d, Rows(t.events, order)) == FlatMap(Rows(t.events, all), RestoredFor(d))
  {
    var live := (id: EventId) => id in LiveRows(d, t);
    var picked := Filter(all, live);
    forall i, j | 0 <= i < j < |picked| ensures ById()(picked[i], picked[j]) {
      FilterOrdered(all, live, i, j);
    }
    forall id ensures id in picked <==> id in order {
      if id in picked {
        var k :| 0 <= k < |picked| && picked[k] == id;
        var i := FilterFrom(all, live, k);
      }
      if id in order {
        var i :| 0 <= i < |all| && all[i] == id;
        var k := FilterComplete(all, live, i);
      }
    }
    AscendingUnique(picked, order);
    LiveRestored(d, t, all);
  }

  lemma {:induction false} AscendingUnique(xs: seq<EventId>, ys: seq<EventId>)
    requires Ascending(xs, ById()) && Ascending(ys, ById()) && forall id :: id in xs <==> id in ys
    ensures xs == ys
  {
    assert forall i :: 0 <= i < |xs| ==> xs[i] in ys;
    assert forall i :: 0 <= i < |ys| ==> ys[i] in xs;
    if xs != [] {
      assert xs[0] in ys && ys[0] in xs;
      forall i | 0 < i < |xs| ensures ById()(xs[0], xs[i]) {
      }
      forall i | 0 < i < |ys| ensures ById()(ys[0], ys[i]) {
      }
      forall id ensures id in xs[1..] <==> id in ys[1..] {
        assert id in xs[1..] ==> id in xs && id != xs[0];
        assert id in ys[1..] ==> id in ys && id != ys[0];
        assert id in xs && id != xs[0] ==> id in xs[1..];
        assert id in ys && id != ys[0] ==> id in ys[1..];
      }
      AscendingUnique(xs[1..], ys[1..]);
      assert xs == [xs[0]] + xs[1..] && ys == [ys[0]] + ys[1..];
    }
  }

  lemma {:induction false} LiveRestored(d: Directory, t: Tables, all: seq<EventId>)
    requires AllCounted(t) && InTable(all, t.events)
    ensures var picked := Filter(all, (id: EventId) => id in LiveRows(d, t));
      && InTable(picked, t.events) && Restorable(d, Rows(t.events, picked))
      && RestoreAll(d, Rows(t.events, picked)) == FlatMap(Rows(t.events, all), RestoredFor(d))
  {
    if all != [] {
      var n := |all| - 1;
      LiveRestored(d, t, all[..n]);
      assert Rows(t.events, all)[..n] == Rows(t.events, all[..n]);
      var before := Filter(all[..n], (id: EventId) => id in LiveRows(d, t));
      if Replayable(d, t.events[all[n]]).Some? {
        RestorePush(d, t.events, before, all[n]);
      } else {
        assert before + [] == before;
      }
    }
  }

  function Taken(all: seq<EventId>, n: nat): set<EventId>
    requires n <= |all|
  {
    set k | 0 <= k < n :: all[k]
  }

  /** The events of the rows whose type the registry knows. */
  ghost function KnownRows(d: Directory, rows: seq<PersistedEnvelope>): seq<Envelope> {
    if rows == [] then []
    else
      var row := rows[|rows| - 1];
      KnownRows(d, rows[..|rows| - 1]) + (if row.typeName in d.names then [Restore(d.names[row.typeName], row)] else [])
  }

  /** The registry knows a type of this name. */
  function KnownType(d: Directory): PersistedEnvelope -> bool {
    (row: PersistedEnvelope) => row.typeName in d.names
  }

  ghost predicate RestoredAs(d: Directory, row: PersistedEnvelope, e: Envelope) {
    && row.typeName in d.names && e.typeId == d.names[row.typeName]
    && e.typeName == row.typeName && e.metadata == row.metadata && e.payload == row.payload
  }

  /** The rows whose type is known, each with all it holds, in their order. */
  lemma {:induction false} KnownRowsMean(d: Directory, rows: seq<PersistedEnvelope>)
    ensures var known := Filter(rows, KnownType(d));
      |KnownRows(d, rows)| == |known| && forall i :: 0 <= i < |known| ==> RestoredAs(d, known[i], KnownRows(d, rows)[i])
  {
    if rows != [] {
      KnownRowsMean(d, rows[..|rows| - 1]);
    }
  }

  /** A replay of dead letters offers all of them to the queue exactly when the registry knows every
      type and the queue has room for every row. Which of them come back to a table is another matter. */
  lemma {:induction false} LettersOffered(d: Directory, room: nat, rows: seq<PersistedEnvelope>)
    ensures var known := KnownRows(d, rows);
      |known[..if room < |known| then room else |known|]| == |rows|
      <==> room >= |rows| && forall i :: 0 <= i < |rows| ==> rows[i].typeName in d.names
  {
    KnownSize(d, rows);
  }

  lemma {:induction false} KnownSize(d: Directory, rows: seq<PersistedEnvelope>)
    ensures |KnownRows(d, rows)| <= |rows|
    ensures |KnownRows(d, rows)| == |rows| <==> forall i :: 0 <= i < |rows| ==> rows[i].typeName in d.names
  {
    if rows != [] {
      KnownSize(d, rows[..|rows| - 1]);
    }
  }

  predicate Restorable(d: Directory, rows: seq<PersistedEnvelope>) {
    forall i :: 0 <= i < |rows| ==> Replayable(d, rows[i]).Some?
  }

  function RestoreAll(d: Directory, rows: seq<PersistedEnvelope>): seq<Envelope>
    requires Restorable(d, rows)
  {
    seq(|rows|, i requires 0 <= i < |rows| => Restore(Replayable(d, rows[i]).value, rows[i]))
  }

  /** The event rows owed an acknowledgement whose type has subscribers, and the other counted rows. */
  ghost function LiveRows(d: Directory, t: Tables): set<EventId> {
    set id | id in t.events && id in t.refcount && t.refcount[id] > 0 && Replayable(d, t.events[id]).Some?
  }

  ghost function DeadRows(d: Directory, t: Tables): set<EventId> {
    set id | id in t.events && id in t.refcount && (t.refcount[id] == 0 || Replayable(d, t.events[id]).None?)
  }

  ghost function Collected(d: Directory, t: Tables): Tables {
    t.(events := t.events - DeadRows(d, t), refcount := t.refcount - DeadRows(d, t))
  }
}
