/** The durable tables of the outbox and the transactions that change them. */
module OutboxTables {
  import opened Events
  import opened Seqs

  type Key = string

  datatype RowKey = RowKey(dueMs: nat, id: EventId)

  datatype Tables = Tables(
    events: map<EventId, PersistedEnvelope>,
    refcount: map<EventId, nat>,
    scheduled: map<RowKey, PersistedEnvelope>,
    processedKeys: set<Key>,
    dlq: map<EventId, PersistedEnvelope>)

  /** What the outbox asks the registry: types by name, and how many subscriptions a type lists. */
  datatype Directory = Directory(names: map<string, TypeId>, listed: map<TypeId, nat>)

  function Count(d: Directory, typeId: TypeId): nat { if typeId in d.listed then d.listed[typeId] else 0 }

  /** The type an event row would be replayed as, if anyone subscribes to it. */
  function Replayable(d: Directory, row: PersistedEnvelope): Option<TypeId> {
    if row.typeName in d.names && Count(d, d.names[row.typeName]) > 0 then Some(d.names[row.typeName]) else None
  }

  predicate IsScheduled(e: Envelope, now: Nanos) {
    e.metadata.deliverAt.Some? && e.metadata.deliverAt.value > now
  }

  /** One event of a batch: nothing for an event without subscribers, or else its idempotency key
      and either a scheduled row or an event row with its count. */
  function WriteOne(d: Directory, now: Nanos, t: Tables, e: Envelope): Tables {
    var count := Count(d, e.typeId);
    if count == 0 then t
    else
      var id := e.metadata.eventId;
      var keyed := match e.metadata.idempotencyKey
                   case Some(k) => t.(processedKeys := t.processedKeys + {k})
                   case None => t;
      if IsScheduled(e, now)
      then keyed.(scheduled := keyed.scheduled[RowKey(Millis(e.metadata.deliverAt.value), id) := Persist(e)])
      else keyed.(events := keyed.events[id := Persist(e)], refcount := keyed.refcount[id := count])
  }

  function WriteAll(d: Directory, now: Nanos, t: Tables, es: seq<Envelope>): Tables {
    if es == [] then t else WriteOne(d, now, WriteAll(d, now, t, es[..|es| - 1]), es[|es| - 1])
  }

  datatype AckMessage = AckMessage(id: EventId, success: bool)

  /** One acknowledgement: the last one owed removes the row, after copying it to the dead letters
      if it reports a failure; an earlier one only lowers the count. */
  function Ack(t: Tables, a: AckMessage): Tables {
    if a.id !in t.refcount then t
    else if t.refcount[a.id] <= 1 then
      t.(refcount := t.refcount - {a.id},
         events := t.events - {a.id},
         dlq := if !a.success && a.id in t.events then t.dlq[a.id := t.events[a.id]] else t.dlq)
    else t.(refcount := t.refcount[a.id := t.refcount[a.id] - 1])
  }

  function AckAll(t: Tables, acks: seq<AckMessage>): Tables {
    if acks == [] then t else Ack(AckAll(t, acks[..|acks| - 1]), acks[|acks| - 1])
  }

  function ForId(id: EventId): AckMessage -> bool { (a: AckMessage) => a.id == id }

  /** What a sequence of acknowledgements does to one id depends only on those for that id. With
      `n` owed, fewer than `n` lower the count and leave the row; `n` or more remove row and count,
      and the n-th alone decides whether the dead letters get the row. */
  lemma {:induction false} AcksFold(t: Tables, acks: seq<AckMessage>, id: EventId)
    requires id in t.refcount && t.refcount[id] >= 1 && id in t.events
    ensures var mine := Filter(acks, ForId(id)); var after := AckAll(t, acks); var n := t.refcount[id];
      if |mine| < n then
        id in after.refcount && after.refcount[id] == n - |mine|
        && id in after.events && after.events[id] == t.events[id]
        && SameLetter(t, after, id)
      else
        id !in after.refcount && id !in after.events
        && if mine[n - 1].success then SameLetter(t, after, id)
           else id in after.dlq && after.dlq[id] == t.events[id]
  {
    if acks != [] {
      AcksFold(t, acks[..|acks| - 1], id);
    }
  }

  /** Acknowledgements for an event without a count change nothing about it. */
  lemma {:induction false} AcksOfUnknown(t: Tables, acks: seq<AckMessage>, id: EventId)
    requires id !in t.refcount || Filter(acks, ForId(id)) == []
    ensures SameRow(t, AckAll(t, acks), id)
  {
    if acks != [] {
      AcksOfUnknown(t, acks[..|acks| - 1], id);
    }
  }

  predicate SameLetter(t: Tables, u: Tables, id: EventId) {
    (id in t.dlq <==> id in u.dlq) && (id in t.dlq ==> t.dlq[id] == u.dlq[id])
  }

  predicate SameRow(t: Tables, u: Tables, id: EventId) {
    && (id in t.refcount <==> id in u.refcount) && (id in t.refcount ==> t.refcount[id] == u.refcount[id])
    && (id in t.events <==> id in u.events) && (id in t.events ==> t.events[id] == u.events[id])
    && SameLetter(t, u, id)
  }

  lemma AckFrame(t: Tables, a: AckMessage, id: EventId)
    requires id != a.id
    ensures SameRow(t, Ack(t, a), id)
  {
  }

  lemma AckLocal(t: Tables, u: Tables, a: AckMessage)
    requires SameRow(t, u, a.id)
    ensures SameRow(Ack(t, a), Ack(u, a), a.id)
  {
  }

  lemma {:induction false} AckOwn(t: Tables, acks: seq<AckMessage>, id: EventId)
    ensures SameRow(AckAll(t, acks), AckAll(t, Filter(acks, ForId(id))), id)
    ensures AckAll(t, acks).scheduled == t.scheduled && AckAll(t, acks).processedKeys == t.processedKeys
  {
    if acks != [] {
      var n := |acks| - 1;
      AckOwn(t, acks[..n], id);
      var mine := Filter(acks[..n], ForId(id));
      if acks[n].id == id {
        AckLocal(AckAll(t, acks[..n]), AckAll(t, mine), acks[n]);
        assert (mine + [acks[n]])[..|mine|] == mine;
      } else {
        assert mine + [] == mine;
        AckFrame(AckAll(t, acks[..n]), acks[n], id);
      }
    }
  }

  /** Only the order among acknowledgements of the same event matters: two sequences that agree on
      each event's own subsequence leave the same tables. */
  lemma AcksCommute(t: Tables, xs: seq<AckMessage>, ys: seq<AckMessage>)
    requires forall id :: Filter(xs, ForId(id)) == Filter(ys, ForId(id))
    ensures AckAll(t, xs) == AckAll(t, ys)
  {
    forall id ensures SameRow(AckAll(t, xs), AckAll(t, ys), id) {
      AckOwn(t, xs, id);
      AckOwn(t, ys, id);
      assert Filter(xs, ForId(id)) == Filter(ys, ForId(id));
    }
    AckOwn(t, xs, 0);
    AckOwn(t, ys, 0);
    SameTables(AckAll(t, xs), AckAll(t, ys));
  }

  lemma SameTables(t: Tables, u: Tables)
    requires t.scheduled == u.scheduled && t.processedKeys == u.processedKeys
    requires forall id :: SameRow(t, u, id)
    ensures t == u
  {
    forall id
      ensures (id in t.refcount <==> id in u.refcount) && (id in t.refcount ==> t.refcount[id] == u.refcount[id])
      ensures (id in t.events <==> id in u.events) && (id in t.events ==> t.events[id] == u.events[id])
      ensures (id in t.dlq <==> id in u.dlq) && (id in t.dlq ==> t.dlq[id] == u.dlq[id])
    {
      assert SameRow(t, u, id);
    }
    assert t.refcount == u.refcount;
    assert t.events == u.events;
    assert t.dlq == u.dlq;
  }
}
