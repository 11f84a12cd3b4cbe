/** What holds of every event in every run of the outbox, doubled or not: all its messages and rows say the
    same, a scheduled event is nowhere else, and event rows and counts pair up. */
module OutboxSteady {
  import opened Events
  import opened Sorting
  import opened OutboxTables
  import opened GroupCommit
  import opened OutboxStore
  import opened OutboxProtocol
  import opened OutboxSteps

  /** What messages and rows of an event say: what was published and, once the scheduler has sent it,
      without the delivery time. */
  function Version(s: System, id: EventId): PersistedEnvelope
    requires id in s.published
  {
    if id in s.pulled then Strip(s.published[id]) else s.published[id]
  }

  ghost predicate IsVersion(s: System, row: PersistedEnvelope) {
    RowId(row) in s.published && row == Version(s, RowId(row))
  }

  /** A message or row of the event that is no longer to be scheduled. */
  ghost predicate Settled(s: System, row: PersistedEnvelope) { IsVersion(s, row) && NotBefore(row.metadata, s.now) }

  ghost predicate SettledTable(s: System, table: map<EventId, PersistedEnvelope>) {
    forall id :: id in table ==> RowId(table[id]) == id && Settled(s, table[id])
  }

  ghost predicate SettledRows(s: System, rows: seq<PersistedEnvelope>) {
    forall i :: 0 <= i < |rows| ==> Settled(s, rows[i])
  }

  /** Two queued messages of one event are both due. */
  ghost predicate QueueAgrees(s: System, queue: seq<Envelope>) {
    && (forall i :: 0 <= i < |queue| ==> IsVersion(s, Persist(queue[i])))
    && (forall i, j :: 0 <= i < j < |queue| && Id(queue[i]) == Id(queue[j]) ==> NotBefore(queue[i].metadata, s.now))
  }

  /** The event was published and is neither sent by the scheduler nor anywhere else. */
  ghost predicate Reserved(s: System, id: EventId) {
    && id in s.published && id !in s.pulled && id !in s.doubled
    && id !in s.t.events && id !in s.t.dlq && NoneFor(s.rest, id) && NoneFor(s.letters, id) && NotQueued(s.queue, id)
  }

  ghost predicate NotQueued(queue: seq<Envelope>, id: EventId) {
    forall i :: 0 <= i < |queue| ==> Id(queue[i]) != id
  }

  ghost predicate ScheduledWell(s: System, k: RowKey)
    requires k in s.t.scheduled
  {
    Reserved(s, k.id) && NoneFor(s.ready, k.id) && FiledUnder(k, s.t.scheduled[k])
    && s.t.scheduled[k] == s.published[k.id]
  }

  predicate Due(row: PersistedEnvelope, now: Nanos) {
    row.metadata.deliverAt.Some? && Millis(row.metadata.deliverAt.value) <= Millis(now)
  }

  ghost predicate ReadyWell(s: System, row: PersistedEnvelope) {
    Reserved(s, RowId(row)) && row == s.published[RowId(row)] && Due(row, s.now)
  }

  ghost predicate Awaited(s: System) {
    && (forall k :: k in s.t.scheduled ==> ScheduledWell(s, k))
    && (forall i :: 0 <= i < |s.ready| ==> ReadyWell(s, s.ready[i]))
    && (forall i, j :: 0 <= i < j < |s.ready| ==> RowId(s.ready[i]) != RowId(s.ready[j]))
  }

  ghost predicate History(s: System) {
    && (forall id :: id in s.published ==> RowId(s.published[id]) == id)
    && s.pulled <= s.published.Keys && s.doubled <= s.published.Keys
    && (forall id :: id in s.doubled ==> NotBefore(Version(s, id).metadata, s.now))
  }

  /** What is about to be dispatched is due, and what was published but for the delivery time. */
  ghost predicate TodoWell(s: System) {
    forall i :: 0 <= i < |s.todo| ==> NotBefore(s.todo[i].metadata, s.now) && AsPublished(s, s.todo[i])
  }

  ghost predicate AsPublished(s: System, e: Envelope) {
    Id(e) in s.published && Strip(Persist(e)) == Strip(s.published[Id(e)])
  }

  ghost predicate Steady(s: System) {
    && Counted(s.t) && History(s)
    && SettledTable(s, s.t.events) && SettledTable(s, s.t.dlq)
    && SettledRows(s, s.rest) && SettledRows(s, s.letters)
    && QueueAgrees(s, s.queue) && TodoWell(s) && Awaited(s)
  }

  lemma InitialSteady(s: System)
    requires Initial(s)
    ensures Steady(s)
  {
  }

  // ---------- Publishing and batches ----------

  lemma PublishSteady(s: System, e: Envelope)
    requires Steady(s) && Id(e) !in s.published
    ensures Steady(AfterPublish(s, e))
  {
    var u := AfterPublish(s, e);
    forall k | k in u.t.scheduled ensures ScheduledWell(u, k) {
      assert ScheduledWell(s, k);
    }
    forall i | 0 <= i < |u.ready| ensures ReadyWell(u, u.ready[i]) {
      assert ReadyWell(s, s.ready[i]);
    }
  }

  lemma DropSteady(s: System)
    requires Steady(s) && s.queue != []
    ensures Steady(TakeOne(s, true))
  {
    var u := TakeOne(s, true);
    assert forall i :: 0 <= i < |u.queue| ==> u.queue[i] == s.queue[i + 1];
  }

  /** An event that is still to be scheduled is nowhere but in this one message. */
  lemma FutureReserved(s: System)
    requires Steady(s) && s.queue != [] && IsScheduled(s.queue[0], s.now)
    ensures var u := TakeOne(s, true); var id := Id(s.queue[0]);
      Reserved(u, id) && NoneFor(s.ready, id) && Persist(s.queue[0]) == s.published[id]
  {
    var e := s.queue[0];
    assert IsVersion(s, Persist(e));
    var u := TakeOne(s, true);
    forall i | 0 <= i < |u.queue| ensures Id(u.queue[i]) != Id(e) {
      assert u.queue[i] == s.queue[i + 1];
    }
    forall i | 0 <= i < |s.rest| ensures RowId(s.rest[i]) != Id(e) {
      assert Settled(s, s.rest[i]);
    }
    forall i | 0 <= i < |s.letters| ensures RowId(s.letters[i]) != Id(e) {
      assert Settled(s, s.letters[i]);
    }
    forall i | 0 <= i < |s.ready| ensures RowId(s.ready[i]) != Id(e) {
      assert ReadyWell(s, s.ready[i]);
    }
  }

  lemma ScheduleSteady(s: System)
    requires Steady(s) && s.queue != [] && IsScheduled(s.queue[0], s.now)
    ensures Steady(TakeOne(s, false))
  {
    var e, u, v := s.queue[0], TakeOne(s, true), TakeOne(s, false);
    DropSteady(s);
    FutureReserved(s);
    assert s.todo + [] == s.todo;
    hide Steady, Reserved, QueueAgrees, SettledRows, SettledTable, TodoWell, History;
    AddSchedule(u, v.t, e);
  }

  lemma AddSchedule(s: System, t: Tables, e: Envelope)
    requires Steady(s) && Reserved(s, Id(e)) && NoneFor(s.ready, Id(e)) && Persist(e) == s.published[Id(e)]
    requires e.metadata.deliverAt.Some?
    requires t == s.t.(processedKeys := t.processedKeys) || t == s.t.(processedKeys := t.processedKeys,
      scheduled := s.t.scheduled[RowKey(Millis(e.metadata.deliverAt.value), Id(e)) := Persist(e)])
    ensures Steady(s.(t := t))
  {
    var u := s.(t := t);
    forall k | k in t.scheduled ensures ScheduledWell(u, k) {
      if k in s.t.scheduled {
        assert ScheduledWell(s, k);
      }
    }
    assert forall i :: 0 <= i < |s.ready| ==> ReadyWell(s, s.ready[i]);
  }

  /** The tables may take in an event that is not to be scheduled. */
  lemma TablesSteady(s: System, u: System, more: set<EventId>)
    requires Steady(s) && u == s.(t := u.t, todo := u.todo, acks := u.acks, dead := u.dead)
    requires u.t.scheduled == s.t.scheduled && TodoWell(u) && Counted(u.t)
    requires SettledTable(u, u.t.events) && SettledTable(u, u.t.dlq)
    requires u.t.events.Keys + u.t.dlq.Keys <= s.t.events.Keys + s.t.dlq.Keys + more
    requires (forall k :: k in s.t.scheduled ==> k.id !in more) && forall id :: id in more ==> NoneFor(s.ready, id)
    ensures Steady(u)
  {
    hide SettledTable, Counted, TodoWell, NoneFor, NotQueued;
    forall k | k in u.t.scheduled ensures ScheduledWell(u, k) {
      assert ScheduledWell(s, k);
    }
    forall i | 0 <= i < |u.ready| ensures ReadyWell(u, u.ready[i]) {
      assert ReadyWell(s, s.ready[i]);
      NotReady(s, more, i);
    }
  }

  lemma NotReady(s: System, more: set<EventId>, i: nat)
    requires i < |s.ready| && forall id :: id in more ==> NoneFor(s.ready, id)
    ensures RowId(s.ready[i]) !in more
  {
  }

  lemma QueuedApart(s: System)
    requires Steady(s) && s.queue != []
    ensures (forall k :: k in s.t.scheduled ==> k.id != Id(s.queue[0])) && NoneFor(s.ready, Id(s.queue[0]))
  {
    forall k | k in s.t.scheduled ensures k.id != Id(s.queue[0]) {
      assert ScheduledWell(s, k);
    }
    forall i | 0 <= i < |s.ready| ensures RowId(s.ready[i]) != Id(s.queue[0]) {
      assert ReadyWell(s, s.ready[i]);
    }
  }

  lemma WriteSettled(s: System, e: Envelope)
    requires Counted(s.t) && SettledTable(s, s.t.events) && SettledTable(s, s.t.dlq)
    requires Settled(s, Persist(e)) && !IsScheduled(e, s.now)
    ensures var t := WriteOne(s.d, s.now, s.t, e);
      && t.scheduled == s.t.scheduled && Counted(t) && SettledTable(s, t.events) && SettledTable(s, t.dlq)
      && t.events.Keys + t.dlq.Keys <= s.t.events.Keys + s.t.dlq.Keys + {Id(e)}
  {
    hide Settled, SettledTable;
    WriteCounts(s.d, s.now, s.t, e);
    if Count(s.d, e.typeId) > 0 {
      RowSettles(s, s.t.events, Persist(e));
    }
  }

  lemma WriteCounts(d: Directory, now: Nanos, t: Tables, e: Envelope)
    requires Counted(t)
    ensures Counted(WriteOne(d, now, t, e))
  {
  }

  lemma RowSettles(s: System, table: map<EventId, PersistedEnvelope>, row: PersistedEnvelope)
    requires SettledTable(s, table) && Settled(s, row)
    ensures SettledTable(s, table[RowId(row) := row])
  {
  }

  lemma WriteSteady(s: System)
    requires Steady(s) && s.queue != [] && !IsScheduled(s.queue[0], s.now)
    ensures Steady(TakeOne(s, false))
  {
    var e, u, v := s.queue[0], TakeOne(s, true), TakeOne(s, false);
    assert Settled(u, Persist(e)) by { assert IsVersion(s, Persist(e)); }
    DropSteady(s);
    QueuedApart(s);
    WriteSettled(u, e);
    assert TodoWell(v) by {
      assert forall i :: 0 <= i < |u.todo| ==> v.todo[i] == s.todo[i] && AsPublished(s, s.todo[i]);
      assert AsPublished(v, e);
    }
    hide Settled, Awaited, QueueAgrees, SettledRows, History, Counted, TodoWell, WriteOne;
    SameVersions(u, v);
    TablesSteady(u, v, {Id(e)});
  }

  lemma SameVersions(s: System, u: System)
    requires u.published == s.published && u.pulled == s.pulled && u.now == s.now
    ensures forall row :: Settled(s, row) <==> Settled(u, row)
  {
  }

  lemma {:induction false} BatchSteady(s: System, n: nat)
    requires Steady(s) && n <= |s.queue|
    ensures Steady(AfterBatch(s, n))
  {
    hide Steady, ProcessBatch, Duplicate;
    if n == 0 {
      EmptyBatch(s);
      WrittenAside(s, AfterBatch(s, 0));
    } else {
      BatchSteady(s, n - 1);
      BatchTakes(s, n);
      var u, drop := AfterBatch(s, n - 1), Duplicate(s.t.processedKeys, s.queue[..n - 1], s.queue[n - 1]);
      assert u.queue[0] == s.queue[n - 1];
      if drop {
        DropSteady(u);
      } else if IsScheduled(u.queue[0], u.now) {
        ScheduleSteady(u);
      } else {
        WriteSteady(u);
      }
      WrittenAside(TakeOne(u, drop), AfterBatch(s, n));
    }
  }

  lemma EmptyBatch(s: System)
    ensures AfterBatch(s, 0).(written := s.written) == s
  {
    assert s.queue[..0] == [] && s.queue[0..] == s.queue && s.todo + [] == s.todo;
    assert Dedupe(s.t.processedKeys, s.queue[..0]) == [];
  }

  lemma WrittenAside(s: System, u: System)
    requires Steady(s) && u.(written := s.written) == s
    ensures Steady(u)
  {
  }

  // ---------- The other steps ----------

  lemma AckSteady(s: System)
    requires Steady(s) && s.acks != []
    ensures Steady(AfterAck(s))
  {
    hide Settled, Awaited, QueueAgrees, SettledRows, History;
    SameVersions(s, AfterAck(s));
    TablesSteady(s, AfterAck(s), {});
  }

  lemma CollectSteady(s: System)
    requires Steady(s)
    ensures Steady(AfterReplay(s))
  {
    hide Settled, Awaited, QueueAgrees, SettledRows, History;
    SameVersions(s, AfterReplay(s));
    TablesSteady(s, AfterReplay(s), {});
  }

  lemma OneDueTime(s: System, k: RowKey, l: RowKey)
    requires Steady(s) && k in s.t.scheduled && l in s.t.scheduled && k.id == l.id
    ensures k == l
  {
    assert ScheduledWell(s, k) && ScheduledWell(s, l);
  }

  lemma PullSteady(s: System, keys: seq<RowKey>)
    requires Steady(s) && InTable(keys, s.t.scheduled)
    requires Lists(keys, DueKeys(s.t.scheduled, Millis(s.now)), ByDue())
    ensures Steady(AfterPull(s, keys))
  {
    hide Steady, Reserved;
    var u := AfterPull(s, keys);
    assert Awaited(u) by {
      forall i | 0 <= i < |keys| ensures ReadyWell(u, u.ready[i]) && RowId(u.ready[i]) == keys[i].id {
        PulledWell(s, keys, i);
      }
      forall k | k in u.t.scheduled ensures ScheduledWell(u, k) {
        KeptWell(s, keys, k);
      }
      forall i, j | 0 <= i < j < |u.ready| ensures RowId(u.ready[i]) != RowId(u.ready[j]) {
        assert ByDue()(keys[i], keys[j]);
        if keys[i].id == keys[j].id {
          OneDueTime(s, keys[i], keys[j]);
        }
      }
    }
    OnlySchedule(s, u);
  }

  lemma OnlySchedule(s: System, u: System)
    requires Steady(s) && u == s.(ready := u.ready, t := s.t.(scheduled := u.t.scheduled)) && Awaited(u)
    ensures Steady(u)
  {
  }

  lemma PulledWell(s: System, keys: seq<RowKey>, i: nat)
    requires Steady(s) && InTable(keys, s.t.scheduled) && i < |keys|
    requires Lists(keys, DueKeys(s.t.scheduled, Millis(s.now)), ByDue())
    ensures var u := AfterPull(s, keys); ReadyWell(u, u.ready[i]) && RowId(u.ready[i]) == keys[i].id
  {
    assert keys[i] in keys && ScheduledWell(s, keys[i]);
  }

  lemma KeptWell(s: System, keys: seq<RowKey>, k: RowKey)
    requires Steady(s) && InTable(keys, s.t.scheduled) && k in AfterPull(s, keys).t.scheduled
    requires Lists(keys, DueKeys(s.t.scheduled, Millis(s.now)), ByDue())
    ensures ScheduledWell(AfterPull(s, keys), k)
  {
    var u := AfterPull(s, keys);
    assert ScheduledWell(s, k);
    forall i | 0 <= i < |u.ready| ensures RowId(u.ready[i]) != k.id {
      assert keys[i] in keys && ScheduledWell(s, keys[i]);
    }
  }

  lemma SkipReadySteady(s: System)
    requires Steady(s) && s.ready != []
    ensures Steady(s.(ready := s.ready[1..]))
  {
    assert forall i :: 0 <= i < |s.ready| - 1 ==> s.ready[1..][i] == s.ready[i + 1];
  }

  /** Sending changes the version of one event, which is nowhere else. */
  lemma SendSteady(s: System)
    requires Steady(s) && s.ready != []
    ensures Steady(SendNext(s))
  {
    var row, u, v := s.ready[0], s.(ready := s.ready[1..]), SendNext(s);
    SkipReadySteady(s);
    if Replayable(s.d, row).Some? {
      assert ReadyWell(s, row);
      SentElsewhere(s, v);
      forall k | k in v.t.scheduled ensures ScheduledWell(v, k) {
        assert ScheduledWell(s, k) && RowId(s.ready[0]) != k.id;
      }
      forall i | 0 <= i < |v.ready| ensures ReadyWell(v, v.ready[i]) {
        assert v.ready[i] == s.ready[i + 1] && ReadyWell(s, s.ready[i + 1]);
      }
      SentQueue(s, v);
    }
  }

  lemma SentElsewhere(s: System, v: System)
    requires Steady(s) && s.ready != [] && Replayable(s.d, s.ready[0]).Some? && v == SendNext(s)
    ensures History(v) && SettledTable(v, v.t.events) && SettledTable(v, v.t.dlq)
    ensures SettledRows(v, v.rest) && SettledRows(v, v.letters)
  {
    assert ReadyWell(s, s.ready[0]);
    forall i | 0 <= i < |s.rest| ensures Settled(v, s.rest[i]) {
      assert Settled(s, s.rest[i]);
    }
    forall i | 0 <= i < |s.letters| ensures Settled(v, s.letters[i]) {
      assert Settled(s, s.letters[i]);
    }
  }

  lemma SentQueue(s: System, v: System)
    requires Steady(s) && s.ready != [] && Replayable(s.d, s.ready[0]).Some? && v == SendNext(s)
    ensures QueueAgrees(v, v.queue)
  {
    assert ReadyWell(s, s.ready[0]);
    forall i | 0 <= i < |v.queue| ensures IsVersion(v, Persist(v.queue[i])) {
      if i < |s.queue| {
        assert IsVersion(s, Persist(s.queue[i]));
      }
    }
  }

  lemma BeginReplaySteady(s: System, order: seq<EventId>)
    requires Steady(s) && InTable(order, s.t.events)
    ensures Steady(AfterBeginReplay(s, order))
  {
    hide Held, Working;
    var u := AfterBeginReplay(s, order);
    forall i | 0 <= i < |u.rest| ensures Settled(u, u.rest[i]) && RowId(u.rest[i]) in s.t.events {
      assert Settled(s, s.t.events[order[i]]);
    }
    forall k | k in u.t.scheduled ensures ScheduledWell(u, k) {
      assert ScheduledWell(s, k);
    }
    forall i | 0 <= i < |u.ready| ensures ReadyWell(u, u.ready[i]) {
      assert ReadyWell(s, s.ready[i]);
    }
    forall id | id in u.doubled ensures id in u.published && NotBefore(Version(u, id).metadata, u.now) {
      if id in s.t.events {
        assert Settled(s, s.t.events[id]);
      }
    }
  }

  /** A settled message may be queued again. */
  lemma QueueSteady(s: System, e: Envelope)
    requires Steady(s) && Settled(s, Persist(e)) && !exists k :: k in s.t.scheduled && k.id == Id(e)
    requires NoneFor(s.ready, Id(e))
    ensures Steady(s.(queue := s.queue + [e]))
  {
    var u := s.(queue := s.queue + [e]);
    forall k | k in u.t.scheduled ensures ScheduledWell(u, k) {
      assert ScheduledWell(s, k);
    }
    forall i | 0 <= i < |u.ready| ensures ReadyWell(u, u.ready[i]) {
      assert ReadyWell(s, s.ready[i]);
    }
    forall i | 0 <= i < |s.queue| && Id(s.queue[i]) == Id(e) ensures NotBefore(s.queue[i].metadata, s.now) {
      assert IsVersion(s, Persist(s.queue[i]));
    }
  }

  /** What is with a replay is not to be scheduled. */
  lemma ReplayedApart(s: System, row: PersistedEnvelope)
    requires Steady(s) && (row in s.rest || row in s.letters)
    ensures !exists k :: k in s.t.scheduled && k.id == RowId(row)
    ensures NoneFor(s.ready, RowId(row)) && Settled(s, row)
  {
    forall k | k in s.t.scheduled ensures k.id != RowId(row) {
      assert ScheduledWell(s, k);
    }
    forall i | 0 <= i < |s.ready| ensures RowId(s.ready[i]) != RowId(row) {
      assert ReadyWell(s, s.ready[i]);
    }
  }

  lemma ReplaySteady(s: System)
    requires Steady(s) && s.rest != []
    ensures Steady(ReplayNext(s))
  {
    var row, u := s.rest[0], s.(rest := s.rest[1..]);
    ReplayedApart(s, row);
    TakeRestSteady(s);
    match Replayable(s.d, row)
    case Some(typeId) => QueueSteady(u, Restore(typeId, row));
    case None => DeadAside(u, ReplayNext(s));
  }

  lemma DeadAside(s: System, u: System)
    requires Steady(s) && u == s.(dead := u.dead)
    ensures Steady(u)
  {
  }

  lemma TakeRestSteady(s: System)
    requires Steady(s) && s.rest != []
    ensures Steady(s.(rest := s.rest[1..]))
  {
    assert forall i :: 0 <= i < |s.rest| - 1 ==> s.rest[1..][i] == s.rest[i + 1];
  }

  lemma BeginLettersSteady(s: System, order: seq<EventId>)
    requires Steady(s) && InTable(order, s.t.dlq)
    ensures Steady(AfterBeginLetters(s, order))
  {
    var u := AfterBeginLetters(s, order);
    forall i | 0 <= i < |u.letters|
      ensures Settled(u, u.letters[i]) && (i < |s.letters| || RowId(u.letters[i]) in s.t.dlq)
    {
      if i < |s.letters| {
        assert Settled(s, s.letters[i]);
      } else {
        assert Settled(s, s.t.dlq[order[i - |s.letters|]]);
      }
    }
    forall k | k in u.t.scheduled ensures ScheduledWell(u, k) {
      assert ScheduledWell(s, k);
    }
    forall i | 0 <= i < |u.ready| ensures ReadyWell(u, u.ready[i]) {
      assert ReadyWell(s, s.ready[i]);
    }
  }

  lemma LetterSteady(s: System, k: nat)
    requires Steady(s) && k < |s.letters|
    ensures Steady(LetterNext(s, k))
  {
    var row, u := s.letters[k], s.(letters := Without(s.letters, k));
    ReplayedApart(s, row);
    TakeLetterSteady(s, k);
    if row.typeName in s.d.names && |s.queue| < s.capacity {
      QueueSteady(u, Restore(s.d.names[row.typeName], row));
    }
  }

  lemma TakeLetterSteady(s: System, k: nat)
    requires Steady(s) && k < |s.letters|
    ensures Steady(s.(letters := Without(s.letters, k)))
  {
    var left := Without(s.letters, k);
    assert forall i :: 0 <= i < |left| ==> left[i] == s.letters[if i < k then i else i + 1];
  }

  lemma TickSteady(s: System, now: Nanos)
    requires Steady(s) && s.now <= now
    ensures Steady(s.(now := now))
  {
    var u := s.(now := now);
    assert Millis(s.now) <= Millis(now);
    assert forall row :: Settled(s, row) ==> Settled(u, row);
    forall k | k in u.t.scheduled ensures ScheduledWell(u, k) {
      assert ScheduledWell(s, k);
    }
    forall i | 0 <= i < |u.ready| ensures ReadyWell(u, u.ready[i]) {
      assert ReadyWell(s, s.ready[i]);
    }
  }

  lemma DispatchSteady(s: System, to: set<SubId>)
    requires Steady(s) && s.todo != []
    ensures Steady(AfterDispatch(s, to))
  {
    assert forall i :: 0 <= i < |s.todo| - 1 ==> s.todo[1..][i] == s.todo[i + 1];
  }

  lemma HandlersSteady(s: System, u: System)
    requires Steady(s) && u == s.(copies := u.copies, holders := u.holders, acks := u.acks, d := u.d)
    ensures Steady(u)
  {
  }

  lemma CrashSteady(s: System, d: Directory)
    requires Steady(s)
    ensures Steady(AfterCrash(s, d))
  {
    var u := AfterCrash(s, d);
    forall k | k in u.t.scheduled ensures ScheduledWell(u, k) {
      assert ScheduledWell(s, k);
    }
  }

  lemma StepSteady(s: System, step: Step)
    requires Steady(s) && Enabled(s, step)
    ensures Steady(Next(s, step))
  {
    hide Steady, Held, Working;
    match step
    case Publish(e) => PublishSteady(s, e);
    case CommitBatch(n) => BatchSteady(s, n);
    case Dispatch(to) => DispatchSteady(s, to);
    case FinishCopy(_, _) => HandlersSteady(s, Next(s, step));
    case DropCopy(_) => HandlersSteady(s, Next(s, step));
    case CommitAck => AckSteady(s);
    case PullDue(keys) => PullSteady(s, keys);
    case SendDue => SendSteady(s);
    case BeginReplay(order) => BeginReplaySteady(s, order);
    case ReplayRow => ReplaySteady(s);
    case EndReplay => CollectSteady(s);
    case BeginLetters(order) => BeginLettersSteady(s, order);
    case SendLetter(k) => LetterSteady(s, k);
    case Rewire(_) => HandlersSteady(s, Next(s, step));
    case Tick(now) => TickSteady(s, now);
    case Crash(d) => CrashSteady(s, d);
  }
}
