/** Every step of the outbox keeps its invariant. */
module OutboxSteps {
  import opened Events
  import opened Sorting
  import opened OutboxTables
  import opened GroupCommit
  import opened OutboxStore
  import opened OutboxProtocol

  // ---------- The parts of the invariant ----------

  lemma HoldNew(t: Tables, held: multiset<EventId>, working: multiset<EventId>, used: set<EventId>,
      doubled: set<EventId>, id: EventId)
    requires Waits(t, held, working, used, doubled) && id !in used && id !in working
    ensures Waits(t, held + multiset{id}, working, used + {id}, doubled)
  {
  }

  lemma HoldLess(t: Tables, held: multiset<EventId>, less: multiset<EventId>, working: multiset<EventId>,
      fewer: multiset<EventId>, used: set<EventId>, doubled: set<EventId>)
    requires Waits(t, held, working, used, doubled) && less <= held && fewer <= working
    ensures Waits(t, less, fewer, used, doubled)
  {
  }

  /** Ids of events that are in no message can all be waited for at once. */
  lemma HoldMany(held: multiset<EventId>, working: multiset<EventId>, doubled: set<EventId>, ids: seq<EventId>)
    requires Single(held, working, doubled)
    requires forall i, j :: 0 <= i < j < |ids| && ids[i] !in doubled ==> ids[i] != ids[j]
    requires forall id :: id in ids && id !in doubled ==> id !in held && id !in working
    ensures Single(held + multiset(ids), working, doubled)
  {
    forall id | id !in doubled ensures multiset(ids)[id] <= 1 {
      AtMostOnce(ids, id);
    }
  }

  lemma {:induction false} AtMostOnce(ids: seq<EventId>, id: EventId)
    requires forall i, j :: 0 <= i < j < |ids| && ids[i] == id ==> ids[j] != id
    ensures multiset(ids)[id] <= 1
  {
    if ids != [] {
      var n := |ids| - 1;
      AtMostOnce(ids[..n], id);
      assert ids == ids[..n] + [ids[n]];
      if ids[n] == id {
        assert id !in ids[..n];
        assert id !in multiset(ids[..n]);
      }
    }
  }

  lemma CoverLess(refcount: map<EventId, nat>, outstanding: multiset<EventId>, less: multiset<EventId>,
      doubled: set<EventId>)
    requires Covered(refcount, outstanding, doubled) && less <= outstanding
    ensures Covered(refcount, less, doubled)
  {
  }

  lemma Once(t: Tables, held: multiset<EventId>, less: multiset<EventId>, working: multiset<EventId>,
      used: set<EventId>, doubled: set<EventId>, id: EventId)
    requires Waits(t, held, working, used, doubled) && held == less + multiset{id} && id !in doubled
    ensures id !in less
  {
    assert held[id] == less[id] + 1;
  }

  lemma Idle(s: System, id: EventId)
    requires Inv(s) && id !in s.t.events && id !in s.doubled
    ensures id !in Outstanding(s) && id !in Working(s)
  {
  }

  /** What waits for no place is in no list. */
  lemma NotHeld(s: System, id: EventId)
    requires id !in Held(s)
    ensures forall i :: 0 <= i < |s.queue| ==> Id(s.queue[i]) != id
    ensures NoneFor(s.ready, id) && NoneFor(s.rest, id) && NoneFor(s.letters, id)
    ensures id !in s.dead
  {
    forall i | 0 <= i < |s.queue| ensures Id(s.queue[i]) != id {
      assert EnvelopeIds(s.queue)[i] == Id(s.queue[i]);
    }
    RowsNone(s.ready, id);
    RowsNone(s.rest, id);
    RowsNone(s.letters, id);
  }

  ghost predicate NoneFor(rows: seq<PersistedEnvelope>, id: EventId) {
    forall i :: 0 <= i < |rows| ==> RowId(rows[i]) != id
  }

  lemma RowsNone(rows: seq<PersistedEnvelope>, id: EventId)
    requires id !in multiset(RowIds(rows))
    ensures NoneFor(rows, id)
  {
    forall i | 0 <= i < |rows| ensures RowId(rows[i]) != id {
      assert RowIds(rows)[i] == RowId(rows[i]);
    }
  }

  // ---------- Publishing ----------

  lemma PublishCounts(s: System, e: Envelope)
    ensures var u := AfterPublish(s, e);
      Held(u) == Held(s) + multiset{Id(e)} && Working(u) == Working(s) && Outstanding(u) == Outstanding(s)
  {
    PushEnvelope(s.queue, e);
  }

  lemma FreshId(s: System, id: EventId)
    requires id !in s.published
    requires Inv(s)
    ensures id !in s.t.events && id !in s.doubled && id !in Working(s)
  {
    hide Held, Working, Outstanding;
    Idle(s, id);
  }

  lemma PublishKeeps(s: System, e: Envelope)
    requires Inv(s) && Id(e) !in s.published
    ensures Inv(AfterPublish(s, e))
  {
    hide Held, Working, Outstanding, Waits, Covered, Sound;
    PublishCounts(s, e);
    FreshId(s, Id(e));
    assert AfterPublish(s, e).published.Keys == s.published.Keys + {Id(e)};
    HoldNew(s.t, Held(s), Working(s), s.published.Keys, s.doubled, Id(e));
  }

  // ---------- The batch ----------

  /** One message of a batch, dropped as a duplicate or written. */
  ghost function TakeOne(s: System, drop: bool): System
    requires s.queue != []
  {
    var e := s.queue[0];
    if drop then s.(queue := s.queue[1..])
    else s.(queue := s.queue[1..], t := WriteOne(s.d, s.now, s.t, e),
            todo := s.todo + (if IsScheduled(e, s.now) then [] else [e]))
  }

  lemma DropCounts(s: System)
    requires s.queue != []
    ensures var u := TakeOne(s, true);
      Held(s) == Held(u) + multiset{Id(s.queue[0])} && Working(u) == Working(s) && Outstanding(u) == Outstanding(s)
  {
    TakeEnvelope(s.queue);
  }

  lemma DropKeeps(s: System)
    requires Inv(s) && s.queue != []
    ensures Inv(TakeOne(s, true))
  {
    hide Held, Working, Outstanding, Waits, Covered, Sound;
    DropCounts(s);
    var u := TakeOne(s, true);
    HoldLess(s.t, Held(s), Held(u), Working(s), Working(s), s.published.Keys, s.doubled);
    assert forall i :: 0 <= i < |u.queue| ==> u.queue[i] == s.queue[i + 1];
  }

  /** The event a worker takes from the queue waits nowhere else, and nothing is owed for it. */
  lemma FirstWaits(s: System)
    requires Inv(s) && s.queue != [] && Id(s.queue[0]) !in s.doubled
    ensures var id := Id(s.queue[0]);
      && id !in Held(TakeOne(s, true)) && id !in Outstanding(s) && id !in Working(s) && id in s.published.Keys
      && id !in s.t.dlq && (forall k :: k in s.t.scheduled ==> k.id != id)
      && (id in s.t.events ==> s.t.events[id] == Persist(s.queue[0]))
  {
    DropCounts(s);
    var id, u := Id(s.queue[0]), TakeOne(s, true);
    assert Held(s)[id] == 1;
    SharesWait(s.d, s.todo, id);
    assert id in multiset(EnvelopeIds(s.todo)) ==> id in Held(u);
  }

  lemma FirstUsed(s: System)
    requires Inv(s) && s.queue != []
    ensures Id(s.queue[0]) in s.published
  {
    DropCounts(s);
    assert Id(s.queue[0]) in Held(s);
  }

  lemma TodoCounts(s: System)
    requires s.queue != [] && !IsScheduled(s.queue[0], s.now)
    ensures var e, u := s.queue[0], TakeOne(s, false);
      Held(u) == Held(s) && Working(u) == Working(s)
      && Outstanding(u) == Outstanding(s) + Times(Id(e), Count(s.d, e.typeId))
  {
    TakeEnvelope(s.queue);
    PushEnvelope(s.todo, s.queue[0]);
    SharesPush(s.d, s.todo, s.queue[0]);
  }

  lemma SkipKeeps(s: System)
    requires Inv(s) && s.queue != [] && Count(s.d, s.queue[0].typeId) == 0
    ensures Inv(TakeOne(s, false))
  {
    hide Held, Working, Outstanding, Waits, Covered, Sound;
    DropKeeps(s);
    if IsScheduled(s.queue[0], s.now) {
      assert TakeOne(s, false) == TakeOne(s, true) by { assert s.todo + [] == s.todo; }
    } else {
      TodoCounts(s);
      assert Outstanding(TakeOne(s, false)) == Outstanding(s);
    }
  }

  lemma ScheduleSound(d: Directory, now: Nanos, t: Tables, doubled: set<EventId>, e: Envelope)
    requires Sound(t, now, doubled) && IsScheduled(e, now)
    requires Id(e) !in doubled ==>
      Id(e) !in t.events && Id(e) !in t.dlq && forall k :: k in t.scheduled ==> k.id != Id(e)
    ensures Sound(WriteOne(d, now, t, e), now, doubled)
  {
    hide Apart;
    ScheduleApart(t, WriteOne(d, now, t, e), doubled, RowKey(Millis(e.metadata.deliverAt.value), Id(e)));
  }

  lemma ScheduleApart(t: Tables, u: Tables, doubled: set<EventId>, k: RowKey)
    requires Apart(t, doubled) && u.events == t.events && u.dlq == t.dlq
    requires u.scheduled.Keys <= t.scheduled.Keys + {k}
    requires k.id !in doubled ==>
      k.id !in t.events && k.id !in t.dlq && forall l :: l in t.scheduled ==> l.id != k.id
    ensures Apart(u, doubled)
  {
  }

  lemma ScheduleWaits(d: Directory, now: Nanos, t: Tables, e: Envelope, held: multiset<EventId>,
      working: multiset<EventId>, used: set<EventId>, doubled: set<EventId>)
    requires Waits(t, held, working, used, doubled) && IsScheduled(e, now) && Id(e) in used
    requires Id(e) !in doubled ==> Id(e) !in held
    ensures Waits(WriteOne(d, now, t, e), held, working, used, doubled)
  {
  }

  lemma ScheduleCounts(s: System)
    requires s.queue != [] && IsScheduled(s.queue[0], s.now)
    ensures var u, v := TakeOne(s, true), TakeOne(s, false);
      v == u.(t := v.t) && Held(v) == Held(u) && Working(v) == Working(u) && Outstanding(v) == Outstanding(u)
  {
    assert s.todo + [] == s.todo;
  }

  /** What still waits for its time has no event row. */
  lemma ScheduledHasNoRow(s: System)
    requires Inv(s) && s.queue != [] && IsScheduled(s.queue[0], s.now) && Id(s.queue[0]) !in s.doubled
    ensures Id(s.queue[0]) !in s.t.events
  {
  }

  lemma ScheduleKeeps(s: System)
    requires Inv(s) && s.queue != [] && Count(s.d, s.queue[0].typeId) > 0 && IsScheduled(s.queue[0], s.now)
    ensures Inv(TakeOne(s, false))
  {
    hide Held, Working, Outstanding, Waits, Covered, Sound;
    var e, u, v := s.queue[0], TakeOne(s, true), TakeOne(s, false);
    DropKeeps(s);
    FirstUsed(s);
    if Id(e) !in s.doubled {
      FirstWaits(s);
      ScheduledHasNoRow(s);
    }
    ScheduleCounts(s);
    ScheduleSound(s.d, s.now, s.t, s.doubled, e);
    ScheduleWaits(s.d, s.now, s.t, e, Held(u), Working(u), s.published.Keys, s.doubled);
  }

  lemma WriteSound(d: Directory, now: Nanos, t: Tables, doubled: set<EventId>, e: Envelope)
    requires Sound(t, now, doubled) && !IsScheduled(e, now)
    requires Id(e) !in doubled ==> Id(e) !in t.dlq && forall k :: k in t.scheduled ==> k.id != Id(e)
    ensures Sound(WriteOne(d, now, t, e), now, doubled)
  {
  }

  lemma WriteWaits(d: Directory, now: Nanos, t: Tables, e: Envelope, held: multiset<EventId>,
      working: multiset<EventId>, used: set<EventId>, doubled: set<EventId>)
    requires Waits(t, held, working, used, doubled) && !IsScheduled(e, now) && Id(e) in used
    ensures Waits(WriteOne(d, now, t, e), held, working, used, doubled)
  {
  }

  lemma WriteCovers(d: Directory, now: Nanos, t: Tables, doubled: set<EventId>, e: Envelope,
      outstanding: multiset<EventId>)
    requires Covered(t.refcount, outstanding, doubled) && !IsScheduled(e, now)
    requires Id(e) !in doubled ==> Id(e) !in outstanding
    ensures Covered(WriteOne(d, now, t, e).refcount, outstanding + Times(Id(e), Count(d, e.typeId)), doubled)
  {
  }

  lemma WriteLined(s: System, t: Tables, id: EventId, row: PersistedEnvelope)
    requires Lined(s) && t.events == s.t.events[id := row] && (id !in s.doubled ==> id !in Held(s))
    ensures Lined(s.(t := t))
  {
    if id !in s.doubled {
      NotHeld(s, id);
    }
  }

  lemma WriteKeeps(s: System)
    requires Inv(s) && s.queue != [] && Count(s.d, s.queue[0].typeId) > 0 && !IsScheduled(s.queue[0], s.now)
    ensures Inv(TakeOne(s, false))
  {
    hide Held, Working, Outstanding, Waits, Covered, Sound;
    var e, u, v := s.queue[0], TakeOne(s, true), TakeOne(s, false);
    DropKeeps(s);
    FirstUsed(s);
    if Id(e) !in s.doubled {
      FirstWaits(s);
    }
    TodoCounts(s);
    WriteSound(s.d, s.now, s.t, s.doubled, e);
    WriteWaits(s.d, s.now, s.t, e, Held(s), Working(s), s.published.Keys, s.doubled);
    WriteCovers(s.d, s.now, s.t, s.doubled, e, Outstanding(s));
    WriteLined(u, v.t, Id(e), Persist(e));
  }

  lemma TakeKeeps(s: System, drop: bool)
    requires Inv(s) && s.queue != []
    ensures Inv(TakeOne(s, drop))
  {
    if drop {
      DropKeeps(s);
    } else if Count(s.d, s.queue[0].typeId) == 0 {
      SkipKeeps(s);
    } else if IsScheduled(s.queue[0], s.now) {
      ScheduleKeeps(s);
    } else {
      WriteKeeps(s);
    }
  }

  /** A batch comes to the same as its messages taken one after the other, each judged against what
      was on record before the batch and what came earlier in it. */
  lemma BatchTakes(s: System, n: nat)
    requires 0 < n <= |s.queue|
    ensures var u := AfterBatch(s, n - 1);
      AfterBatch(s, n).(written := u.written)
        == TakeOne(u, Duplicate(s.t.processedKeys, s.queue[..n - 1], s.queue[n - 1]))
  {
    var batch := s.queue[..n];
    assert batch[..n - 1] == s.queue[..n - 1];
    BatchStep(s.d, s.now, s.t, batch);
    var before := ProcessBatch(s.d, s.now, s.t, s.queue[..n - 1]);
    var added := if IsScheduled(s.queue[n - 1], s.now) then [] else [s.queue[n - 1]];
    assert s.todo + (before.dispatched + added) == s.todo + before.dispatched + added;
    assert s.queue[n - 1..][1..] == s.queue[n..];
  }

  lemma {:induction false} BatchKeeps(s: System, n: nat)
    requires Inv(s) && n <= |s.queue|
    ensures Inv(AfterBatch(s, n))
  {
    hide Held, Working, Outstanding, Waits, Covered, Sound;
    if n == 0 {
      assert s.queue[..0] == [] && s.queue[0..] == s.queue && s.todo + [] == s.todo;
      assert Dedupe(s.t.processedKeys, s.queue[..0]) == [];
      assert AfterBatch(s, 0).(written := s.written) == s;
      HistoryApart(s, AfterBatch(s, 0));
    } else {
      BatchKeeps(s, n - 1);
      BatchTakes(s, n);
      var drop := Duplicate(s.t.processedKeys, s.queue[..n - 1], s.queue[n - 1]);
      TakeKeeps(AfterBatch(s, n - 1), drop);
      HistoryApart(TakeOne(AfterBatch(s, n - 1), drop), AfterBatch(s, n));
    }
  }

  /** The invariant does not look at the history of rows written. */
  lemma HistoryApart(s: System, u: System)
    requires Inv(s) && u.(written := s.written) == s
    ensures Inv(u)
  {
    assert Held(u) == Held(s) && Outstanding(u) == Outstanding(s);
  }

  // ---------- Handlers and acknowledgements ----------

  lemma DispatchCounts(s: System, to: set<SubId>)
    requires s.todo != [] && |to| <= Count(s.d, s.todo[0].typeId)
    ensures var u := AfterDispatch(s, to); var id := Id(s.todo[0]);
      && Held(s) == Held(u) + multiset{id}
      && Working(u) == Working(s) + Times(id, |to|)
      && Outstanding(u) <= Outstanding(s)
  {
    TakeEnvelope(s.todo);
  }

  lemma RouteCopies(t: Tables, held: multiset<EventId>, less: multiset<EventId>, working: multiset<EventId>,
      used: set<EventId>, doubled: set<EventId>, id: EventId, n: nat)
    requires Waits(t, held, working, used, doubled) && held == less + multiset{id}
    ensures Waits(t, less, working + Times(id, n), used, doubled)
  {
    if id !in doubled {
      Once(t, held, less, working, used, doubled, id);
    }
    HoldLess(t, held, less, working, working, used, doubled);
  }

  lemma DispatchKeeps(s: System, to: set<SubId>)
    requires Inv(s) && s.todo != [] && |to| <= Count(s.d, s.todo[0].typeId)
    ensures Inv(AfterDispatch(s, to))
  {
    hide Held, Working, Outstanding, Waits, Covered, Sound;
    var u := AfterDispatch(s, to);
    DispatchCounts(s, to);
    RouteCopies(s.t, Held(s), Held(u), Working(s), s.published.Keys, s.doubled, Id(s.todo[0]), |to|);
    CoverLess(s.t.refcount, Outstanding(s), Outstanding(u), s.doubled);
  }

  lemma FinishCounts(s: System, copy: Copy, success: bool)
    requires copy.id in s.copies
    ensures var u := AfterFinish(s, copy, success);
      Held(u) == Held(s) && Working(u) == Working(s) && Outstanding(u) == Outstanding(s)
  {
    assert AckIds(s.acks + [AckMessage(copy.id, success)]) == AckIds(s.acks) + [copy.id];
  }

  lemma FinishKeeps(s: System, copy: Copy, success: bool)
    requires Inv(s) && copy.id in s.copies
    ensures Inv(AfterFinish(s, copy, success))
  {
    hide Held, Working, Outstanding, Waits, Covered, Sound;
    FinishCounts(s, copy, success);
  }

  lemma DropCopyCounts(s: System, copy: Copy)
    ensures var u := AfterDrop(s, copy);
      Held(u) == Held(s) && Working(u) <= Working(s) && Outstanding(u) <= Outstanding(s)
  {
  }

  lemma DropCopyKeeps(s: System, copy: Copy)
    requires Inv(s)
    ensures Inv(AfterDrop(s, copy))
  {
    hide Held, Working, Outstanding, Waits, Covered, Sound;
    var u := AfterDrop(s, copy);
    DropCopyCounts(s, copy);
    HoldLess(s.t, Held(s), Held(s), Working(s), Working(u), s.published.Keys, s.doubled);
    CoverLess(s.t.refcount, Outstanding(s), Outstanding(u), s.doubled);
  }

  lemma AckCounts(s: System)
    requires s.acks != []
    ensures var id, u := s.acks[0].id, AfterAck(s);
      && Held(u) == Held(s) && Working(s) == Working(u) + multiset{id}
      && Outstanding(s) == Outstanding(u) + multiset{id}
  {
    assert AckIds(s.acks) == [s.acks[0].id] + AckIds(s.acks[1..]);
  }

  lemma AckSound(t: Tables, now: Nanos, doubled: set<EventId>, a: AckMessage)
    requires Sound(t, now, doubled)
    ensures Sound(Ack(t, a), now, doubled)
  {
  }

  lemma AckWaits(t: Tables, now: Nanos, held: multiset<EventId>, working: multiset<EventId>, used: set<EventId>,
      doubled: set<EventId>, a: AckMessage)
    requires Waits(t, held, working + multiset{a.id}, used, doubled) && Sound(t, now, doubled)
    ensures Waits(Ack(t, a), held, working, used, doubled) && (a.id !in doubled ==> a.id !in held)
  {
    assert a.id in working + multiset{a.id};
    HoldLess(t, held, held, working + multiset{a.id}, working, used, doubled);
  }

  lemma AckCovers(t: Tables, doubled: set<EventId>, outstanding: multiset<EventId>, a: AckMessage)
    requires Covered(t.refcount, outstanding + multiset{a.id}, doubled)
    ensures Covered(Ack(t, a).refcount, outstanding, doubled)
  {
    forall id | id in outstanding && id !in doubled
      ensures id in Ack(t, a).refcount && Ack(t, a).refcount[id] >= outstanding[id]
    {
      assert id in outstanding + multiset{a.id};
    }
  }

  lemma AckLined(s: System, t: Tables, id: EventId)
    requires Lined(s) && (id !in s.doubled ==> id !in Held(s))
    requires t.events == s.t.events || t.events == s.t.events - {id}
    ensures Lined(s.(t := t))
  {
    if id !in s.doubled {
      NotHeld(s, id);
    }
  }

  lemma AckKeeps(s: System)
    requires Inv(s) && s.acks != []
    ensures Inv(AfterAck(s))
  {
    hide Held, Working, Outstanding, Waits, Covered, Sound;
    var a, u := s.acks[0], AfterAck(s);
    AckCounts(s);
    AckSound(s.t, s.now, s.doubled, a);
    AckWaits(s.t, s.now, Held(s), Working(u), s.published.Keys, s.doubled, a);
    AckCovers(s.t, s.doubled, Outstanding(u), a);
    AckLined(s, u.t, a.id);
  }

  // ---------- The scheduler ----------

  lemma PullCounts(s: System, keys: seq<RowKey>)
    requires InTable(keys, s.t.scheduled) && s.ready == []
    ensures var u := AfterPull(s, keys);
      && Held(u) == Held(s) + multiset(RowIds(u.ready))
      && Working(u) == Working(s) && Outstanding(u) == Outstanding(s)
  {
  }

  lemma PulledIds(t: Tables, now: Nanos, doubled: set<EventId>, keys: seq<RowKey>)
    requires Sound(t, now, doubled) && InTable(keys, t.scheduled) && Ascending(keys, ByDue())
    ensures var ids := RowIds(Rows(t.scheduled, keys));
      && (forall i, j :: 0 <= i < j < |ids| && ids[i] !in doubled ==> ids[i] != ids[j])
      && (forall id :: id in ids ==> ScheduledIn(t, keys, id) && (id !in doubled ==> id !in t.events))
  {
    var ids := RowIds(Rows(t.scheduled, keys));
    assert |ids| == |keys|;
    assert forall i :: 0 <= i < |keys| ==> FiledUnder(keys[i], t.scheduled[keys[i]]) && ids[i] == keys[i].id;
    forall i, j | 0 <= i < j < |ids| && ids[i] !in doubled ensures ids[i] != ids[j] {
      assert ByDue()(keys[i], keys[j]);
    }
  }

  ghost predicate ScheduledIn(t: Tables, keys: seq<RowKey>, id: EventId) {
    exists k :: k in keys && k in t.scheduled && k.id == id
  }

  lemma OnlyPulled(t: Tables, doubled: set<EventId>, keys: seq<RowKey>, k: RowKey)
    requires Apart(t, doubled) && k.id !in doubled && k in t.scheduled && ScheduledIn(t, keys, k.id)
    ensures k in keys
  {
    var l :| l in keys && l in t.scheduled && l.id == k.id;
  }

  lemma PullWaits(t: Tables, held: multiset<EventId>, working: multiset<EventId>, used: set<EventId>,
      doubled: set<EventId>, keys: seq<RowKey>, ids: seq<EventId>, due: set<RowKey>)
    requires Waits(t, held, working, used, doubled) && Apart(t, doubled)
    requires Single(held + multiset(ids), working, doubled)
    requires (forall k :: k in keys <==> k in due) && forall id :: id in ids ==> ScheduledIn(t, keys, id)
    ensures Waits(t.(scheduled := t.scheduled - due), held + multiset(ids), working, used, doubled)
  {
    forall k | k in t.scheduled && k.id !in doubled ensures k.id in ids ==> k in due {
      if k.id in ids {
        OnlyPulled(t, doubled, keys, k);
      }
    }
    assert forall k :: k in t.scheduled && k !in due && k.id !in doubled ==> k.id !in held + multiset(ids);
    forall id | id in held + multiset(ids) ensures id in used && (id !in doubled ==> id !in t.dlq) {
      assert id in held || id in ids;
    }
  }

  lemma PullSound(t: Tables, now: Nanos, doubled: set<EventId>, due: set<RowKey>)
    requires Sound(t, now, doubled)
    ensures Sound(t.(scheduled := t.scheduled - due), now, doubled)
  {
  }

  lemma AbsentIds(events: map<EventId, PersistedEnvelope>, rows: seq<PersistedEnvelope>, doubled: set<EventId>)
    requires forall id :: id in RowIds(rows) && id !in doubled ==> id !in events
    ensures Absent(events, rows, doubled)
  {
    assert forall i :: 0 <= i < |rows| ==> RowIds(rows)[i] == RowId(rows[i]) && RowIds(rows)[i] in RowIds(rows);
  }

  lemma AbsentBoth(events: map<EventId, PersistedEnvelope>, xs: seq<PersistedEnvelope>, ys: seq<PersistedEnvelope>,
      doubled: set<EventId>)
    requires Absent(events, xs, doubled) && Absent(events, ys, doubled)
    ensures Absent(events, xs + ys, doubled)
  {
  }

  lemma NotScheduledHeld(s: System, keys: seq<RowKey>, id: EventId)
    requires Inv(s) && ScheduledIn(s.t, keys, id) && id !in s.doubled
    ensures id !in Held(s) && id !in Working(s)
  {
    Idle(s, id);
  }

  lemma PullKeeps(s: System, keys: seq<RowKey>)
    requires Inv(s) && s.ready == [] && InTable(keys, s.t.scheduled)
    requires Lists(keys, DueKeys(s.t.scheduled, Millis(s.now)), ByDue())
    ensures Inv(AfterPull(s, keys))
  {
    hide Held, Working, Outstanding, Waits, Covered, Absent, Replays, Current;
    var u, due := AfterPull(s, keys), DueKeys(s.t.scheduled, Millis(s.now));
    var ids := RowIds(u.ready);
    PullCounts(s, keys);
    PulledIds(s.t, s.now, s.doubled, keys);
    forall id | id in ids && id !in s.doubled ensures id !in Held(s) && id !in Working(s) {
      NotScheduledHeld(s, keys, id);
    }
    WaitsSingle(s.t, Held(s), Working(s), s.published.Keys, s.doubled);
    HoldMany(Held(s), Working(s), s.doubled, ids);
    PullWaits(s.t, Held(s), Working(s), s.published.Keys, s.doubled, keys, ids, due);
    PullSound(s.t, s.now, s.doubled, due);
    AbsentIds(u.t.events, u.ready, s.doubled);
  }

  lemma WaitsSingle(t: Tables, held: multiset<EventId>, working: multiset<EventId>, used: set<EventId>,
      doubled: set<EventId>)
    requires Waits(t, held, working, used, doubled)
    ensures Single(held, working, doubled)
  {
  }

  lemma ReadyCounts(s: System, e: Envelope, pulled: set<EventId>)
    requires s.ready != [] && Id(e) == RowId(s.ready[0])
    ensures var u := s.(ready := s.ready[1..]); var v := u.(queue := s.queue + [e], pulled := pulled);
      && Held(s) == Held(u) + multiset{RowId(s.ready[0])} && Held(v) == Held(s)
      && Working(u) == Working(v) == Working(s) && Outstanding(u) == Outstanding(v) == Outstanding(s)
  {
    TakeRow(s.ready);
    PushEnvelope(s.queue, e);
  }

  lemma SendDueKeeps(s: System)
    requires Inv(s) && s.ready != []
    ensures Inv(SendNext(s))
  {
    hide Held, Working, Outstanding, Waits, Covered, Sound;
    var row, u, v := s.ready[0], SendNext(s), s.(ready := s.ready[1..]);
    ReadyCounts(s, Restore(0, Strip(row)), s.pulled);
    match Replayable(s.d, row)
    case Some(typeId) =>
      ReadyCounts(s, Restore(typeId, Strip(row)), u.pulled);
    case None =>
      HoldLess(s.t, Held(s), Held(v), Working(s), Working(s), s.published.Keys, s.doubled);
  }

  // ---------- Replay of pending rows ----------

  lemma Distinct(order: seq<EventId>)
    requires Ascending(order, ById())
    ensures forall i, j :: 0 <= i < j < |order| ==> order[i] != order[j]
  {
    forall i, j | 0 <= i < j < |order| ensures order[i] != order[j] {
      assert ById()(order[i], order[j]);
    }
  }

  lemma RowsOwnIds(table: map<EventId, PersistedEnvelope>, order: seq<EventId>)
    requires InTable(order, table) && forall id :: id in table ==> RowId(table[id]) == id
    ensures RowIds(Rows(table, order)) == order
  {
  }

  lemma BeginReplayCounts(s: System, order: seq<EventId>)
    requires InTable(order, s.t.events) && s.rest == []
    ensures var u := AfterBeginReplay(s, order);
      Held(u) == Held(s) + multiset(RowIds(u.rest)) && Working(u) == Working(s) && Outstanding(u) == Outstanding(s)
  {
  }

  lemma BeginReplayWaits(t: Tables, held: multiset<EventId>, working: multiset<EventId>, used: set<EventId>,
      doubled: set<EventId>, order: seq<EventId>)
    requires Waits(t, held, working, used, doubled) && Apart(t, doubled)
    requires Single(held + multiset(order), working, doubled)
    requires forall id :: id in order ==> id in t.events
    ensures Waits(t, held + multiset(order), working, used, doubled)
  {
  }

  lemma DoubledMore(s: System, more: set<EventId>)
    requires Inv(s) && more <= s.published.Keys
    ensures Inv(s.(doubled := s.doubled + more))
  {
    hide Held, Working, Outstanding;
    var u := s.(doubled := s.doubled + more);
    SameMessages(s, u);
  }

  lemma SameMessages(s: System, u: System)
    requires u == s.(doubled := u.doubled)
    ensures Held(u) == Held(s) && Working(u) == Working(s) && Outstanding(u) == Outstanding(s)
  {
  }

  lemma BeginReplayKeeps(s: System, order: seq<EventId>)
    requires Inv(s) && s.rest == [] && InTable(order, s.t.events)
    requires Lists(order, s.t.events.Keys * s.t.refcount.Keys, ById())
    ensures Inv(AfterBeginReplay(s, order))
  {
    hide Held, Working, Outstanding, Waits, Covered;
    OvertakenUsed(s);
    DoubledMore(s, Overtaken(s));
    var v := s.(doubled := s.doubled + Overtaken(s));
    SameMessages(s, v);
    NotOvertaken(s);
    hide Overtaken;
    WaitsSingle(v.t, Held(v), Working(v), v.published.Keys, v.doubled);
    BeginReplayCounts(s, order);
    RowsOwnIds(s.t.events, order);
    Distinct(order);
    HoldMany(Held(v), Working(v), v.doubled, order);
    BeginReplayWaits(v.t, Held(v), Working(v), v.published.Keys, v.doubled, order);
  }

  lemma NotOvertaken(s: System)
    ensures forall id :: id in s.t.events && id !in Overtaken(s) ==> id !in Held(s) && id !in Working(s)
  {
    hide Held, Working;
  }

  lemma OvertakenUsed(s: System)
    requires Inv(s)
    ensures Overtaken(s) <= s.published.Keys
  {
    hide Held, Working, Outstanding, Covered, Lined, Sound;
  }

  /** The events that a replay of pending rows adds to the doubled ones are exactly those for which the
      invariant would fail: it leaves two messages of them, or a message beside a copy. */
  lemma OvertakenDouble(s: System, order: seq<EventId>)
    requires InTable(order, s.t.events)
    requires Enabled(s, BeginReplay(order)) && Inv(s)
    ensures Inv(AfterBeginReplay(s, order).(doubled := s.doubled)) <==> Overtaken(s) <= s.doubled
  {
    hide Inv, Enabled, Overtaken;
    BeginReplayEnabled(s, order);
    if Overtaken(s) <= s.doubled {
      BeginReplayKeeps(s, order);
      assert s.doubled + Overtaken(s) == s.doubled;
    }
    if Inv(AfterBeginReplay(s, order).(doubled := s.doubled)) {
      ReplayLeavesOne(s, order);
    }
  }

  lemma BeginReplayEnabled(s: System, order: seq<EventId>)
    requires Enabled(s, BeginReplay(order))
    ensures s.rest == [] && InTable(order, s.t.events) && Lists(order, s.t.events.Keys * s.t.refcount.Keys, ById())
  {
  }

  lemma ReplayLeavesOne(s: System, order: seq<EventId>)
    requires s.rest == [] && InTable(order, s.t.events)
    requires Lists(order, s.t.events.Keys * s.t.refcount.Keys, ById())
    requires Inv(s) && Inv(AfterBeginReplay(s, order).(doubled := s.doubled))
    ensures Overtaken(s) <= s.doubled
  {
    hide Held, Working, Outstanding, Covered, Lined;
    var u := AfterBeginReplay(s, order);
    BeginReplayCounts(s, order);
    SameMessages(u, u.(doubled := s.doubled));
    RowsOwnIds(s.t.events, order);
    forall id | id in Overtaken(s) ensures id in s.doubled {
      assert id in order;
      assert Held(u)[id] == Held(s)[id] + multiset(order)[id];
    }
  }

  lemma RestCounts(s: System, e: Envelope)
    requires s.rest != [] && Id(e) == RowId(s.rest[0])
    ensures var u := s.(rest := s.rest[1..]); var v := u.(queue := s.queue + [e]);
      && Held(s) == Held(u) + multiset{RowId(s.rest[0])} && Held(v) == Held(s)
      && Working(u) == Working(v) == Working(s) && Outstanding(u) == Outstanding(v) == Outstanding(s)
  {
    TakeRow(s.rest);
    PushEnvelope(s.queue, e);
  }

  lemma DeadCounts(u: System, id: EventId)
    ensures var v := u.(dead := u.dead + {id});
      Held(v) <= Held(u) + multiset{id} && Working(v) == Working(u) && Outstanding(v) == Outstanding(u)
  {
    assert multiset(u.dead + {id}) <= multiset(u.dead) + multiset{id};
  }

  lemma ReplayKeeps(s: System)
    requires Inv(s) && s.rest != []
    ensures Inv(ReplayNext(s))
  {
    hide Held, Working, Outstanding, Waits, Covered, Sound;
    var row, v, w := s.rest[0], s.(rest := s.rest[1..]), ReplayNext(s);
    RestCounts(s, Restore(0, row));
    match Replayable(s.d, row)
    case Some(typeId) =>
      RestCounts(s, Restore(typeId, row));
      assert Persist(Restore(typeId, row)) == row;
    case None =>
      DeadCounts(v, RowId(row));
      HoldLess(s.t, Held(s), Held(w), Working(s), Working(s), s.published.Keys, s.doubled);
  }

  lemma EndReplayCounts(s: System)
    ensures var u := AfterReplay(s);
      Held(s) == Held(u) + multiset(s.dead) && Working(u) == Working(s) && Outstanding(u) == Outstanding(s)
  {
  }

  lemma CollectWaits(t: Tables, held: multiset<EventId>, less: multiset<EventId>, working: multiset<EventId>,
      used: set<EventId>, doubled: set<EventId>, dead: set<EventId>)
    requires Waits(t, held, working, used, doubled) && less <= held
    ensures Waits(t.(events := t.events - dead, refcount := t.refcount - dead), less, working, used, doubled)
  {
    HoldLess(t, held, less, working, working, used, doubled);
  }

  lemma CollectSound(t: Tables, now: Nanos, doubled: set<EventId>, dead: set<EventId>)
    requires Sound(t, now, doubled)
    ensures Sound(t.(events := t.events - dead, refcount := t.refcount - dead), now, doubled)
  {
  }

  lemma DeadOwesNothing(s: System, id: EventId)
    requires Inv(s) && id in s.dead && id !in s.doubled
    ensures id !in Outstanding(s)
  {
    assert Held(s)[id] <= 1;
    SharesWait(s.d, s.todo, id);
  }

  lemma CollectLined(s: System)
    requires Lined(s) && s.rest == []
    ensures Lined(AfterReplay(s))
  {
  }

  lemma EndReplayKeeps(s: System)
    requires Inv(s) && s.rest == []
    ensures Inv(AfterReplay(s))
  {
    var u := AfterReplay(s);
    EndReplayCounts(s);
    CollectWaits(s.t, Held(s), Held(u), Working(s), s.published.Keys, s.doubled, s.dead);
    CollectSound(s.t, s.now, s.doubled, s.dead);
    CollectLined(s);
    forall id | id in Outstanding(u) && id !in s.doubled ensures id !in s.dead {
      if id in s.dead { DeadOwesNothing(s, id); }
    }
  }

  // ---------- Replay of dead letters ----------

  lemma BeginLettersCounts(s: System, order: seq<EventId>)
    requires InTable(order, s.t.dlq)
    ensures var u := AfterBeginLetters(s, order);
      && Held(u) == Held(s) + multiset(RowIds(Rows(s.t.dlq, order)))
      && Working(u) == Working(s) && Outstanding(u) == Outstanding(s)
  {
    assert RowIds(s.letters + Rows(s.t.dlq, order)) == RowIds(s.letters) + RowIds(Rows(s.t.dlq, order));
  }

  lemma BeginLettersWaits(t: Tables, held: multiset<EventId>, working: multiset<EventId>, used: set<EventId>,
      doubled: set<EventId>, order: seq<EventId>)
    requires Waits(t, held, working, used, doubled) && Apart(t, doubled)
    requires Single(held + multiset(order), working, doubled)
    requires forall id :: id in order ==> id in t.dlq
    ensures Waits(t.(dlq := map[]), held + multiset(order), working, used, doubled)
  {
  }

  lemma LetterIdle(s: System, id: EventId)
    requires Inv(s) && id in s.t.dlq && id !in s.doubled
    ensures id !in Held(s) && id !in s.t.events && id !in Working(s)
  {
    Idle(s, id);
  }

  lemma LettersIdle(s: System, order: seq<EventId>)
    requires Inv(s) && InTable(order, s.t.dlq)
    ensures forall id :: id in order ==>
      id in s.t.dlq && (id !in s.doubled ==> id !in Held(s) && id !in s.t.events && id !in Working(s))
  {
    hide Inv, Held, Working;
    forall id | id in order && id !in s.doubled
      ensures id !in Held(s) && id !in s.t.events && id !in Working(s)
    {
      LetterIdle(s, id);
    }
  }

  lemma BeginLettersKeeps(s: System, order: seq<EventId>)
    requires Inv(s) && InTable(order, s.t.dlq)
    requires Lists(order, s.t.dlq.Keys, ById())
    ensures Inv(AfterBeginLetters(s, order))
  {
    hide Held, Working, Outstanding, Waits, Covered, Absent, Replays, Current, Single;
    var u := AfterBeginLetters(s, order);
    BeginLettersCounts(s, order);
    RowsOwnIds(s.t.dlq, order);
    Distinct(order);
    LettersIdle(s, order);
    WaitsSingle(s.t, Held(s), Working(s), s.published.Keys, s.doubled);
    HoldMany(Held(s), Working(s), s.doubled, order);
    BeginLettersWaits(s.t, Held(s), Working(s), s.published.Keys, s.doubled, order);
    AbsentIds(u.t.events, Rows(s.t.dlq, order), s.doubled);
    AbsentBoth(u.t.events, s.letters, Rows(s.t.dlq, order), s.doubled);
  }

  lemma LetterCounts(s: System, k: nat, e: Envelope)
    requires k < |s.letters| && Id(e) == RowId(s.letters[k])
    ensures var u := s.(letters := Without(s.letters, k)); var v := u.(queue := s.queue + [e]);
      && Held(s) == Held(u) + multiset{RowId(s.letters[k])} && Held(v) == Held(s)
      && Working(u) == Working(v) == Working(s) && Outstanding(u) == Outstanding(v) == Outstanding(s)
  {
    PickRow(s.letters, k);
    PushEnvelope(s.queue, e);
  }

  lemma SendLetterKeeps(s: System, k: nat)
    requires Inv(s) && k < |s.letters|
    ensures Inv(LetterNext(s, k))
  {
    hide Held, Working, Outstanding, Waits, Covered, Sound;
    var row, v := s.letters[k], s.(letters := Without(s.letters, k));
    LetterCounts(s, k, Restore(0, row));
    if row.typeName in s.d.names && |s.queue| < s.capacity {
      LetterCounts(s, k, Restore(s.d.names[row.typeName], row));
    } else {
      HoldLess(s.t, Held(s), Held(v), Working(s), Working(s), s.published.Keys, s.doubled);
    }
  }

  // ---------- The world around ----------

  lemma RewireKeeps(s: System, d: Directory)
    requires Inv(s) && Enabled(s, Rewire(d))
    ensures Inv(s.(d := d))
  {
    var u := s.(d := d);
    assert Held(u) == Held(s) && Working(u) == Working(s);
    SharesShrink(s.d, d, s.todo);
    CoverLess(s.t.refcount, Outstanding(s), Outstanding(u), s.doubled);
  }

  lemma TickKeeps(s: System, now: Nanos)
    requires Inv(s) && s.now <= now
    ensures Inv(s.(now := now))
  {
    var u := s.(now := now);
    assert Held(u) == Held(s) && Working(u) == Working(s) && Outstanding(u) == Outstanding(s);
    assert Sound(s.t, now, s.doubled);
  }

  lemma CrashKeeps(s: System, d: Directory)
    requires Inv(s)
    ensures Inv(AfterCrash(s, d))
  {
    var u := AfterCrash(s, d);
    assert Held(u) == multiset{} && Working(u) == multiset{};
    forall id | id !in u.doubled ensures OnePlace(s.t, id) {
    }
    ApartByEvent(s.t, u.doubled);
  }

  lemma ApartByEvent(t: Tables, doubled: set<EventId>)
    requires forall id :: id !in doubled ==> OnePlace(t, id)
    ensures Apart(t, doubled)
  {
    forall id | id in t.dlq && id !in doubled ensures id !in t.events {
      assert OnePlace(t, id);
    }
    forall k | k in t.scheduled && k.id !in doubled ensures k.id !in t.events && k.id !in t.dlq {
      assert OnePlace(t, k.id);
    }
    forall k, l | k in t.scheduled && l in t.scheduled && k.id == l.id && k.id !in doubled ensures k == l {
      assert OnePlace(t, k.id);
    }
  }

  lemma StepKeeps(s: System, step: Step)
    requires Inv(s) && Enabled(s, step)
    ensures Inv(Next(s, step))
  {
    hide Held, Working, Outstanding, Inv;
    match step
    case Publish(e) => PublishKeeps(s, e);
    case CommitBatch(n) => BatchKeeps(s, n);
    case Dispatch(to) => DispatchKeeps(s, to);
    case FinishCopy(copy, success) => FinishKeeps(s, copy, success);
    case DropCopy(copy) => DropCopyKeeps(s, copy);
    case CommitAck => AckKeeps(s);
    case PullDue(keys) => PullKeeps(s, keys);
    case SendDue => SendDueKeeps(s);
    case BeginReplay(order) => BeginReplayKeeps(s, order);
    case ReplayRow => ReplayKeeps(s);
    case EndReplay => EndReplayKeeps(s);
    case BeginLetters(order) => BeginLettersKeeps(s, order);
    case SendLetter(k) => SendLetterKeeps(s, k);
    case Rewire(d) => RewireKeeps(s, d);
    case Tick(now) => TickKeeps(s, now);
    case Crash(d) => CrashKeeps(s, d);
  }
}
