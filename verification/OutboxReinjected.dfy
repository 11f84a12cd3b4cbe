/** Events that come to the queue a second time: from the scheduler, from a replay of pending rows or
    from a replay of dead letters. What the duplicate filter makes of them. */
module OutboxReinjected {
  import opened Events
  import opened Seqs
  import opened OutboxTables
  import opened GroupCommit
  import opened OutboxStore
  import opened OutboxProtocol
  import opened OutboxSteady
  import opened OutboxRuns

  /** A row for this event was written at some time. */
  ghost predicate WasWritten(written: seq<Envelope>, id: EventId) {
    exists i :: 0 <= i < |written| && Id(written[i]) == id
  }

  /** The message has the id and the key of a row that was written, and its time has come. */
  ghost predicate Returning(written: seq<Envelope>, now: Nanos, m: Metadata) {
    NotBefore(m, now) && KeyWritten(written, m)
  }

  ghost predicate KeyWritten(written: seq<Envelope>, m: Metadata) {
    exists i :: 0 <= i < |written| && Id(written[i]) == m.eventId
      && written[i].metadata.idempotencyKey == m.idempotencyKey
  }

  ghost predicate QueueReturns(written: seq<Envelope>, now: Nanos, queue: seq<Envelope>) {
    forall i :: 0 <= i < |queue| && WasWritten(written, Id(queue[i])) ==> Returning(written, now, queue[i].metadata)
  }

  ghost predicate RowsReturn(written: seq<Envelope>, now: Nanos, rows: seq<PersistedEnvelope>) {
    forall i :: 0 <= i < |rows| ==> Returning(written, now, rows[i].metadata)
  }

  ghost predicate WrittenAsPublished(s: System, written: seq<Envelope>) {
    forall i :: 0 <= i < |written| ==> AsPublished(s, written[i])
  }

  /** What goes through the queue again is what was written. */
  ghost predicate Returns(s: System) {
    && RowsFrom(s.t, s.written) && WrittenAsPublished(s, s.written)
    && QueueReturns(s.written, s.now, s.queue)
    && RowsReturn(s.written, s.now, s.rest) && RowsReturn(s.written, s.now, s.letters)
    && (forall i :: 0 <= i < |s.ready| ==> KeyWritten(s.written, s.ready[i].metadata))
    && (forall id :: id in s.t.dlq ==> NotBefore(s.t.dlq[id].metadata, s.now))
    && (forall id :: id in s.pulled ==> WasWritten(s.written, id))
  }

  lemma SourceKey(written: seq<Envelope>, row: PersistedEnvelope)
    requires Source(written, row)
    ensures KeyWritten(written, row.metadata)
  {
  }

  lemma KeyWrittenGrows(written: seq<Envelope>, more: seq<Envelope>, m: Metadata)
    requires KeyWritten(written, m)
    ensures KeyWritten(written + more, m)
  {
    assert forall i :: 0 <= i < |written| ==> (written + more)[i] == written[i];
  }

  // ---------- The batch ----------

  /** The rows a batch writes, by their places in the queue. */
  ghost function Added(s: System, n: nat): seq<Envelope>
    requires n <= |s.queue|
  {
    Filter(Dedupe(s.t.processedKeys, s.queue[..n]), HasSubscribers(s.d))
  }

  lemma AddedFrom(s: System, n: nat, i: nat) returns (k: nat)
    requires n <= |s.queue| && i < |Added(s, n)|
    ensures k < n && s.queue[k] == Added(s, n)[i] && HasSubscribers(s.d)(s.queue[k])
    ensures !Duplicate(s.t.processedKeys, s.queue[..k], s.queue[k])
  {
    var valid := Dedupe(s.t.processedKeys, s.queue[..n]);
    var v := FilterFrom(valid, HasSubscribers(s.d), i);
    k := DedupeFrom(s.t.processedKeys, s.queue[..n], v);
    assert s.queue[..n][..k] == s.queue[..k];
  }

  lemma BatchAsPublished(s: System, n: nat)
    requires Steady(s) && Returns(s) && n <= |s.queue|
    ensures WrittenAsPublished(AfterBatch(s, n), s.written + Added(s, n))
  {
    hide Steady, ProcessBatch, Strip;
    var u, written := AfterBatch(s, n), s.written + Added(s, n);
    forall i | 0 <= i < |written| ensures AsPublished(u, written[i]) {
      if i < |s.written| {
        assert AsPublished(s, s.written[i]);
      } else {
        var k := AddedFrom(s, n, i - |s.written|);
        QueueAsPublished(s, k);
      }
    }
  }

  lemma QueueAsPublished(s: System, k: nat)
    requires Steady(s) && k < |s.queue|
    ensures AsPublished(s, s.queue[k])
  {
    assert IsVersion(s, Persist(s.queue[k]));
  }

  lemma BatchQueue(s: System, n: nat)
    requires Steady(s) && Returns(s) && n <= |s.queue|
    ensures QueueReturns(s.written + Added(s, n), s.now, s.queue[n..])
  {
    hide Steady;
    var written := s.written + Added(s, n);
    forall i | n <= i < |s.queue| && WasWritten(written, Id(s.queue[i]))
      ensures Returning(written, s.now, s.queue[i].metadata)
    {
      var w :| 0 <= w < |written| && Id(written[w]) == Id(s.queue[i]);
      if w >= |s.written| {
        var k := AddedFrom(s, n, w - |s.written|);
        SameMessage(s, k, i);
        assert written[w].metadata == s.queue[i].metadata;
      } else {
        assert written[w] == s.written[w];
        KeyWrittenGrows(s.written, Added(s, n), s.queue[i].metadata);
      }
    }
  }

  lemma BatchRows(s: System, n: nat, rows: seq<PersistedEnvelope>)
    requires n <= |s.queue| && RowsReturn(s.written, s.now, rows)
    ensures RowsReturn(s.written + Added(s, n), s.now, rows)
  {
    forall i | 0 <= i < |rows| ensures Returning(s.written + Added(s, n), s.now, rows[i].metadata) {
      KeyWrittenGrows(s.written, Added(s, n), rows[i].metadata);
    }
  }

  lemma BatchReturns(s: System, n: nat)
    requires Steady(s) && Returns(s) && n <= |s.queue|
    ensures Returns(AfterBatch(s, n))
  {
    hide Steady, Returning, Dedupe, AsPublished;
    var valid, added := Dedupe(s.t.processedKeys, s.queue[..n]), Added(s, n);
    WriteAllSources(s.d, s.now, s.t, valid, s.written);
    WriteAllDlq(s.d, s.now, s.t, valid);
    BatchAsPublished(s, n);
    BatchQueue(s, n);
    BatchRows(s, n, s.rest);
    BatchRows(s, n, s.letters);
    forall i | 0 <= i < |s.ready| ensures KeyWritten(s.written + added, s.ready[i].metadata) {
      KeyWrittenGrows(s.written, added, s.ready[i].metadata);
    }
    forall id | id in s.pulled ensures WasWritten(s.written + added, id) {
      var i :| 0 <= i < |s.written| && Id(s.written[i]) == id;
      assert (s.written + added)[i] == s.written[i];
    }
  }

  // ---------- The other steps ----------

  lemma PublishReturns(s: System, e: Envelope)
    requires Returns(s) && Id(e) !in s.published
    ensures Returns(AfterPublish(s, e))
  {
  }

  lemma AckReturns(s: System)
    requires Returns(s) && Filed(s.t, s.now) && s.acks != []
    ensures Returns(AfterAck(s))
  {
    hide Source, KeyWritten, WasWritten;
  }

  lemma PullReturns(s: System, keys: seq<RowKey>)
    requires Returns(s) && InTable(keys, s.t.scheduled)
    ensures Returns(AfterPull(s, keys))
  {
    var u := AfterPull(s, keys);
    forall i | 0 <= i < |u.ready| ensures KeyWritten(s.written, u.ready[i].metadata) {
      SourceKey(s.written, s.t.scheduled[keys[i]]);
    }
  }

  lemma SendReturns(s: System)
    requires Returns(s) && s.ready != []
    ensures Returns(SendNext(s))
  {
    var row, u := s.ready[0], SendNext(s);
    assert KeyWritten(s.written, row.metadata);
    assert KeyWritten(s.written, Strip(row).metadata);
    assert WasWritten(s.written, RowId(row));
    assert forall i :: 0 <= i < |s.ready| - 1 ==> s.ready[1..][i] == s.ready[i + 1];
    assert Returning(s.written, s.now, Strip(row).metadata);
  }

  lemma TableReturns(s: System, table: map<EventId, PersistedEnvelope>, order: seq<EventId>)
    requires InTable(order, table)
    requires forall id :: id in table ==> Source(s.written, table[id]) && NotBefore(table[id].metadata, s.now)
    ensures RowsReturn(s.written, s.now, Rows(table, order))
  {
    forall i | 0 <= i < |order| ensures Returning(s.written, s.now, table[order[i]].metadata) {
      SourceKey(s.written, table[order[i]]);
    }
  }

  lemma BeginReplayReturns(s: System, order: seq<EventId>)
    requires Returns(s) && Filed(s.t, s.now) && InTable(order, s.t.events)
    ensures Returns(AfterBeginReplay(s, order))
  {
    TableReturns(s, s.t.events, order);
  }

  lemma ReplayReturns(s: System)
    requires Returns(s) && s.rest != []
    ensures Returns(ReplayNext(s))
  {
    assert forall i :: 0 <= i < |s.rest| - 1 ==> s.rest[1..][i] == s.rest[i + 1];
  }

  lemma BeginLettersReturns(s: System, order: seq<EventId>)
    requires Returns(s) && InTable(order, s.t.dlq)
    ensures Returns(AfterBeginLetters(s, order))
  {
    TableReturns(s, s.t.dlq, order);
    var rows := s.letters + Rows(s.t.dlq, order);
    assert RowsReturn(s.written, s.now, rows);
  }

  lemma LetterReturns(s: System, k: nat)
    requires Returns(s) && k < |s.letters|
    ensures Returns(LetterNext(s, k))
  {
    var left := Without(s.letters, k);
    assert forall i :: 0 <= i < |left| ==> left[i] == s.letters[if i < k then i else i + 1];
  }

  lemma TickReturns(s: System, now: Nanos)
    requires Returns(s) && s.now <= now
    ensures Returns(s.(now := now))
  {
    assert forall m :: Returning(s.written, s.now, m) ==> Returning(s.written, now, m);
  }

  lemma ReturnsNext(s: System, step: Step)
    requires Enabled(s, step)
    ensures match step
            case Publish(e) => Id(e) !in s.published && Next(s, step) == AfterPublish(s, e)
            case CommitBatch(n) => n <= |s.queue| && Next(s, step) == AfterBatch(s, n)
            case CommitAck => s.acks != [] && Next(s, step) == AfterAck(s)
            case PullDue(keys) => InTable(keys, s.t.scheduled) && Next(s, step) == AfterPull(s, keys)
            case SendDue => s.ready != [] && Next(s, step) == SendNext(s)
            case BeginReplay(order) => InTable(order, s.t.events) && Next(s, step) == AfterBeginReplay(s, order)
            case ReplayRow => s.rest != [] && Next(s, step) == ReplayNext(s)
            case BeginLetters(order) => InTable(order, s.t.dlq) && Next(s, step) == AfterBeginLetters(s, order)
            case SendLetter(k) => k < |s.letters| && Next(s, step) == LetterNext(s, k)
            case Tick(now) => s.now <= now && Next(s, step) == s.(now := now)
            case _ => true
  {
  }

  lemma OthersReturn(s: System, step: Step)
    requires Enabled(s, step) && Returns(s)
    requires step.Dispatch? || step.FinishCopy? || step.DropCopy? || step.EndReplay? || step.Rewire? || step.Crash?
    ensures Returns(Next(s, step))
  {
  }

  lemma ReturnsStep(s: System, step: Step)
    requires Inv(s) && Steady(s) && Returns(s) && Enabled(s, step)
    ensures Returns(Next(s, step))
  {
    hide Inv, Steady, Returns, Enabled, Next;
    ReturnsNext(s, step);
    SoundFiled(s);
    match step
    case Publish(e) => PublishReturns(s, e);
    case CommitBatch(n) => BatchReturns(s, n);
    case CommitAck => AckReturns(s);
    case PullDue(keys) => PullReturns(s, keys);
    case SendDue => SendReturns(s);
    case BeginReplay(order) => BeginReplayReturns(s, order);
    case ReplayRow => ReplayReturns(s);
    case BeginLetters(order) => BeginLettersReturns(s, order);
    case SendLetter(k) => LetterReturns(s, k);
    case Tick(now) => TickReturns(s, now);
    case _ => OthersReturn(s, step);
  }

  lemma SoundFiled(s: System)
    requires Inv(s)
    ensures Filed(s.t, s.now)
  {
  }

  lemma InitialReturns(s: System)
    requires Initial(s)
    ensures Returns(s)
  {
  }

  lemma {:induction false} ReturningRuns(states: seq<System>, steps: seq<Step>, i: nat)
    requires Run(states, steps) && Initial(states[0]) && i < |states|
    ensures Returns(states[i])
  {
    hide Inv, Steady, Enabled, Next, Returns, Initial;
    if i == 0 {
      InitialReturns(states[0]);
    } else {
      ReturningRuns(states, steps, i - 1);
      Reachable(states, steps, i - 1);
      SteadyRuns(states, steps, i - 1);
      assert Follows(states[i - 1], steps[i - 1], states[i]);
      ReturnsStep(states[i - 1], steps[i - 1]);
    }
  }

  // ---------- What the duplicate filter makes of a returning event ----------

  /** In every run: an event that comes up in a batch after a row was written for it, be it from the
      scheduler, from a replay of pending rows or from a replay of dead letters, is dispatched exactly
      when it has no idempotency key. The key of every row written is on record, so the filter
      discards a keyed one. */
  lemma ReturningNeedsNoKey(states: seq<System>, steps: seq<Step>, i: nat, k: nat)
    requires Run(states, steps) && Initial(states[0]) && i < |steps| && steps[i].CommitBatch?
    requires k < steps[i].n <= |states[i].queue| && WasWritten(states[i].written, Id(states[i].queue[k]))
    ensures states[i].queue[k] in states[i + 1].todo <==> states[i].queue[k].metadata.idempotencyKey.None?
  {
    hide Initial, Next, Enabled, Returns;
    var s, n := states[i], steps[i].n;
    ReturningRuns(states, steps, i);
    IdempotentRuns(states, steps, i);
    assert Follows(s, steps[i], states[i + 1]);
    EventsNext(s, steps[i]);
    NothingTodo(s, n);
    ReturningKeys(s, k);
    if s.queue[k].metadata.idempotencyKey.None? {
      DedupeKeeps(s.t.processedKeys, s.queue[..n], k);
      var valid := Dedupe(s.t.processedKeys, s.queue[..n]);
      var m :| 0 <= m < |valid| && valid[m] == s.queue[k];
      var f := FilterComplete(valid, DueNow(s.now), m);
      assert states[i + 1].todo[f] == s.queue[k];
    } else {
      TodoIsNew(s, n, s.queue[k]);
    }
  }

  /** The instance of the scheduler: a scheduled event with a key is never dispatched when its time
      comes, even without a crash. */
  lemma ScheduledNeedsNoKey(states: seq<System>, steps: seq<Step>, i: nat, k: nat)
    requires Run(states, steps) && Initial(states[0]) && i < |steps| && steps[i].CommitBatch?
    requires k < steps[i].n <= |states[i].queue| && Id(states[i].queue[k]) in states[i].pulled
    ensures states[i].queue[k] in states[i + 1].todo <==> states[i].queue[k].metadata.idempotencyKey.None?
  {
    ReturningRuns(states, steps, i);
    assert WasWritten(states[i].written, Id(states[i].queue[k]));
    ReturningNeedsNoKey(states, steps, i, k);
  }

  lemma NothingTodo(s: System, n: nat)
    requires Enabled(s, CommitBatch(n))
    ensures AfterBatch(s, n).todo == Filter(Dedupe(s.t.processedKeys, s.queue[..n]), DueNow(s.now))
  {
  }

  lemma ReturningKeys(s: System, k: nat)
    requires k < |s.queue| && WasWritten(s.written, Id(s.queue[k])) && KeyedOnce(s) && Returns(s)
    ensures !IsScheduled(s.queue[k], s.now)
    ensures OnRecord(s.t.processedKeys, s.queue[k]) <==> s.queue[k].metadata.idempotencyKey.Some?
  {
    var m := s.queue[k].metadata;
    assert Returning(s.written, s.now, m);
    assert m.idempotencyKey.Some? ==> Carries(s.written, m.idempotencyKey.value);
  }

  lemma {:induction false} DedupeKeeps(processed: set<Key>, batch: seq<Envelope>, k: nat)
    requires k < |batch| && batch[k].metadata.idempotencyKey.None?
    ensures batch[k] in Dedupe(processed, batch)
  {
    var n := |batch| - 1;
    if k < n {
      DedupeKeeps(processed, batch[..n], k);
    }
  }

  /** What a batch dispatches has a key that was not on record, if it has one. */
  lemma TodoIsNew(s: System, n: nat, e: Envelope)
    requires n <= |s.queue| && e.metadata.idempotencyKey.Some?
    ensures e in Filter(Dedupe(s.t.processedKeys, s.queue[..n]), DueNow(s.now)) ==>
      e.metadata.idempotencyKey.value !in s.t.processedKeys
  {
    var valid := Dedupe(s.t.processedKeys, s.queue[..n]);
    var todo := Filter(valid, DueNow(s.now));
    if e in todo {
      var f :| 0 <= f < |todo| && todo[f] == e;
      var v := FilterFrom(valid, DueNow(s.now), f);
      var m := DedupeFrom(s.t.processedKeys, s.queue[..n], v);
    }
  }
}
