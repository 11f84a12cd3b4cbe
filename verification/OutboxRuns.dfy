/** What every run of the outbox keeps, crashes included. What can go wrong for an event once it is doubled,
    and for no other, is said with the word doubled. */
module OutboxRuns {
  import opened Events
  import opened Seqs
  import opened Sorting
  import opened OutboxTables
  import opened GroupCommit
  import opened OutboxStore
  import opened OutboxProtocol
  import opened OutboxSteps
  import opened OutboxSteady

  ghost predicate Run(states: seq<System>, steps: seq<Step>) {
    |states| == |steps| + 1 && forall i :: 0 <= i < |steps| ==> Follows(states[i], steps[i], states[i + 1])
  }

  ghost predicate Follows(s: System, step: Step, u: System) { Enabled(s, step) && u == Next(s, step) }

  lemma InitialInv(s: System)
    requires Initial(s)
    ensures Inv(s)
  {
    assert Held(s) == multiset{} && Working(s) == multiset{};
  }

  /** The invariant holds in every state of every run. */
  lemma {:induction false} Reachable(states: seq<System>, steps: seq<Step>, i: nat)
    requires Run(states, steps) && Initial(states[0]) && i < |states|
    ensures Inv(states[i])
  {
    hide Inv, Enabled, Next;
    if i == 0 {
      InitialInv(states[0]);
    } else {
      Reachable(states, steps, i - 1);
      assert Follows(states[i - 1], steps[i - 1], states[i]);
      StepKeeps(states[i - 1], steps[i - 1]);
    }
  }

  lemma {:induction false} SteadyRuns(states: seq<System>, steps: seq<Step>, i: nat)
    requires Run(states, steps) && Initial(states[0]) && i < |states|
    ensures Steady(states[i])
  {
    hide Steady, Enabled, Next;
    if i == 0 {
      InitialSteady(states[0]);
    } else {
      SteadyRuns(states, steps, i - 1);
      assert Follows(states[i - 1], steps[i - 1], states[i]);
      StepSteady(states[i - 1], steps[i - 1]);
    }
  }

  /** In no run does the queue exceed its capacity, or a batch the thousand messages it may have. */
  lemma {:induction false} QueueFits(states: seq<System>, steps: seq<Step>, i: nat)
    requires Run(states, steps) && Initial(states[0]) && i < |states|
    ensures |states[i].queue| <= states[i].capacity == states[0].capacity
    ensures i < |steps| && steps[i].CommitBatch? ==> 1 <= steps[i].n <= 1000
  {
    hide Enabled, Next, Initial;
    if i > 0 {
      QueueFits(states, steps, i - 1);
      assert Follows(states[i - 1], steps[i - 1], states[i]);
      QueueStep(states[i - 1], steps[i - 1]);
    } else {
      EmptyAtFirst(states[0]);
    }
    if i < |steps| {
      assert Follows(states[i], steps[i], states[i + 1]);
      if steps[i].CommitBatch? {
        BatchFits(states[i], steps[i]);
      }
    }
  }

  lemma EmptyAtFirst(s: System)
    requires Initial(s)
    ensures s.queue == []
  {
  }

  lemma QueueStep(s: System, step: Step)
    requires Enabled(s, step) && |s.queue| <= s.capacity
    ensures |Next(s, step).queue| <= Next(s, step).capacity == s.capacity
  {
    hide Held, Working, Overtaken, ProcessBatch, Rows, Lists, InTable;
  }

  lemma BatchFits(s: System, step: Step)
    requires Enabled(s, step) && step.CommitBatch?
    ensures 1 <= step.n <= 1000
  {
  }

  // ---------- Acknowledgements and event rows ----------

  function Row(t: Tables, id: EventId): Option<PersistedEnvelope> {
    if id in t.events then Some(t.events[id]) else None
  }

  /** The acknowledgements a row is still owed. */
  function Owed(t: Tables, id: EventId): nat { if id in t.refcount then t.refcount[id] else 0 }

  /** The step commits an acknowledgement of the event. */
  predicate Acks(s: System, step: Step, id: EventId) { step.CommitAck? && s.acks != [] && s.acks[0].id == id }

  predicate Collects(s: System, step: Step, id: EventId) { step.EndReplay? && id in s.dead }

  /** No acknowledgement ever comes for an event without a row. */
  lemma AckFindsRow(s: System)
    requires Inv(s) && s.acks != [] && s.acks[0].id !in s.doubled
    ensures s.acks[0].id in s.t.events && s.acks[0].id in s.t.refcount
  {
    hide Held, Waits, Lined;
    AckCounts(s);
    assert s.acks[0].id in Outstanding(s);
  }

  /** When the last acknowledgement removes a row, no copy is left that could still come. */
  lemma LastAckIsLast(s: System)
    requires s.acks != [] && Owed(s.t, s.acks[0].id) <= 1 && s.acks[0].id !in s.doubled
    requires Inv(s)
    ensures s.acks[0].id !in Outstanding(AfterAck(s)) && s.acks[0].id !in Held(AfterAck(s))
  {
    hide Held, Waits, Lined, Working, Outstanding;
    AckCounts(s);
    assert s.acks[0].id in Outstanding(s);
    AckWaits(s.t, s.now, Held(s), Working(AfterAck(s)), s.published.Keys, s.doubled, s.acks[0]);
  }

  /** The steps of the handlers and of the world around. */
  lemma EnabledHandlers(s: System, step: Step)
    requires Enabled(s, step)
    ensures match step
            case Dispatch(to) =>
              s.todo != [] && |to| <= Count(s.d, s.todo[0].typeId) && Next(s, step) == AfterDispatch(s, to)
            case FinishCopy(copy, success) =>
              copy in s.holders && copy.id in s.copies && Next(s, step) == AfterFinish(s, copy, success)
            case DropCopy(copy) =>
              copy in s.holders && copy.id in s.copies && Next(s, step) == AfterDrop(s, copy)
            case CommitAck => s.acks != [] && Next(s, step) == AfterAck(s)
            case EndReplay => Next(s, step) == AfterReplay(s)
            case Rewire(d) => Next(s, step) == s.(d := d)
            case Tick(now) => s.now <= now && Next(s, step) == s.(now := now)
            case Crash(d) => Next(s, step) == AfterCrash(s, d)
            case _ =>
              Next(s, step).copies == s.copies && Next(s, step).holders == s.holders && Next(s, step).acks == s.acks
  {
  }

  /** The steps that only move messages leave event rows, counts and keys alone. */
  lemma QueuesKeep(s: System, step: Step)
    requires Enabled(s, step)
    requires step.Publish? || step.PullDue? || step.SendDue? || step.BeginReplay? || step.ReplayRow?
      || step.BeginLetters? || step.SendLetter?
    ensures var u := Next(s, step);
      && u.t == s.t.(scheduled := u.t.scheduled, dlq := u.t.dlq) && u.written == s.written
  {
    hide Enabled, Held, Working, Rows, Overtaken, AfterBatch;
  }

  lemma CommitNext(s: System, n: nat)
    requires Enabled(s, CommitBatch(n))
    ensures n <= |s.queue| && Next(s, CommitBatch(n)) == AfterBatch(s, n)
  {
  }

  /** The steps that change event rows or counts. */
  lemma EventsNext(s: System, step: Step)
    requires Enabled(s, step)
    ensures match step
            case CommitBatch(n) => n <= |s.queue| && Next(s, step) == AfterBatch(s, n)
            case CommitAck => s.acks != [] && Next(s, step) == AfterAck(s)
            case EndReplay => Next(s, step) == AfterReplay(s)
            case _ => Next(s, step).t.events == s.t.events && Next(s, step).t.refcount == s.t.refcount
  {
    hide Enabled, Next, Held, Working;
    EnabledHandlers(s, step);
    match step
    case CommitBatch(n) => CommitNext(s, n);
    case Dispatch(_) | FinishCopy(_, _) | DropCopy(_) | CommitAck | EndReplay | Rewire(_) | Tick(_) | Crash(_) =>
    case _ => QueuesKeep(s, step);
  }

  lemma {:induction false} WriteAllRow(d: Directory, now: Nanos, t: Tables, es: seq<Envelope>, id: EventId)
    ensures id in t.events ==> id in WriteAll(d, now, t, es).events
    ensures (forall i :: 0 <= i < |es| ==> Id(es[i]) != id) ==>
      Row(WriteAll(d, now, t, es), id) == Row(t, id) && Owed(WriteAll(d, now, t, es), id) == Owed(t, id)
  {
    if es != [] {
      WriteAllRow(d, now, t, es[..|es| - 1], id);
    }
  }

  /** A batch never takes a row away, and changes only the rows of events with a message in it. */
  lemma BatchRow(s: System, n: nat, id: EventId)
    requires n <= |s.queue|
    ensures id in s.t.events ==> id in AfterBatch(s, n).t.events
    ensures (forall i :: 0 <= i < n ==> Id(s.queue[i]) != id) ==>
      Row(AfterBatch(s, n).t, id) == Row(s.t, id) && Owed(AfterBatch(s, n).t, id) == Owed(s.t, id)
  {
    var valid := Dedupe(s.t.processedKeys, s.queue[..n]);
    WriteAllRow(s.d, s.now, s.t, valid, id);
    if forall i :: 0 <= i < n ==> Id(s.queue[i]) != id {
      forall v | 0 <= v < |valid| ensures Id(valid[v]) != id {
        var m := DedupeFrom(s.t.processedKeys, s.queue[..n], v);
      }
    }
  }

  /** How a row can leave: by the last acknowledgement it is owed, or collected by a replay that found
      nobody subscribed. Unless the event is doubled, nothing of it is then outstanding. */
  lemma RowLeaves(s: System, step: Step, id: EventId)
    requires Enabled(s, step) && id in s.t.events && id !in Next(s, step).t.events
    requires Inv(s)
    ensures (Acks(s, step, id) && Owed(s.t, id) == 1) || Collects(s, step, id)
    ensures id !in s.doubled ==> id !in Outstanding(Next(s, step))
  {
    hide Inv, Enabled, Next, Outstanding;
    EventsNext(s, step);
    InvCounted(s);
    match step
    case CommitBatch(n) =>
      BatchRow(s, n, id);
    case CommitAck =>
      if id !in s.doubled {
        LastAckIsLast(s);
      }
    case EndReplay =>
      if id !in s.doubled {
        DeadOwesNothing(s, id);
        EndReplayCounts(s);
      }
    case _ =>
  }

  lemma BatchNone(s: System)
    ensures AfterBatch(s, 0).t == s.t
  {
    EmptyBatch(s);
  }

  /** The event has a version that no step changes any more: it is not to be scheduled. */
  ghost predicate Final(s: System, id: EventId) {
    id in s.published && NotBefore(Version(s, id).metadata, s.now)
    && NoneFor(s.ready, id) && forall k :: k in s.t.scheduled ==> k.id != id
  }

  lemma {:induction false} WriteAllFuture(d: Directory, now: Nanos, t: Tables, es: seq<Envelope>, id: EventId)
    requires forall i :: 0 <= i < |es| && Id(es[i]) == id ==> !IsScheduled(es[i], now)
    requires forall k :: k in t.scheduled ==> k.id != id
    ensures forall k :: k in WriteAll(d, now, t, es).scheduled ==> k.id != id
  {
    if es != [] {
      WriteAllFuture(d, now, t, es[..|es| - 1], id);
    }
  }

  lemma BatchFinal(s: System, n: nat, id: EventId)
    requires Steady(s) && Final(s, id) && n <= |s.queue|
    ensures Final(AfterBatch(s, n), id)
  {
    var valid := Dedupe(s.t.processedKeys, s.queue[..n]);
    forall v | 0 <= v < |valid| && Id(valid[v]) == id ensures !IsScheduled(valid[v], s.now) {
      var m := DedupeFrom(s.t.processedKeys, s.queue[..n], v);
      assert IsVersion(s, Persist(s.queue[m]));
    }
    WriteAllFuture(s.d, s.now, s.t, valid, id);
  }

  lemma FinalStep(s: System, step: Step, id: EventId)
    requires Steady(s) && Final(s, id) && Enabled(s, step)
    ensures Final(Next(s, step), id) && Version(Next(s, step), id) == Version(s, id)
  {
    hide Steady, Enabled, Next, Held, Working, Overtaken, OnePlace, Rows, Replayable, Restore;
    FinalNext(s, step);
    match step
    case CommitBatch(n) => BatchFinal(s, n, id);
    case PullDue(keys) => PulledOthers(s, keys, id);
    case SendDue =>
    case _ =>
  }

  /** What a step does to the history, the scheduled rows and what the scheduler holds. */
  lemma FinalNext(s: System, step: Step)
    requires Enabled(s, step)
    ensures match step
            case CommitBatch(n) => n <= |s.queue| && Next(s, step) == AfterBatch(s, n)
            case PullDue(keys) => InTable(keys, s.t.scheduled) && Next(s, step) == AfterPull(s, keys)
            case SendDue => s.ready != [] && Next(s, step) == SendNext(s)
            case Publish(e) => Id(e) !in s.published && Next(s, step) == AfterPublish(s, e)
            case _ => SameHistory(s, Next(s, step))
  {
    hide Enabled, Next, Held, Working;
    EnabledHandlers(s, step);
    match step
    case CommitBatch(n) => CommitNext(s, n);
    case Dispatch(_) | FinishCopy(_, _) | DropCopy(_) | CommitAck | EndReplay | Rewire(_) | Tick(_) | Crash(_) =>
    case Publish(_) | PullDue(_) | SendDue => ScheduleNext(s, step);
    case _ => ReplayHistory(s, step);
  }

  ghost predicate SameHistory(s: System, u: System) {
    && u.published == s.published && u.pulled == s.pulled && u.now >= s.now
    && u.t.scheduled == s.t.scheduled && (u.ready == s.ready || u.ready == [])
  }

  lemma ScheduleNext(s: System, step: Step)
    requires Enabled(s, step) && (step.Publish? || step.PullDue? || step.SendDue?)
    ensures match step
            case PullDue(keys) => InTable(keys, s.t.scheduled) && Next(s, step) == AfterPull(s, keys)
            case SendDue => s.ready != [] && Next(s, step) == SendNext(s)
            case Publish(e) => Id(e) !in s.published && Next(s, step) == AfterPublish(s, e)
            case _ => true
  {
    hide Held, Working, Rows;
  }

  lemma ReplayHistory(s: System, step: Step)
    requires Enabled(s, step) && (step.BeginReplay? || step.ReplayRow? || step.BeginLetters? || step.SendLetter?)
    ensures SameHistory(s, Next(s, step))
  {
    hide Enabled, Held, Working, Rows, Overtaken;
  }

  lemma PulledOthers(s: System, keys: seq<RowKey>, id: EventId)
    requires Steady(s) && InTable(keys, s.t.scheduled) && forall k :: k in s.t.scheduled ==> k.id != id
    ensures NoneFor(AfterPull(s, keys).ready, id)
  {
    forall i | 0 <= i < |keys| ensures RowId(s.t.scheduled[keys[i]]) != id {
      assert ScheduledWell(s, keys[i]);
    }
  }

  lemma {:induction false} FinalRuns(states: seq<System>, steps: seq<Step>, i: nat, j: nat, id: EventId)
    requires Run(states, steps) && Initial(states[0]) && i <= j < |states| && Final(states[i], id)
    ensures Final(states[j], id) && Version(states[j], id) == Version(states[i], id)
  {
    hide Steady, Final, Enabled, Next, Initial, Version;
    if i < j {
      FinalRuns(states, steps, i, j - 1, id);
      SteadyRuns(states, steps, j - 1);
      assert Follows(states[j - 1], steps[j - 1], states[j]);
      FinalStep(states[j - 1], steps[j - 1], id);
    }
  }

  lemma RowFinal(s: System, id: EventId)
    requires Steady(s) && id in s.t.events
    ensures Final(s, id) && s.t.events[id] == Version(s, id)
  {
    assert Settled(s, s.t.events[id]);
    forall k | k in s.t.scheduled ensures k.id != id {
      assert ScheduledWell(s, k);
    }
    forall i | 0 <= i < |s.ready| ensures RowId(s.ready[i]) != id {
      assert ReadyWell(s, s.ready[i]);
    }
  }

  /** Whenever an event has a row, payload and metadata are what they were the first time, whatever was
      acknowledged, replayed, rewritten or lost in a crash in between; so are those of its dead letter. */
  lemma RowsConstant(states: seq<System>, steps: seq<Step>, i: nat, j: nat, id: EventId)
    requires Run(states, steps) && Initial(states[0]) && i <= j < |states| && id in states[i].t.events
    ensures id in states[j].t.events ==> states[j].t.events[id] == states[i].t.events[id]
    ensures id in states[j].t.dlq ==> states[j].t.dlq[id] == states[i].t.events[id]
  {
    hide Final, Initial, Version;
    SteadyRuns(states, steps, i);
    SteadyRuns(states, steps, j);
    RowFinal(states[i], id);
    FinalRuns(states, steps, i, j, id);
  }

  /** A row that is gone was removed in between by the last acknowledgement it was owed, or collected
      by a replay that found nobody subscribed. No crash and no other step takes it away. */
  lemma {:induction false} RowGone(states: seq<System>, steps: seq<Step>, i: nat, j: nat, id: EventId) returns (k: nat)
    requires Run(states, steps) && Initial(states[0]) && i <= j < |states|
    requires id in states[i].t.events && id !in states[j].t.events
    ensures i <= k < j
    ensures (Acks(states[k], steps[k], id) && Owed(states[k].t, id) == 1) || Collects(states[k], steps[k], id)
    ensures id !in states[k].doubled ==> id !in Outstanding(states[k + 1])
  {
    hide Inv, Enabled, Next, Outstanding, Initial;
    if id in states[j - 1].t.events {
      k := j - 1;
      RowsLeaveLast(states, steps, k, id);
    } else {
      k := RowGone(states, steps, i, j - 1, id);
    }
  }

  /** The step commits a batch with a message for the event, that is, the copy of a replay. */
  ghost predicate Rewrites(s: System, step: Step, id: EventId) {
    step.CommitBatch? && step.n <= |s.queue| && exists i :: 0 <= i < step.n && Id(s.queue[i]) == id
  }

  function AcksIn(states: seq<System>, steps: seq<Step>, i: nat, j: nat, id: EventId): nat
    requires i <= j <= |steps| <= |states|
  {
    if i == j then 0 else AcksIn(states, steps, i, j - 1, id) + if Acks(states[j - 1], steps[j - 1], id) then 1 else 0
  }

  lemma CountStep(s: System, step: Step, id: EventId)
    requires Enabled(s, step) && id in s.t.events && !Rewrites(s, step, id) && !Collects(s, step, id)
    requires Counted(s.t)
    ensures var u := Next(s, step); var n := Owed(s.t, id) - if Acks(s, step, id) then 1 else 0;
      Owed(u.t, id) == n && Row(u.t, id) == if n > 0 then Row(s.t, id) else None
  {
    hide Enabled, Next;
    EventsNext(s, step);
    match step
    case CommitBatch(n) => BatchRow(s, n, id);
    case _ =>
  }

  lemma InvCounted(s: System)
    requires Inv(s)
    ensures Counted(s.t)
  {
  }

  lemma {:induction false} CountedRuns(states: seq<System>, steps: seq<Step>, i: nat)
    requires Run(states, steps) && Initial(states[0]) && i < |states|
    ensures Counted(states[i].t)
  {
    SteadyRuns(states, steps, i);
  }

  /** A row without replay in between: over any stretch of any run, crashes included, the row stays
      and is unchanged as long as fewer acknowledgements were committed than its count, and is gone
      from the commit of the last one on. */
  lemma {:induction false} RowSurvives(states: seq<System>, steps: seq<Step>, i: nat, j: nat, id: EventId)
    requires Run(states, steps) && Initial(states[0]) && i <= j < |states| && id in states[i].t.events
    requires forall k :: i <= k < j ==> !Rewrites(states[k], steps[k], id) && !Collects(states[k], steps[k], id)
    requires AcksIn(states, steps, i, j, id) < Owed(states[i].t, id)
    ensures Row(states[j].t, id) == Row(states[i].t, id)
    ensures Owed(states[j].t, id) == Owed(states[i].t, id) - AcksIn(states, steps, i, j, id)
  {
    hide Enabled, Next, Rewrites, Initial, Counted;
    if i < j {
      RowSurvives(states, steps, i, j - 1, id);
      assert Follows(states[j - 1], steps[j - 1], states[j]);
      CountedRuns(states, steps, j - 1);
      CountStep(states[j - 1], steps[j - 1], id);
    }
  }

  lemma RowEnds(states: seq<System>, steps: seq<Step>, i: nat, j: nat, id: EventId)
    requires Run(states, steps) && Initial(states[0]) && i <= j < |steps| && id in states[i].t.events
    requires forall k :: i <= k <= j ==> !Rewrites(states[k], steps[k], id) && !Collects(states[k], steps[k], id)
    requires AcksIn(states, steps, i, j, id) + 1 == Owed(states[i].t, id) && Acks(states[j], steps[j], id)
    ensures Row(states[j + 1].t, id) == None
  {
    hide Enabled, Next, Rewrites, Initial, Counted;
    RowSurvives(states, steps, i, j, id);
    CountedRuns(states, steps, j);
    assert Follows(states[j], steps[j], states[j + 1]);
    CountStep(states[j], steps[j], id);
  }

  /** A committed message that is no duplicate, is due and has subscribers is in the tables and, unless
      the event is doubled, with the full count. */
  lemma CommitsWrite(states: seq<System>, steps: seq<Step>, i: nat, k: nat)
    requires Run(states, steps) && Initial(states[0]) && i < |steps| && steps[i].CommitBatch?
    requires k < steps[i].n <= |states[i].queue|
    requires var s := states[i]; var e := s.queue[k];
      !Duplicate(s.t.processedKeys, s.queue[..k], e) && HasSubscribers(s.d)(e) && !IsScheduled(e, s.now)
    ensures var s, u := states[i], states[i + 1]; var e := s.queue[k];
      && Row(u.t, Id(e)) == Some(Persist(e))
      && (Id(e) !in s.doubled ==> Owed(u.t, Id(e)) == Count(s.d, e.typeId))
  {
    hide Inv, Steady, Enabled, Next, Initial, Duplicate, ProcessBatch;
    var s, n := states[i], steps[i].n;
    Reachable(states, steps, i);
    SteadyRuns(states, steps, i);
    assert Follows(s, steps[i], states[i + 1]);
    EventsNext(s, steps[i]);
    CommitWrites(s, n, k);
    if Id(s.queue[k]) !in s.doubled {
      forall j | k < j < n ensures Id(s.queue[j]) != Id(s.queue[k]) {
        QueueDistinct(s, k, j);
      }
    }
  }

  lemma {:induction false} CommitWrites(s: System, n: nat, i: nat)
    requires i < n <= |s.queue|
    requires var e := s.queue[i];
      !Duplicate(s.t.processedKeys, s.queue[..i], e) && HasSubscribers(s.d)(e) && !IsScheduled(e, s.now)
    requires Steady(s)
    ensures var e, u := s.queue[i], AfterBatch(s, n);
      && Row(u.t, Id(e)) == Some(Persist(e))
      && ((forall j :: i < j < n ==> Id(s.queue[j]) != Id(e)) ==> Owed(u.t, Id(e)) == Count(s.d, e.typeId))
  {
    hide Steady, ProcessBatch, Duplicate;
    BatchTakes(s, n);
    var u, e := AfterBatch(s, n - 1), s.queue[n - 1];
    assert u.queue[0] == e;
    if i < n - 1 {
      CommitWrites(s, n - 1, i);
      if Id(e) == Id(s.queue[i]) {
        SameMessage(s, i, n - 1);
      }
    }
  }

  /** A committed message that is no duplicate, has subscribers and whose time is still to come has its
      scheduled row, under the millisecond it is due in and its id. */
  lemma CommitsSchedule(states: seq<System>, steps: seq<Step>, i: nat, k: nat)
    requires Run(states, steps) && Initial(states[0]) && i < |steps| && steps[i].CommitBatch?
    requires k < steps[i].n <= |states[i].queue|
    requires var s := states[i]; var e := s.queue[k];
      && !Duplicate(s.t.processedKeys, s.queue[..k], e) && HasSubscribers(s.d)(e)
      && e.metadata.deliverAt.Some? && e.metadata.deliverAt.value > s.now
    ensures var e, t := states[i].queue[k], states[i + 1].t;
      var key := RowKey(e.metadata.deliverAt.value / 1_000_000, Id(e));
      key in t.scheduled && t.scheduled[key] == Persist(e)
  {
    hide Steady, Enabled, Next, Initial, Duplicate, ProcessBatch;
    var s, n := states[i], steps[i].n;
    SteadyRuns(states, steps, i);
    assert Follows(s, steps[i], states[i + 1]);
    EventsNext(s, steps[i]);
    assert s.queue[..n][..k] == s.queue[..k];
    forall m | k < m < n ensures Id(s.queue[m]) != Id(s.queue[k]) {
      if Id(s.queue[m]) == Id(s.queue[k]) {
        SameMessage(s, k, m);
      }
    }
    BatchStores(s.d, s.now, s.t, s.queue[..n], k);
  }

  /** A batch lists for dispatch exactly its messages that are no duplicates and due. */
  lemma CommitsDispatch(states: seq<System>, steps: seq<Step>, i: nat, e: Envelope)
    requires Run(states, steps) && i < |steps| && steps[i].CommitBatch?
    ensures steps[i].n <= |states[i].queue|
    ensures e in states[i + 1].todo <==>
      exists k: nat :: k < steps[i].n && states[i].queue[k] == e
        && !Duplicate(states[i].t.processedKeys, states[i].queue[..k], e)
        && (e.metadata.deliverAt.Some? ==> e.metadata.deliverAt.value <= states[i].now)
  {
    hide Duplicate, Enabled, Next, ProcessBatch, AfterBatch;
    var s, n := states[i], steps[i].n;
    assert Follows(s, steps[i], states[i + 1]);
    EventsNext(s, steps[i]);
    BatchTodo(s, n);
    DispatchedMembers(s.d, s.now, s.t, s.queue[..n]);
    forall k: nat | k < n
      ensures Dispatches(s.t.processedKeys, s.now, s.queue[..n], k) <==>
        !Duplicate(s.t.processedKeys, s.queue[..k], s.queue[k])
        && (s.queue[k].metadata.deliverAt.Some? ==> s.queue[k].metadata.deliverAt.value <= s.now)
    {
      assert s.queue[..n][..k] == s.queue[..k];
    }
  }

  lemma BatchTodo(s: System, n: nat)
    requires Enabled(s, CommitBatch(n))
    ensures AfterBatch(s, n).todo == ProcessBatch(s.d, s.now, s.t, s.queue[..n]).dispatched
  {
    hide ProcessBatch;
  }

  /** Two messages of one event say the same, and are due. */
  lemma SameMessage(s: System, i: nat, j: nat)
    requires Steady(s) && i < j < |s.queue| && Id(s.queue[i]) == Id(s.queue[j])
    ensures Persist(s.queue[i]) == Persist(s.queue[j]) && NotBefore(s.queue[i].metadata, s.now)
  {
    assert IsVersion(s, Persist(s.queue[i])) && IsVersion(s, Persist(s.queue[j]));
  }

  lemma QueueDistinct(s: System, i: nat, j: nat)
    requires i < j < |s.queue| && (Id(s.queue[i]) !in s.doubled || Id(s.queue[j]) !in s.doubled)
    requires Inv(s)
    ensures Id(s.queue[i]) != Id(s.queue[j])
  {
    hide Lined, Covered, Outstanding, Sound;
    var ids := EnvelopeIds(s.queue);
    if ids[j] !in s.doubled {
      assert Held(s)[ids[j]] <= 1 && multiset(ids)[ids[j]] <= Held(s)[ids[j]];
      TwiceCounts(ids, i, j);
    }
  }

  lemma TwiceCounts(ids: seq<EventId>, i: nat, j: nat)
    requires i < j < |ids|
    ensures ids[i] == ids[j] ==> multiset(ids)[ids[j]] >= 2
  {
    assert ids == ids[..j] + ids[j..];
    assert ids[..j][i] == ids[i] && ids[j..][0] == ids[j];
  }

  /** In no run does an acknowledgement of an event that is not doubled come without a row. */
  lemma AcksFindRows(states: seq<System>, steps: seq<Step>, i: nat)
    requires Run(states, steps) && Initial(states[0]) && i < |steps| && steps[i] == CommitAck
    ensures states[i].acks != []
    ensures states[i].acks[0].id !in states[i].doubled ==>
      Row(states[i].t, states[i].acks[0].id).Some? && Owed(states[i].t, states[i].acks[0].id) >= 1
  {
    hide Inv, Next;
    Reachable(states, steps, i);
    assert Follows(states[i], steps[i], states[i + 1]);
    if states[i].acks[0].id !in states[i].doubled {
      AckFindsRow(states[i]);
      InvCounted(states[i]);
    }
  }

  /** In no run does a row leave but by its last acknowledgement or collected; and unless the event is
      doubled, no copy of it is then in a handler's inbox, on its way to one, or handled with its
      acknowledgement not yet committed. */
  lemma RowsLeaveLast(states: seq<System>, steps: seq<Step>, i: nat, id: EventId)
    requires Run(states, steps) && Initial(states[0]) && i < |steps|
    requires id in states[i].t.events && id !in states[i + 1].t.events
    ensures id !in states[i].doubled ==> id !in Outstanding(states[i + 1])
    ensures (Acks(states[i], steps[i], id) && Owed(states[i].t, id) == 1) || Collects(states[i], steps[i], id)
  {
    hide Inv, Enabled, Next, Outstanding;
    Reachable(states, steps, i);
    assert Follows(states[i], steps[i], states[i + 1]);
    RowLeaves(states[i], steps[i], id);
  }

  /** In every state of every run the tables fit together: event rows and counts pair up with no zero
      count, and a scheduled event has one scheduled row and no other. An event that is not doubled has
      rows in one table at most, and its count covers what is outstanding. */
  lemma TablesFit(states: seq<System>, steps: seq<Step>, i: nat)
    requires Run(states, steps) && Initial(states[0]) && i < |states|
    ensures Counted(states[i].t)
    ensures forall k :: k in states[i].t.scheduled ==> OnePlace(states[i].t, k.id) && k.id !in states[i].doubled
    ensures forall id :: id !in states[i].doubled ==>
      OnePlace(states[i].t, id) && Owed(states[i].t, id) >= Outstanding(states[i])[id]
  {
    hide Inv, Outstanding, OnePlace;
    Reachable(states, steps, i);
    SteadyRuns(states, steps, i);
    forall k | k in states[i].t.scheduled ensures k.id !in states[i].doubled {
      assert ScheduledWell(states[i], k);
    }
    CoversAll(states[i]);
  }

  lemma CoversAll(s: System)
    requires Inv(s)
    ensures forall id :: id !in s.doubled ==> OnePlace(s.t, id) && Owed(s.t, id) >= Outstanding(s)[id]
  {
    hide Held, Working, Outstanding, Waits, Lined;
    forall id | id !in s.doubled ensures Owed(s.t, id) >= Outstanding(s)[id] {
      assert id !in Outstanding(s) ==> Outstanding(s)[id] == 0;
    }
  }

  /** After a crash an event is doubled only if it was before and has both an event row and a dead letter. */
  lemma CrashSingles(states: seq<System>, steps: seq<Step>, i: nat, id: EventId)
    requires Run(states, steps) && Initial(states[0]) && i < |steps| && steps[i].Crash?
    ensures var s := states[i];
      id in states[i + 1].doubled <==> id in s.doubled && id in s.t.events && id in s.t.dlq
  {
    hide Held, Working;
    var s := states[i];
    SteadyRuns(states, steps, i);
    assert Follows(s, steps[i], states[i + 1]);
    forall k | k in s.t.scheduled ensures k.id !in s.doubled {
      assert ScheduledWell(s, k);
    }
  }

  // ---------- Replay of pending rows ----------

  predicate Replaying(step: Step) { !step.Crash? && !step.BeginReplay? }

  /** The row that a step of the replay takes up. */
  function TakenUp(s: System, step: Step): seq<PersistedEnvelope> {
    if step.ReplayRow? && s.rest != [] then [s.rest[0]] else []
  }

  /** The rows that the replay takes up between two states, in order. */
  function Handled(states: seq<System>, steps: seq<Step>, i: nat, j: nat): seq<PersistedEnvelope>
    requires i <= j <= |steps| <= |states|
  {
    if i == j then [] else Handled(states, steps, i, j - 1) + TakenUp(states[j - 1], steps[j - 1])
  }

  /** Every row of the replay is taken up exactly once. */
  lemma {:induction false} ReplayInOrder(states: seq<System>, steps: seq<Step>, i: nat, j: nat)
    requires Run(states, steps) && i <= j < |states|
    requires forall k :: i <= k < j ==> Replaying(steps[k])
    ensures states[i].rest == Handled(states, steps, i, j) + states[j].rest
  {
    hide Enabled, Next, Replaying;
    if i < j {
      ReplayInOrder(states, steps, i, j - 1);
      assert Follows(states[j - 1], steps[j - 1], states[j]);
      RestStep(states[j - 1], steps[j - 1]);
      HandledPush(states, steps, i, j);
    } else {
      assert [] + states[j].rest == states[j].rest;
    }
  }

  lemma RestStep(s: System, step: Step)
    requires Enabled(s, step) && Replaying(step)
    ensures s.rest == TakenUp(s, step) + Next(s, step).rest
  {
    hide Enabled, Next;
    if step.ReplayRow? {
      RestTaken(s);
    } else {
      RestSame(s, step);
    }
    assert [] + s.rest == s.rest;
  }

  lemma RestTaken(s: System)
    requires Enabled(s, ReplayRow)
    ensures s.rest != [] && Next(s, ReplayRow).rest == s.rest[1..]
  {
  }

  lemma RestSame(s: System, step: Step)
    requires Enabled(s, step) && Replaying(step) && !step.ReplayRow?
    ensures Next(s, step).rest == s.rest
  {
    hide Enabled, Held, Working, ProcessBatch;
  }

  lemma HandledPush(states: seq<System>, steps: seq<Step>, i: nat, j: nat)
    requires i < j <= |steps| < |states|
    requires states[j - 1].rest == TakenUp(states[j - 1], steps[j - 1]) + states[j].rest
    requires states[i].rest == Handled(states, steps, i, j - 1) + states[j - 1].rest
    ensures states[i].rest == Handled(states, steps, i, j) + states[j].rest
  {
  }

  lemma ReplayEnds(s: System, order: seq<EventId>, t: System)
    requires InTable(order, s.t.events) && Enabled(s, BeginReplay(order)) && Enabled(t, EndReplay)
    ensures Next(s, BeginReplay(order)).rest == Rows(s.t.events, order) && t.rest == []
    ensures Lists(order, s.t.events.Keys * s.t.refcount.Keys, ById())
  {
  }

  lemma RowsCounted(s: System)
    requires Counted(s.t)
    ensures s.t.events.Keys * s.t.refcount.Keys == s.t.events.Keys
  {
  }

  /** A call of `replay_pending` from its start to its end without a crash takes up all event rows
      there were, each once, in the order of their ids. */
  lemma ReplayExactlyOnce(states: seq<System>, steps: seq<Step>, i: nat, j: nat, order: seq<EventId>)
    requires Run(states, steps) && i < j < |steps| && InTable(order, states[i].t.events)
    requires steps[i] == BeginReplay(order) && steps[j] == EndReplay && forall k :: i < k < j ==> Replaying(steps[k])
    requires Initial(states[0])
    ensures Handled(states, steps, i + 1, j) == Rows(states[i].t.events, order)
    ensures Lists(order, states[i].t.events.Keys, ById())
  {
    hide Enabled, Next, Counted, Replaying, Lists, Initial;
    CountedRuns(states, steps, i);
    assert Follows(states[i], steps[i], states[i + 1]) && Follows(states[j], steps[j], states[j + 1]);
    ReplayInOrder(states, steps, i + 1, j);
    ReplayEnds(states[i], order, states[j]);
    RowsCounted(states[i]);
    assert Handled(states, steps, i + 1, j) + [] == Handled(states, steps, i + 1, j);
  }

  /** What taking up a row does: it goes to the queue with id, payload and metadata unchanged or, without
      subscribers, is marked for removal. Unless the event is doubled, the row is still in the table as it
      was read; if it is there, it is as it was read in any case. */
  lemma ReplaysSend(states: seq<System>, steps: seq<Step>, i: nat)
    requires Run(states, steps) && Initial(states[0])
    requires i < |steps| && steps[i] == ReplayRow && states[i].rest != []
    ensures var s, u, row := states[i], states[i + 1], states[i].rest[0]; var id := RowId(row);
      && (id !in s.doubled ==> Row(s.t, id).Some?) && (Row(s.t, id).Some? ==> Row(s.t, id) == Some(row))
      && u.t == s.t
      && (if Replayable(s.d, row).Some?
          then u.queue == s.queue + [Restore(Replayable(s.d, row).value, row)] && u.dead == s.dead
          else u.queue == s.queue && u.dead == s.dead + {id})
  {
    hide Inv, Initial, Enabled;
    Reachable(states, steps, i);
    SteadyRuns(states, steps, i);
    assert Follows(states[i], steps[i], states[i + 1]);
    if RowId(states[i].rest[0]) !in states[i].doubled {
      RestHasRow(states[i]);
    }
    if RowId(states[i].rest[0]) in states[i].t.events {
      RestIsRow(states[i]);
    }
  }

  lemma RestHasRow(s: System)
    requires s.rest != [] && RowId(s.rest[0]) !in s.doubled
    requires Inv(s)
    ensures RowId(s.rest[0]) in s.t.events
  {
    hide Held, Waits, Working, Outstanding, Covered, Sound;
    assert Current(s.t.events, s.rest, s.doubled);
  }

  lemma RestIsRow(s: System)
    requires Steady(s) && s.rest != [] && RowId(s.rest[0]) in s.t.events
    ensures s.t.events[RowId(s.rest[0])] == s.rest[0]
  {
    assert Settled(s, s.rest[0]) && Settled(s, s.t.events[RowId(s.rest[0])]);
  }

  // ---------- Idempotency ----------

  /** No two rows ever written share a key, and the keys on record are those of the rows written. */
  ghost predicate KeyedOnce(s: System) {
    && (forall i, j :: 0 <= i < j < |s.written| ==> !SameKey(s.written[i], s.written[j]))
    && (forall k :: k in s.t.processedKeys <==> Carries(s.written, k))
  }

  lemma DedupeKeys(processed: set<Key>, batch: seq<Envelope>, i: nat, j: nat)
    requires i < j < |Dedupe(processed, batch)|
    ensures !SameKey(Dedupe(processed, batch)[i], Dedupe(processed, batch)[j])
    decreases |batch|
  {
    var n := |batch| - 1;
    var before := Dedupe(processed, batch[..n]);
    if j < |before| {
      DedupeKeys(processed, batch[..n], i, j);
    } else {
      var m := DedupeFrom(processed, batch[..n], i);
      assert batch[..n][m] == before[i];
    }
  }

  lemma {:induction false} DedupeFrom(processed: set<Key>, batch: seq<Envelope>, i: nat) returns (m: nat)
    requires i < |Dedupe(processed, batch)|
    ensures m < |batch| && batch[m] == Dedupe(processed, batch)[i]
    ensures !Duplicate(processed, batch[..m], batch[m])
  {
    var n := |batch| - 1;
    if i < |Dedupe(processed, batch[..n])| {
      m := DedupeFrom(processed, batch[..n], i);
      assert batch[..n][..m] == batch[..m];
    } else {
      m := n;
    }
  }

  /** What a batch writes, and which keys come on record with it. */
  lemma {:induction false} WriteAllKeys(d: Directory, now: Nanos, t: Tables, es: seq<Envelope>, k: Key)
    ensures k in WriteAll(d, now, t, es).processedKeys <==>
      k in t.processedKeys || Carries(Filter(es, HasSubscribers(d)), k)
  {
    if es != [] {
      var n := |es| - 1;
      var before := Filter(es[..n], HasSubscribers(d));
      WriteAllKeys(d, now, t, es[..n], k);
      assert before + [] == before;
      CarriesPush(before, es[n], k);
    }
  }

  lemma CarriesPush(es: seq<Envelope>, e: Envelope, k: Key)
    ensures Carries(es + [e], k) <==> Carries(es, k) || e.metadata.idempotencyKey == Some(k)
  {
    assert (es + [e])[|es|] == e;
    assert forall i :: 0 <= i < |es| ==> (es + [e])[i] == es[i];
  }

  lemma CarriesConcat(xs: seq<Envelope>, ys: seq<Envelope>, k: Key)
    ensures Carries(xs + ys, k) <==> Carries(xs, k) || Carries(ys, k)
  {
    assert forall i :: 0 <= i < |xs| ==> (xs + ys)[i] == xs[i];
    assert forall i :: 0 <= i < |ys| ==> (xs + ys)[|xs| + i] == ys[i];
  }

  lemma BatchKeyedOnce(s: System, n: nat)
    requires KeyedOnce(s) && n <= |s.queue|
    ensures KeyedOnce(AfterBatch(s, n))
  {
    hide WriteAll, Dedupe, Duplicate, SameKey, Carries;
    var u := AfterBatch(s, n);
    forall k ensures k in u.t.processedKeys <==> Carries(u.written, k) {
      BatchRecords(s, n, k);
    }
    forall i, j | 0 <= i < j < |u.written| ensures !SameKey(u.written[i], u.written[j]) {
      if i >= |s.written| {
        AddedKeys(s, n, i - |s.written|, j - |s.written|);
      } else if j >= |s.written| {
        AddedAreNew(s, n, s.written[i], j - |s.written|);
      }
    }
  }

  lemma BatchRecords(s: System, n: nat, k: Key)
    requires n <= |s.queue| && (k in s.t.processedKeys <==> Carries(s.written, k))
    ensures k in AfterBatch(s, n).t.processedKeys <==> Carries(AfterBatch(s, n).written, k)
  {
    hide WriteAll, Dedupe, Carries;
    var valid := Dedupe(s.t.processedKeys, s.queue[..n]);
    WriteAllKeys(s.d, s.now, s.t, valid, k);
    CarriesConcat(s.written, Filter(valid, HasSubscribers(s.d)), k);
  }

  lemma AddedKeys(s: System, n: nat, i: nat, j: nat)
    requires n <= |s.queue|
    requires i < j < |Filter(Dedupe(s.t.processedKeys, s.queue[..n]), HasSubscribers(s.d))|
    ensures var added := Filter(Dedupe(s.t.processedKeys, s.queue[..n]), HasSubscribers(s.d));
      !SameKey(added[i], added[j])
  {
    var valid := Dedupe(s.t.processedKeys, s.queue[..n]);
    FilterOrdered(valid, HasSubscribers(s.d), i, j);
    var a := FilterFrom(valid, HasSubscribers(s.d), i);
    var b := FilterFrom(valid, HasSubscribers(s.d), j);
    DedupeKeys(s.t.processedKeys, s.queue[..n], a, b);
  }

  lemma AddedAreNew(s: System, n: nat, e: Envelope, j: nat)
    requires KeyedOnce(s) && n <= |s.queue| && e in s.written
    requires j < |Filter(Dedupe(s.t.processedKeys, s.queue[..n]), HasSubscribers(s.d))|
    ensures !SameKey(e, Filter(Dedupe(s.t.processedKeys, s.queue[..n]), HasSubscribers(s.d))[j])
  {
    var valid := Dedupe(s.t.processedKeys, s.queue[..n]);
    var b := FilterFrom(valid, HasSubscribers(s.d), j);
    var m := DedupeFrom(s.t.processedKeys, s.queue[..n], b);
    assert e.metadata.idempotencyKey.Some? ==> Carries(s.written, e.metadata.idempotencyKey.value);
  }

  lemma {:induction false} IdempotentRuns(states: seq<System>, steps: seq<Step>, i: nat)
    requires Run(states, steps) && Initial(states[0]) && i < |states|
    ensures KeyedOnce(states[i])
  {
    if i > 0 {
      IdempotentRuns(states, steps, i - 1);
      assert Follows(states[i - 1], steps[i - 1], states[i]);
      match steps[i - 1]
      case CommitBatch(n) => BatchKeyedOnce(states[i - 1], n);
      case _ => KeysKept(states[i - 1], steps[i - 1]);
    }
  }

  lemma KeysKept(s: System, step: Step)
    requires Enabled(s, step) && !step.CommitBatch?
    ensures Next(s, step).t.processedKeys == s.t.processedKeys && Next(s, step).written == s.written
  {
    hide Enabled, Next, Held, Working;
    EnabledHandlers(s, step);
    match step
    case Dispatch(_) | FinishCopy(_, _) | DropCopy(_) | CommitAck | EndReplay | Rewire(_) | Tick(_) | Crash(_) =>
    case _ => QueuesKeep(s, step);
  }

  ghost predicate Source(written: seq<Envelope>, row: PersistedEnvelope) {
    exists i :: 0 <= i < |written| && Persist(written[i]) == row
  }

  ghost predicate RowsFrom(t: Tables, written: seq<Envelope>) {
    && (forall id :: id in t.events ==> Source(written, t.events[id]))
    && (forall k :: k in t.scheduled ==> Source(written, t.scheduled[k]))
    && (forall id :: id in t.dlq ==> Source(written, t.dlq[id]))
  }

  lemma {:induction false} WriteAllSources(d: Directory, now: Nanos, t: Tables, es: seq<Envelope>,
      written: seq<Envelope>)
    requires RowsFrom(t, written)
    ensures RowsFrom(WriteAll(d, now, t, es), written + Filter(es, HasSubscribers(d)))
  {
    hide RowsFrom, WriteOne;
    if es == [] {
      assert written + [] == written;
    } else {
      var n := |es| - 1;
      WriteAllSources(d, now, t, es[..n], written);
      WriteSource(d, now, WriteAll(d, now, t, es[..n]), es[n], written + Filter(es[..n], HasSubscribers(d)));
      assert written + Filter(es, HasSubscribers(d))
        == written + Filter(es[..n], HasSubscribers(d)) + (if HasSubscribers(d)(es[n]) then [es[n]] else []);
    }
  }

  lemma WriteSource(d: Directory, now: Nanos, t: Tables, e: Envelope, written: seq<Envelope>)
    requires RowsFrom(t, written)
    ensures RowsFrom(WriteOne(d, now, t, e), written + (if HasSubscribers(d)(e) then [e] else []))
  {
    if HasSubscribers(d)(e) {
      SourcesGrow(t, written, e);
      assert (written + [e])[|written|] == e;
      assert Source(written + [e], Persist(e));
    } else {
      assert written + [] == written;
    }
  }

  lemma SourcesGrow(t: Tables, written: seq<Envelope>, e: Envelope)
    requires RowsFrom(t, written)
    ensures RowsFrom(t, written + [e])
  {
    assert forall i :: 0 <= i < |written| ==> (written + [e])[i] == written[i];
  }

  /** Every row ever found in a table is one of the rows counted as written. */
  lemma {:induction false} SourcedRuns(states: seq<System>, steps: seq<Step>, i: nat)
    requires Run(states, steps) && Initial(states[0]) && i < |states|
    ensures RowsFrom(states[i].t, states[i].written)
  {
    if i > 0 {
      SourcedRuns(states, steps, i - 1);
      assert Follows(states[i - 1], steps[i - 1], states[i]);
      SourceStep(states[i - 1], steps[i - 1]);
    }
  }

  lemma SourceStep(s: System, step: Step)
    requires Enabled(s, step) && RowsFrom(s.t, s.written)
    ensures RowsFrom(Next(s, step).t, Next(s, step).written)
  {
    match step
    case CommitBatch(n) =>
      WriteAllSources(s.d, s.now, s.t, Dedupe(s.t.processedKeys, s.queue[..n]), s.written);
    case _ =>
  }
}
