/** What becomes of an event: when it is gone for good, what a crash leaves of a scheduled event, when a
    dead letter comes back, and how long a row stays. */
module OutboxFates {
  import opened Events
  import opened Sorting
  import opened OutboxTables
  import opened GroupCommit
  import opened OutboxStore
  import opened OutboxProtocol
  import opened OutboxSteps
  import opened OutboxSteady
  import opened OutboxRuns
  import opened OutboxReinjected

  ghost predicate HasSchedule(t: Tables, id: EventId) { exists k :: k in t.scheduled && k.id == id }

  ghost predicate InTables(t: Tables, id: EventId) { id in t.events || id in t.dlq || HasSchedule(t, id) }

  /** The event is in a table, in a message, or with a handler. */
  ghost predicate Anywhere(s: System, id: EventId) { InTables(s.t, id) || id in Held(s) || id in Working(s) }

  // ---------- Gone is gone ----------

  lemma {:induction false} WriteAllOthers(d: Directory, now: Nanos, t: Tables, es: seq<Envelope>, id: EventId)
    requires forall i :: 0 <= i < |es| && Id(es[i]) == id ==> !HasSubscribers(d)(es[i])
    ensures InTables(WriteAll(d, now, t, es), id) <==> InTables(t, id)
    ensures Row(WriteAll(d, now, t, es), id) == Row(t, id)
  {
    if es != [] {
      hide InTables, WriteOne, Row;
      WriteAllOthers(d, now, t, es[..|es| - 1], id);
      WriteOther(d, now, WriteAll(d, now, t, es[..|es| - 1]), es[|es| - 1], id);
    }
  }

  lemma WriteOther(d: Directory, now: Nanos, t: Tables, e: Envelope, id: EventId)
    requires Id(e) == id ==> !HasSubscribers(d)(e)
    ensures InTables(WriteOne(d, now, t, e), id) <==> InTables(t, id)
    ensures Row(WriteOne(d, now, t, e), id) == Row(t, id)
  {
    var u := WriteOne(d, now, t, e);
    assert forall k: RowKey :: k.id == id ==> (k in u.scheduled <==> k in t.scheduled);
  }

  /** A batch leaves the tables alone for an event whose messages in it are duplicates or have no
      subscribers. */
  lemma BatchSkips(s: System, n: nat, id: EventId)
    requires n <= |s.queue|
    requires forall i :: 0 <= i < n && Id(s.queue[i]) == id ==>
      Duplicate(s.t.processedKeys, s.queue[..i], s.queue[i]) || !HasSubscribers(s.d)(s.queue[i])
    ensures InTables(AfterBatch(s, n).t, id) <==> InTables(s.t, id)
    ensures Row(AfterBatch(s, n).t, id) == Row(s.t, id)
  {
    var valid := Dedupe(s.t.processedKeys, s.queue[..n]);
    forall v | 0 <= v < |valid| && Id(valid[v]) == id ensures !HasSubscribers(s.d)(valid[v]) {
      var m := DedupeFrom(s.t.processedKeys, s.queue[..n], v);
      assert s.queue[..n][..m] == s.queue[..m];
    }
    WriteAllOthers(s.d, s.now, s.t, valid, id);
  }

  lemma TakeStaysGone(s: System, drop: bool, id: EventId)
    requires s.queue != [] && !Anywhere(s, id)
    ensures !Anywhere(TakeOne(s, drop), id)
  {
    hide Held, Working, WriteOne, InTables;
    var e := s.queue[0];
    DropCounts(s);
    assert Id(e) in Held(s);
    if !drop {
      WriteOther(s.d, s.now, s.t, e, id);
      if IsScheduled(e, s.now) {
        ScheduleCounts(s);
      } else {
        TodoCounts(s);
      }
    }
  }

  lemma {:induction false} BatchStaysGone(s: System, n: nat, id: EventId)
    requires n <= |s.queue| && !Anywhere(s, id)
    ensures !Anywhere(AfterBatch(s, n), id)
  {
    hide Anywhere, ProcessBatch, Duplicate;
    if n == 0 {
      BatchNothing(s, id);
    } else {
      BatchStaysGone(s, n - 1, id);
      BatchTakes(s, n);
      var u, drop := AfterBatch(s, n - 1), Duplicate(s.t.processedKeys, s.queue[..n - 1], s.queue[n - 1]);
      assert u.queue[0] == s.queue[n - 1];
      TakeStaysGone(u, drop, id);
      WrittenElsewhere(TakeOne(u, drop), AfterBatch(s, n), id);
    }
  }

  lemma BatchNothing(s: System, id: EventId)
    requires !Anywhere(s, id)
    ensures !Anywhere(AfterBatch(s, 0), id)
  {
    BatchNone(s);
    assert s.queue[..0] == [] && s.queue[0..] == s.queue && s.todo + [] == s.todo;
    var u := AfterBatch(s, 0);
    assert u.todo == s.todo;
  }

  lemma WrittenElsewhere(s: System, u: System, id: EventId)
    requires u.(written := s.written) == s && !Anywhere(s, id)
    ensures !Anywhere(u, id)
  {
    assert Held(u) == Held(s) && Working(u) == Working(s);
  }

  lemma QueuesStayGone(s: System, step: Step, id: EventId)
    requires Inv(s) && Enabled(s, step) && id in s.published && !Anywhere(s, id)
    requires step.Publish? || step.PullDue? || step.SendDue? || step.BeginReplay? || step.ReplayRow?
      || step.BeginLetters? || step.SendLetter?
    ensures !Anywhere(Next(s, step), id)
  {
    hide Inv, Enabled, Next, Held, Working, Outstanding;
    EnabledQueues(s, step);
    SoundFiled(s);
    match step
    case Publish(e) => PublishCounts(s, e);
    case PullDue(keys) => PullGone(s, keys, id);
    case SendDue =>
      match Replayable(s.d, s.ready[0]) {
        case Some(typeId) => ReadyCounts(s, Restore(typeId, Strip(s.ready[0])), SendNext(s).pulled);
        case None => ReadyCounts(s, Restore(0, Strip(s.ready[0])), s.pulled);
      }
    case BeginReplay(order) =>
      BeginReplayCounts(s, order);
      RowsOwnIds(s.t.events, order);
    case ReplayRow => ReplayGone(s, id);
    case BeginLetters(order) =>
      BeginLettersCounts(s, order);
      RowsOwnIds(s.t.dlq, order);
    case SendLetter(k) =>
      var row := s.letters[k];
      if row.typeName in s.d.names && |s.queue| < s.capacity {
        LetterCounts(s, k, Restore(s.d.names[row.typeName], row));
      } else {
        LetterCounts(s, k, Restore(0, row));
      }
  }

  lemma EnabledQueues(s: System, step: Step)
    requires Enabled(s, step)
    ensures match step
            case Publish(e) => Id(e) !in s.published && Next(s, step) == AfterPublish(s, e)
            case PullDue(keys) => s.ready == [] && InTable(keys, s.t.scheduled) && Ascending(keys, ByDue())
              && Next(s, step) == AfterPull(s, keys)
            case SendDue => s.ready != [] && Next(s, step) == SendNext(s)
            case BeginReplay(order) => s.rest == [] && InTable(order, s.t.events)
              && (forall id :: id in order ==> id in s.t.events) && Next(s, step) == AfterBeginReplay(s, order)
            case ReplayRow => s.rest != [] && Next(s, step) == ReplayNext(s)
            case BeginLetters(order) => InTable(order, s.t.dlq)
              && (forall id :: id in order ==> id in s.t.dlq) && Next(s, step) == AfterBeginLetters(s, order)
            case SendLetter(k) => k < |s.letters| && Next(s, step) == LetterNext(s, k)
            case _ => true
  {
  }

  lemma PullGone(s: System, keys: seq<RowKey>, id: EventId)
    requires Inv(s) && s.ready == [] && InTable(keys, s.t.scheduled) && Ascending(keys, ByDue())
    requires !Anywhere(s, id)
    ensures !Anywhere(AfterPull(s, keys), id)
  {
    hide Held, Working, Outstanding, Waits, Covered, Lined;
    PullCounts(s, keys);
    PulledIds(s.t, s.now, s.doubled, keys);
    assert id !in RowIds(AfterPull(s, keys).ready);
  }

  lemma ReplayGone(s: System, id: EventId)
    requires Inv(s) && s.rest != [] && !Anywhere(s, id)
    ensures !Anywhere(ReplayNext(s), id)
  {
    hide Held, Working, Outstanding, Waits, Covered, Lined, Sound;
    var row, v := s.rest[0], s.(rest := s.rest[1..]);
    assert RowId(row) in Held(s) by {
      RestCounts(s, Restore(0, row));
    }
    match Replayable(s.d, row)
    case Some(typeId) => RestCounts(s, Restore(typeId, row));
    case None =>
      RestCounts(s, Restore(0, row));
      DeadCounts(v, RowId(row));
  }

  lemma HandlersStayGone(s: System, step: Step, id: EventId)
    requires Inv(s) && Enabled(s, step) && !Anywhere(s, id)
    requires step.Dispatch? || step.FinishCopy? || step.DropCopy? || step.CommitAck? || step.EndReplay? || step.Rewire?
      || step.Tick? || step.Crash?
    ensures !Anywhere(Next(s, step), id)
  {
    hide Inv, Enabled, Next, Held, Working, Outstanding;
    EnabledHandlers(s, step);
    match step
    case Dispatch(to) =>
      DispatchCounts(s, to);
      assert Id(s.todo[0]) in Held(s);
    case FinishCopy(copy, success) => FinishCounts(s, copy, success);
    case DropCopy(copy) => DropCopyCounts(s, copy);
    case CommitAck =>
      AckCounts(s);
      assert s.acks[0].id in Working(s);
    case EndReplay => EndReplayCounts(s);
    case Rewire(d) => SameCounts(s, s.(d := d));
    case Tick(now) => SameCounts(s, s.(now := now));
    case Crash(d) => CrashCounts(s, d);
  }

  lemma SameCounts(s: System, u: System)
    requires u == s.(d := u.d, now := u.now)
    ensures Held(u) == Held(s) && Working(u) == Working(s)
  {
  }

  lemma CrashCounts(s: System, d: Directory)
    ensures Held(AfterCrash(s, d)) == multiset{} && Working(AfterCrash(s, d)) == multiset{}
  {
  }

  lemma StaysGone(s: System, step: Step, id: EventId)
    requires Inv(s) && Enabled(s, step) && id in s.published && !Anywhere(s, id)
    ensures !Anywhere(Next(s, step), id) && id in Next(s, step).published
  {
    hide Inv, Enabled, Next, Anywhere;
    UsedGrows(s, step);
    match step
    case CommitBatch(n) =>
      EventsNext(s, step);
      BatchStaysGone(s, n, id);
    case Publish(_) | PullDue(_) | SendDue | BeginReplay(_) | ReplayRow | BeginLetters(_) | SendLetter(_) =>
      QueuesStayGone(s, step, id);
    case _ => HandlersStayGone(s, step, id);
  }

  lemma UsedGrows(s: System, step: Step)
    requires Enabled(s, step)
    ensures s.published.Keys <= Next(s, step).published.Keys
  {
  }

  /** An event that is in no table, no message and with no handler never comes back. */
  lemma {:induction false} GoneForGood(states: seq<System>, steps: seq<Step>, i: nat, j: nat, id: EventId)
    requires Run(states, steps) && Initial(states[0]) && i <= j < |states|
    requires id in states[i].published && !Anywhere(states[i], id)
    ensures !Anywhere(states[j], id) && id in states[j].published
  {
    hide Inv, Enabled, Next, Anywhere, Initial;
    if i < j {
      GoneForGood(states, steps, i, j - 1, id);
      Reachable(states, steps, j - 1);
      assert Follows(states[j - 1], steps[j - 1], states[j]);
      StaysGone(states[j - 1], steps[j - 1], id);
    }
  }

  // ---------- What a crash leaves ----------

  /** After a crash there is exactly what has a row. */
  lemma CrashLeavesRows(s: System, d: Directory, id: EventId)
    ensures Anywhere(AfterCrash(s, d), id) <==> InTables(s.t, id)
  {
    CrashCounts(s, d);
  }

  lemma TablesStep(s: System, step: Step, id: EventId)
    requires Enabled(s, step) && !InTables(s.t, id) && !Rewrites(s, step, id)
    ensures !InTables(Next(s, step).t, id)
  {
    hide Held, Working;
    match step
    case CommitBatch(n) => BatchSkips(s, n, id);
    case _ =>
  }

  /** Only a commit of a message for the event brings it into a table. */
  lemma {:induction false} UncommittedStaysOut(states: seq<System>, steps: seq<Step>, i: nat, j: nat, id: EventId)
    requires Run(states, steps) && i <= j < |states| && !InTables(states[i].t, id)
    requires forall m :: i <= m < j ==> !Rewrites(states[m], steps[m], id)
    ensures !InTables(states[j].t, id)
  {
    hide InTables, Enabled, Next, Rewrites;
    if i < j {
      UncommittedStaysOut(states, steps, i, j - 1, id);
      assert Follows(states[j - 1], steps[j - 1], states[j]);
      TablesStep(states[j - 1], steps[j - 1], id);
    }
  }

  predicate Pulls(step: Step, k: RowKey) { step.PullDue? && k in step.keys }

  lemma {:induction false} WriteAllSchedule(d: Directory, now: Nanos, t: Tables, es: seq<Envelope>, k: RowKey)
    requires forall i :: 0 <= i < |es| ==> Id(es[i]) != k.id
    ensures k in WriteAll(d, now, t, es).scheduled <==> k in t.scheduled
  {
    if es != [] {
      WriteAllSchedule(d, now, t, es[..|es| - 1], k);
    }
  }

  lemma ScheduleStep(s: System, step: Step, k: RowKey)
    requires Enabled(s, step) && k in s.t.scheduled && !Pulls(step, k) && !Rewrites(s, step, k.id)
    ensures k in Next(s, step).t.scheduled
  {
    hide Held, Working;
    match step
    case CommitBatch(n) =>
      var valid := Dedupe(s.t.processedKeys, s.queue[..n]);
      forall v | 0 <= v < |valid| ensures Id(valid[v]) != k.id {
        var m := DedupeFrom(s.t.processedKeys, s.queue[..n], v);
      }
      WriteAllSchedule(s.d, s.now, s.t, valid, k);
    case _ =>
  }

  lemma {:induction false} UnpulledStays(states: seq<System>, steps: seq<Step>, i: nat, j: nat, k: RowKey)
    requires Run(states, steps) && i <= j < |states| && k in states[i].t.scheduled
    requires forall m :: i <= m < j ==> !Rewrites(states[m], steps[m], k.id) && !Pulls(steps[m], k)
    ensures k in states[j].t.scheduled
  {
    hide Enabled, Next, Rewrites;
    if i < j {
      UnpulledStays(states, steps, i, j - 1, k);
      assert Follows(states[j - 1], steps[j - 1], states[j]);
      ScheduleStep(states[j - 1], steps[j - 1], k);
    }
  }

  lemma PullTakesOut(s: System, keys: seq<RowKey>, k: RowKey)
    requires Steady(s) && Enabled(s, PullDue(keys)) && k in keys
    ensures !InTables(Next(s, PullDue(keys)).t, k.id)
  {
    hide Held, Working;
    assert k in DueKeys(s.t.scheduled, Millis(s.now));
    assert ScheduledWell(s, k);
    forall l | l in s.t.scheduled && l.id == k.id ensures l == k {
      OneDueTime(s, k, l);
    }
  }

  /** A scheduled event whose row no batch has written again survives a crash, in every run, exactly
      when the scheduler had not yet taken the row out: it does so in a transaction of its own, before
      anything is queued. Otherwise the event is gone for good. */
  lemma ScheduledSurvivesCrash(states: seq<System>, steps: seq<Step>, i: nat, j: nat, k: RowKey)
    requires Run(states, steps) && Initial(states[0]) && i <= j < |steps| && steps[j].Crash?
    requires k in states[i].t.scheduled
    requires forall m :: i <= m < j ==> !Rewrites(states[m], steps[m], k.id)
    ensures Anywhere(states[j + 1], k.id) <==> forall m :: i <= m < j ==> !Pulls(steps[m], k)
    ensures !Anywhere(states[j + 1], k.id) ==> forall m :: j < m < |states| ==> !Anywhere(states[m], k.id)
  {
    hide Inv, Steady, Initial, Enabled, Next, Anywhere, InTables, Rewrites;
    Reachable(states, steps, i);
    assert Follows(states[j], steps[j], states[j + 1]);
    EnabledHandlers(states[j], steps[j]);
    CrashLeavesRows(states[j], steps[j].d, k.id);
    if m :| i <= m < j && Pulls(steps[m], k) {
      SteadyRuns(states, steps, m);
      assert Follows(states[m], steps[m], states[m + 1]);
      PullTakesOut(states[m], steps[m].keys, k);
      UncommittedStaysOut(states, steps, m + 1, j, k.id);
    } else {
      UnpulledStays(states, steps, i, j, k);
      assert InTables(states[j].t, k.id) by { ScheduledIsThere(states[j].t, k); }
    }
    if !Anywhere(states[j + 1], k.id) {
      UsedFrom(states, steps, i, j + 1, k);
      forall m | j < m < |states| ensures !Anywhere(states[m], k.id) {
        GoneForGood(states, steps, j + 1, m, k.id);
      }
    }
  }

  lemma ScheduledIsThere(t: Tables, k: RowKey)
    requires k in t.scheduled
    ensures InTables(t, k.id)
  {
  }

  lemma {:induction false} UsedFrom(states: seq<System>, steps: seq<Step>, i: nat, j: nat, k: RowKey)
    requires Run(states, steps) && i <= j < |states| && k in states[i].t.scheduled && Inv(states[i])
    ensures k.id in states[j].published
  {
    hide Enabled, Next, Inv;
    if i == j {
      ScheduledUsed(states[i], k);
    } else {
      UsedFrom(states, steps, i, j - 1, k);
      assert Follows(states[j - 1], steps[j - 1], states[j]);
      UsedGrows(states[j - 1], steps[j - 1]);
    }
  }

  lemma ScheduledUsed(s: System, k: RowKey)
    requires Inv(s) && k in s.t.scheduled
    ensures k.id in s.published
  {
    hide Held, Working, Outstanding, Covered, Lined, Sound;
  }

  // ---------- When a dead letter comes back ----------

  /** The messages that batches take from the queue between two states. */
  function TakenIn(steps: seq<Step>, i: nat, j: nat): nat
    requires i <= j <= |steps|
  {
    if i == j then 0 else TakenIn(steps, i, j - 1) + if steps[j - 1].CommitBatch? then steps[j - 1].n else 0
  }

  lemma QueueStep(s: System, step: Step, pos: nat)
    requires Enabled(s, step) && !step.Crash? && pos < |s.queue|
    requires step.CommitBatch? ==> step.n <= pos
    ensures var taken := if step.CommitBatch? then step.n else 0; var u := Next(s, step);
      pos - taken < |u.queue| && u.queue[pos - taken] == s.queue[pos]
  {
  }

  /** The queue is first in, first out. */
  lemma {:induction false} QueueInOrder(states: seq<System>, steps: seq<Step>, i: nat, j: nat, pos: nat)
    requires Run(states, steps) && i <= j < |states| && pos < |states[i].queue|
    requires forall m :: i <= m < j ==> !steps[m].Crash?
    requires TakenIn(steps, i, j) <= pos
    ensures pos - TakenIn(steps, i, j) < |states[j].queue|
    ensures states[j].queue[pos - TakenIn(steps, i, j)] == states[i].queue[pos]
  {
    hide Enabled, Next;
    if i < j {
      QueueInOrder(states, steps, i, j - 1, pos);
      assert Follows(states[j - 1], steps[j - 1], states[j]);
      QueueStep(states[j - 1], steps[j - 1], pos - TakenIn(steps, i, j - 1));
    }
  }

  lemma {:induction false} TakenGrows(steps: seq<Step>, i: nat, m: nat, j: nat)
    requires i <= m <= j <= |steps|
    ensures TakenIn(steps, i, m) <= TakenIn(steps, i, j)
  {
    if m < j {
      TakenGrows(steps, i, m, j - 1);
    }
  }

  lemma BatchHas(s: System, step: Step, id: EventId) returns (x: nat)
    requires Rewrites(s, step, id)
    ensures step.CommitBatch? && x < step.n <= |s.queue| && Id(s.queue[x]) == id
  {
    x :| 0 <= x < step.n && Id(s.queue[x]) == id;
  }

  /** No batch takes a message before its turn, if the event is not doubled. */
  lemma NotBeforeTurn(states: seq<System>, steps: seq<Step>, i: nat, m: nat, j: nat, pos: nat)
    requires Run(states, steps) && Initial(states[0]) && i <= m < j <= |steps| && pos < |states[i].queue|
    requires forall x :: i <= x < j ==> !steps[x].Crash?
    requires TakenIn(steps, i, j) <= pos && Id(states[i].queue[pos]) !in states[m].doubled
    ensures !Rewrites(states[m], steps[m], Id(states[i].queue[pos]))
  {
    hide Inv, Initial, Enabled, Next, Rewrites;
    TakenGrows(steps, i, m, j);
    TakenGrows(steps, i, m + 1, j);
    QueueInOrder(states, steps, i, m, pos);
    Reachable(states, steps, m);
    var at := pos - TakenIn(steps, i, m);
    if Rewrites(states[m], steps[m], Id(states[i].queue[pos])) {
      var x := BatchHas(states[m], steps[m], Id(states[i].queue[pos]));
      QueueDistinct(states[m], x, at);
    }
  }

  lemma DoubledStep(s: System, step: Step, id: EventId)
    requires Enabled(s, step) && id !in s.t.events && id !in s.doubled
    ensures id !in Next(s, step).doubled
  {
    hide Held, Working, Rows, ProcessBatch, Dedupe, OnePlace;
  }

  /** An event without a row stays without one, and is not doubled, until its message is taken. */
  lemma {:induction false} WaitsItsTurn(states: seq<System>, steps: seq<Step>, i: nat, j: nat, pos: nat)
    requires Run(states, steps) && Initial(states[0]) && i <= j <= |steps| && pos < |states[i].queue|
    requires forall m :: i <= m < j ==> !steps[m].Crash?
    requires TakenIn(steps, i, j) <= pos
    requires !InTables(states[i].t, Id(states[i].queue[pos])) && Id(states[i].queue[pos]) !in states[i].doubled
    ensures !InTables(states[j].t, Id(states[i].queue[pos])) && Id(states[i].queue[pos]) !in states[j].doubled
  {
    hide InTables, Initial, Enabled, Next, Rewrites;
    if i < j {
      var id := Id(states[i].queue[pos]);
      TakenGrows(steps, i, j - 1, j);
      WaitsItsTurn(states, steps, i, j - 1, pos);
      NotBeforeTurn(states, steps, i, j - 1, j, pos);
      assert Follows(states[j - 1], steps[j - 1], states[j]);
      TablesStep(states[j - 1], steps[j - 1], id);
      NotInTables(states[j - 1].t, id);
      DoubledStep(states[j - 1], steps[j - 1], id);
    }
  }

  lemma NotInTables(t: Tables, id: EventId)
    requires !InTables(t, id)
    ensures id !in t.events
  {
  }

  /** From the publishing of an event to the batch that takes it, without a crash in between: the batch
      finds it as it was published. If it is no duplicate and somebody is listed, it stores it; otherwise
      it leaves no trace of it in any table. It lists it for dispatch exactly if it is no duplicate and
      due. */
  lemma PublishedIsStored(states: seq<System>, steps: seq<Step>, i: nat, j: nat)
    requires Run(states, steps) && Initial(states[0]) && i < j < |steps|
    requires steps[i].Publish? && steps[j].CommitBatch? && forall m :: i < m < j ==> !steps[m].Crash?
    requires TakenIn(steps, i + 1, j) <= |states[i].queue| < TakenIn(steps, i + 1, j + 1)
    ensures var at, e, s, u := |states[i].queue| - TakenIn(steps, i + 1, j), steps[i].e, states[j], states[j + 1];
      && at < |s.queue| && s.queue[at] == e
      && (if !Duplicate(s.t.processedKeys, s.queue[..at], e) && HasSubscribers(s.d)(e)
          then StoredAs(s.d, s.now, u.t, e) else !InTables(u.t, Id(e)))
      && (e in u.todo <==>
            !Duplicate(s.t.processedKeys, s.queue[..at], e)
            && (e.metadata.deliverAt.Some? ==> e.metadata.deliverAt.value <= s.now))
  {
    hide Inv, Initial, Enabled, Next, InTables, StoredAs, Duplicate, ProcessBatch, Untouched, Stores;
    var pos, e, s := |states[i].queue|, steps[i].e, states[j];
    Reachable(states, steps, i);
    Reachable(states, steps, j);
    assert Follows(states[i], steps[i], states[i + 1]) && Follows(s, steps[j], states[j + 1]);
    FreshlyQueued(states[i], e);
    QueueInOrder(states, steps, i + 1, j, pos);
    WaitsItsTurn(states, steps, i + 1, j, pos);
    var at, n := pos - TakenIn(steps, i + 1, j), steps[j].n;
    EventsNext(s, steps[j]);
    CommitsDispatch(states, steps, j, e);
    forall k | 0 <= k < n && k != at ensures Id(s.queue[k]) != Id(e) {
      if k < at { QueueDistinct(s, k, at); } else { QueueDistinct(s, at, k); }
    }
    StoresOrNot(s, n, at);
  }

  lemma FreshlyQueued(s: System, e: Envelope)
    requires Enabled(s, Publish(e))
    requires Inv(s)
    ensures var u := Next(s, Publish(e));
      && u.queue == s.queue + [e] && !InTables(u.t, Id(e)) && Id(e) !in u.doubled
  {
    hide Held, Working, Outstanding, Covered, Lined, Sound;
  }

  /** What a batch does with a message that is the only one of its event, which is in no table. */
  lemma StoresOrNot(s: System, n: nat, at: nat)
    requires at < n <= |s.queue| && !InTables(s.t, Id(s.queue[at]))
    requires forall k :: 0 <= k < n && k != at ==> Id(s.queue[k]) != Id(s.queue[at])
    ensures var e, t := s.queue[at], AfterBatch(s, n).t;
      if !Duplicate(s.t.processedKeys, s.queue[..at], e) && HasSubscribers(s.d)(e)
      then StoredAs(s.d, s.now, t, e) else !InTables(t, Id(e))
  {
    hide StoredAs, Duplicate, ProcessBatch;
    var batch, e := s.queue[..n], s.queue[at];
    assert batch[..at] == s.queue[..at];
    if !Duplicate(s.t.processedKeys, s.queue[..at], e) && HasSubscribers(s.d)(e) {
      BatchStores(s.d, s.now, s.t, batch, at);
    } else {
      BatchSpares(s.d, s.now, s.t, batch, Id(e));
    }
  }

  /** A letter about to be sent is in no table and with no handler, and is what was written. */
  lemma LetterWaits(s: System, k: nat)
    requires k < |s.letters| && Returns(s) && RowId(s.letters[k]) !in s.doubled
    requires Inv(s)
    ensures var row := s.letters[k]; var id := RowId(row);
      && !InTables(s.t, id) && id !in Working(s) && id in s.published
      && id !in Held(s.(letters := Without(s.letters, k)))
      && Returning(s.written, s.now, row.metadata) && WasWritten(s.written, id)
  {
    hide Held, Working, Outstanding, Covered;
    var row := s.letters[k];
    LetterCounts(s, k, Restore(0, row));
    Once(s.t, Held(s), Held(s.(letters := Without(s.letters, k))), Working(s), s.published.Keys, s.doubled, RowId(row));
    assert RowId(row) in Held(s);
    assert Returning(s.written, s.now, row.metadata);
  }

  /** The letter gets a place in the queue: its type is known and there is room. */
  predicate Accepted(s: System, k: nat)
    requires k < |s.letters|
  {
    s.letters[k].typeName in s.d.names && |s.queue| < s.capacity
  }

  lemma RefusedIsGone(s: System, k: nat)
    requires k < |s.letters| && Returns(s) && !Accepted(s, k) && RowId(s.letters[k]) !in s.doubled
    requires Inv(s)
    ensures !Anywhere(LetterNext(s, k), RowId(s.letters[k]))
  {
    hide Inv, Held, Working, InTables, Outstanding;
    LetterWaits(s, k);
    LetterCounts(s, k, Restore(0, s.letters[k]));
  }

  /** A returning message in a batch: its row is written again exactly when it has no key and its type
      lists somebody. Otherwise the batch leaves no trace of the event in any table. */
  lemma BatchOfReturning(s: System, n: nat, k: nat, row: PersistedEnvelope)
    requires k < n <= |s.queue| && Persist(s.queue[k]) == row
    requires !InTables(s.t, RowId(row)) && WasWritten(s.written, RowId(row)) && KeyedOnce(s) && Returns(s)
    requires RowId(row) !in s.doubled && Steady(s)
    requires Inv(s)
    ensures Row(AfterBatch(s, n).t, RowId(row)) == Some(row)
      <==> row.metadata.idempotencyKey.None? && Count(s.d, s.queue[k].typeId) > 0
    ensures InTables(AfterBatch(s, n).t, RowId(row)) <==> Row(AfterBatch(s, n).t, RowId(row)) == Some(row)
  {
    hide Inv, Steady, Returns, KeyedOnce, ProcessBatch;
    var e := s.queue[k];
    ReturningKeys(s, k);
    if e.metadata.idempotencyKey.None? && HasSubscribers(s.d)(e) {
      CommitWrites(s, n, k);
    } else {
      forall i | 0 <= i < n && Id(s.queue[i]) == Id(e)
        ensures Duplicate(s.t.processedKeys, s.queue[..i], s.queue[i]) || !HasSubscribers(s.d)(s.queue[i])
      {
        if i < k {
          QueueDistinct(s, i, k);
        } else if k < i {
          QueueDistinct(s, k, i);
        }
      }
      BatchSkips(s, n, Id(e));
    }
  }

  /** A returning message somewhere in the queue, and the batch that takes it, without a crash in
      between: its row is written again exactly when it has no key and its type lists somebody as the
      batch is committed, otherwise no table has the event; and it is dispatched exactly when it has no
      key. */
  lemma QueuedComesBack(states: seq<System>, steps: seq<Step>, i: nat, j: nat, pos: nat)
    requires Run(states, steps) && Initial(states[0]) && i <= j < |steps| && pos < |states[i].queue|
    requires steps[j].CommitBatch? && forall m :: i <= m < j ==> !steps[m].Crash?
    requires TakenIn(steps, i, j) <= pos < TakenIn(steps, i, j + 1)
    requires !InTables(states[i].t, Id(states[i].queue[pos])) && WasWritten(states[i].written, Id(states[i].queue[pos]))
    requires Id(states[i].queue[pos]) !in states[i].doubled
    ensures var e := states[i].queue[pos]; var t := states[j + 1].t;
      && (Row(t, Id(e)) == Some(Persist(e))
          <==> e.metadata.idempotencyKey.None? && Count(states[j].d, e.typeId) > 0)
      && (InTables(t, Id(e)) <==> Row(t, Id(e)) == Some(Persist(e)))
      && (e in states[j + 1].todo <==> e.metadata.idempotencyKey.None?)
  {
    hide Inv, Initial, Enabled, Next, Returns, InTables, Rewrites, KeyedOnce, WasWritten;
    var e, at := states[i].queue[pos], pos - TakenIn(steps, i, j);
    QueueInOrder(states, steps, i, j, pos);
    WaitsItsTurn(states, steps, i, j, pos);
    WrittenGrows(states, steps, i, j, Id(e));
    CommitOfReturning(states, steps, j, at);
  }

  lemma CommitOfReturning(states: seq<System>, steps: seq<Step>, j: nat, at: nat)
    requires Run(states, steps) && Initial(states[0]) && j < |steps| && steps[j].CommitBatch?
    requires at < steps[j].n && at < |states[j].queue|
    requires !InTables(states[j].t, Id(states[j].queue[at])) && WasWritten(states[j].written, Id(states[j].queue[at]))
    requires Id(states[j].queue[at]) !in states[j].doubled
    ensures var e := states[j].queue[at]; var t := states[j + 1].t;
      && (Row(t, Id(e)) == Some(Persist(e))
          <==> e.metadata.idempotencyKey.None? && Count(states[j].d, e.typeId) > 0)
      && (InTables(t, Id(e)) <==> Row(t, Id(e)) == Some(Persist(e)))
      && (e in states[j + 1].todo <==> e.metadata.idempotencyKey.None?)
  {
    hide Inv, Steady, Initial, Enabled, Next, Returns, InTables, KeyedOnce, WasWritten, Row;
    Reachable(states, steps, j);
    SteadyRuns(states, steps, j);
    ReturningRuns(states, steps, j);
    IdempotentRuns(states, steps, j);
    assert Follows(states[j], steps[j], states[j + 1]);
    EventsNext(states[j], steps[j]);
    ReturningNeedsNoKey(states, steps, j, at);
    BatchOfReturning(states[j], steps[j].n, at, Persist(states[j].queue[at]));
  }

  /** In every run, after the batch that takes the place which a dead letter was offered, and without a
      crash in between, the letter of an event that is not doubled is back as an event row, unchanged,
      exactly when its type was known and the queue had room as it was sent, it has no idempotency key,
      and its type lists somebody as the batch is committed. Otherwise no table has the event. */
  lemma LetterComesBack(states: seq<System>, steps: seq<Step>, i: nat, k: nat, j: nat)
    requires Run(states, steps) && Initial(states[0]) && i < j < |steps|
    requires steps[i] == SendLetter(k) && k < |states[i].letters| && RowId(states[i].letters[k]) !in states[i].doubled
    requires steps[j].CommitBatch? && forall m :: i < m < j ==> !steps[m].Crash?
    requires TakenIn(steps, i + 1, j) <= |states[i].queue| < TakenIn(steps, i + 1, j + 1)
    ensures var row, t := states[i].letters[k], states[j + 1].t;
      && (Row(t, RowId(row)) == Some(row)
          <==> Accepted(states[i], k) && row.metadata.idempotencyKey.None?
               && Count(states[j].d, states[i].d.names[row.typeName]) > 0)
      && (InTables(t, RowId(row)) <==> Row(t, RowId(row)) == Some(row))
  {
    hide Inv, Initial, Enabled, Next, Returns, InTables, WasWritten;
    var s, row := states[i], states[i].letters[k];
    Reachable(states, steps, i);
    ReturningRuns(states, steps, i);
    assert Follows(s, steps[i], states[i + 1]);
    ReturnsNext(s, steps[i]);
    LetterWaits(s, k);
    if Accepted(s, k) {
      assert states[i + 1].queue[|s.queue|] == Restore(s.d.names[row.typeName], row);
      QueuedComesBack(states, steps, i + 1, j, |s.queue|);
    } else {
      RefusedIsGone(s, k);
      UsedGrows(s, steps[i]);
      GoneForGood(states, steps, i + 1, j + 1, RowId(row));
      NowhereNoRow(states[j + 1], RowId(row));
    }
  }

  /** The same for a scheduled event that the scheduler sends: it gets its event row, without the delivery
      time, exactly when it has no key and its type still lists somebody as the batch is committed, and
      it is dispatched exactly when it has no key. A scheduled event with a key is never delivered. */
  lemma ScheduledComesBack(states: seq<System>, steps: seq<Step>, i: nat, j: nat)
    requires Run(states, steps) && Initial(states[0]) && i < j < |steps|
    requires steps[i] == SendDue && states[i].ready != [] && Replayable(states[i].d, states[i].ready[0]).Some?
    requires steps[j].CommitBatch? && forall m :: i < m < j ==> !steps[m].Crash?
    requires TakenIn(steps, i + 1, j) <= |states[i].queue| < TakenIn(steps, i + 1, j + 1)
    ensures var row, t := Strip(states[i].ready[0]), states[j + 1].t;
      var typeId := Replayable(states[i].d, states[i].ready[0]).value;
      && (Row(t, RowId(row)) == Some(row) <==> row.metadata.idempotencyKey.None? && Count(states[j].d, typeId) > 0)
      && (InTables(t, RowId(row)) <==> Row(t, RowId(row)) == Some(row))
      && (Restore(typeId, row) in states[j + 1].todo <==> row.metadata.idempotencyKey.None?)
  {
    hide Steady, Initial, Enabled, Next, InTables, WasWritten;
    var s, row, u := states[i], states[i].ready[0], states[i + 1];
    var typeId := Replayable(s.d, row).value;
    SteadyRuns(states, steps, i);
    ReturningRuns(states, steps, i);
    assert Follows(s, steps[i], u);
    ReturnsNext(s, steps[i]);
    ReadyWaits(s);
    assert u.queue[|s.queue|] == Restore(typeId, Strip(row));
    assert Persist(Restore(typeId, Strip(row))) == Strip(row);
    QueuedComesBack(states, steps, i + 1, j, |s.queue|);
  }

  lemma ReadyWaits(s: System)
    requires s.ready != [] && Returns(s)
    requires Steady(s)
    ensures !InTables(s.t, RowId(s.ready[0])) && WasWritten(s.written, RowId(s.ready[0]))
    ensures RowId(s.ready[0]) !in s.doubled
  {
    assert ReadyWell(s, s.ready[0]);
    forall k | k in s.t.scheduled ensures k.id != RowId(s.ready[0]) {
      assert ScheduledWell(s, k);
    }
    assert KeyWritten(s.written, s.ready[0].metadata);
  }

  lemma NowhereNoRow(s: System, id: EventId)
    requires !Anywhere(s, id)
    ensures !InTables(s.t, id) && Row(s.t, id) == None
  {
  }

  lemma {:induction false} WrittenGrows(states: seq<System>, steps: seq<Step>, i: nat, j: nat, id: EventId)
    requires Run(states, steps) && i <= j < |states| && WasWritten(states[i].written, id)
    ensures WasWritten(states[j].written, id)
  {
    hide Enabled, Next, WasWritten;
    if i < j {
      WrittenGrows(states, steps, i, j - 1, id);
      assert Follows(states[j - 1], steps[j - 1], states[j]);
      WrittenStep(states[j - 1], steps[j - 1], id);
    }
  }

  lemma WrittenStep(s: System, step: Step, id: EventId)
    requires Enabled(s, step) && WasWritten(s.written, id)
    ensures WasWritten(Next(s, step).written, id)
  {
    var i :| 0 <= i < |s.written| && Id(s.written[i]) == id;
    match step
    case CommitBatch(n) =>
      assert AfterBatch(s, n).written[i] == s.written[i];
    case _ =>
  }

  // ---------- How long a row stays ----------

  lemma EventsStayOut(s: System, step: Step, id: EventId)
    requires Enabled(s, step) && id !in s.t.events && !Rewrites(s, step, id)
    ensures id !in Next(s, step).t.events
  {
    hide Enabled, Next;
    EventsNext(s, step);
    match step
    case CommitBatch(n) => BatchSkips(s, n, id);
    case _ =>
  }

  /** Between replays, a row is there exactly as long as fewer acknowledgements than its count were
      committed. */
  lemma {:induction false} RowCountsAcks(states: seq<System>, steps: seq<Step>, i: nat, j: nat, id: EventId)
    requires Run(states, steps) && Initial(states[0]) && i <= j < |states| && id in states[i].t.events
    requires forall k :: i <= k < j ==> !Rewrites(states[k], steps[k], id) && !Collects(states[k], steps[k], id)
    ensures id in states[j].t.events <==> AcksIn(states, steps, i, j, id) < Owed(states[i].t, id)
    ensures id in states[j].t.events ==>
      Owed(states[j].t, id) == Owed(states[i].t, id) - AcksIn(states, steps, i, j, id)
  {
    hide Enabled, Next, Rewrites, Initial, Counted;
    if i == j {
      CountedRuns(states, steps, i);
      OwedRow(states[i].t, id);
    } else {
      RowCountsAcks(states, steps, i, j - 1, id);
      CountedRuns(states, steps, j - 1);
      assert Follows(states[j - 1], steps[j - 1], states[j]);
      if id in states[j - 1].t.events {
        CountStep(states[j - 1], steps[j - 1], id);
      } else {
        EventsStayOut(states[j - 1], steps[j - 1], id);
      }
    }
  }

  lemma OwedRow(t: Tables, id: EventId)
    requires Counted(t) && id in t.events
    ensures Owed(t, id) >= 1
  {
  }
}
