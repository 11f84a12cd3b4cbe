/** At-least-once delivery: when acknowledgements have removed the row of an event, who has handled it, and
    when a handled event leaves the tables. */
module OutboxDelivery {
  import opened Events
  import opened Seqs
  import opened OutboxTables
  import opened GroupCommit
  import opened OutboxStore
  import opened OutboxProtocol
  import opened OutboxSteps
  import opened OutboxRuns
  import opened OutboxFates

  // ---------- What was owed and what was lost ----------

  /** Copies and uncommitted acknowledgements of the event that the step destroys. */
  ghost function LostBy(s: System, step: Step, id: EventId): nat {
    if step.Crash? then Working(s)[id] else if step.DropCopy? && step.copy.id == id then 1 else 0
  }

  ghost function LostIn(states: seq<System>, steps: seq<Step>, i: nat, j: nat, id: EventId): nat
    requires i <= j <= |steps| <= |states|
  {
    if i == j then 0 else LostIn(states, steps, i, j - 1, id) + LostBy(states[j - 1], steps[j - 1], id)
  }

  lemma {:induction false} SharesOthers(d: Directory, todo: seq<Envelope>, es: seq<Envelope>, id: EventId)
    requires forall i :: 0 <= i < |es| ==> Id(es[i]) != id
    ensures Shares(d, todo + es)[id] == Shares(d, todo)[id]
  {
    if es == [] {
      assert todo + es == todo;
    } else {
      var n := |es| - 1;
      SharesOthers(d, todo, es[..n], id);
      assert todo + es == todo + es[..n] + [es[n]];
      SharesPush(d, todo + es[..n], es[n]);
    }
  }

  lemma BatchOwesNoMore(s: System, n: nat, id: EventId)
    requires n <= |s.queue| && forall i :: 0 <= i < n ==> Id(s.queue[i]) != id
    ensures Outstanding(AfterBatch(s, n))[id] == Outstanding(s)[id]
  {
    var valid := Dedupe(s.t.processedKeys, s.queue[..n]);
    var added := Filter(valid, DueNow(s.now));
    forall i | 0 <= i < |added| ensures Id(added[i]) != id {
      var v := FilterFrom(valid, DueNow(s.now), i);
      var m := DedupeFrom(s.t.processedKeys, s.queue[..n], v);
    }
    SharesOthers(s.d, s.todo, added, id);
  }

  /** Every acknowledgement committed and every copy lost is taken off what was outstanding. */
  lemma OutstandingStep(s: System, step: Step, id: EventId)
    requires Enabled(s, step) && !Rewrites(s, step, id)
    ensures Outstanding(Next(s, step))[id] + (if Acks(s, step, id) then 1 else 0) + LostBy(s, step, id)
      <= Outstanding(s)[id]
  {
    hide Enabled, Next, Held, Working, Outstanding;
    match step
    case CommitBatch(n) =>
      EventsNext(s, step);
      NoMessage(s, n, id);
      BatchOwesNoMore(s, n, id);
    case Dispatch(_) | FinishCopy(_, _) | DropCopy(_) | CommitAck | EndReplay | Tick(_) | Crash(_) =>
      HandlersOwe(s, step, id);
    case Rewire(d) =>
      RewireOwes(s, d);
    case _ => QueuesOwe(s, step);
  }

  lemma NoMessage(s: System, n: nat, id: EventId)
    requires n <= |s.queue| && !Rewrites(s, CommitBatch(n), id)
    ensures forall i :: 0 <= i < n ==> Id(s.queue[i]) != id
  {
  }

  lemma HandlersOwe(s: System, step: Step, id: EventId)
    requires Enabled(s, step)
    requires step.Dispatch? || step.FinishCopy? || step.DropCopy? || step.CommitAck? || step.EndReplay? || step.Tick?
      || step.Crash?
    ensures Outstanding(Next(s, step))[id] + (if Acks(s, step, id) then 1 else 0) + LostBy(s, step, id)
      <= Outstanding(s)[id]
  {
    hide Enabled, Next, Held, Outstanding;
    EnabledHandlers(s, step);
    match step
    case Dispatch(to) => DispatchCounts(s, to);
    case FinishCopy(copy, success) => FinishCounts(s, copy, success);
    case DropCopy(copy) => DropOwes(s, copy);
    case CommitAck => AckCounts(s);
    case EndReplay => EndReplayCounts(s);
    case Tick(now) => TickOwes(s, now);
    case Crash(d) => CrashOwes(s, d, id);
  }

  lemma DropOwes(s: System, copy: Copy)
    requires copy.id in s.copies
    ensures Outstanding(s) == Outstanding(AfterDrop(s, copy)) + multiset{copy.id}
  {
  }

  lemma TickOwes(s: System, now: Nanos)
    ensures Outstanding(s.(now := now)) == Outstanding(s)
  {
  }

  lemma CrashOwes(s: System, d: Directory, id: EventId)
    ensures Outstanding(AfterCrash(s, d)) == multiset{} && Working(s)[id] <= Outstanding(s)[id]
  {
  }

  lemma RewireOwes(s: System, d: Directory)
    requires Enabled(s, Rewire(d))
    ensures Outstanding(Next(s, Rewire(d))) <= Outstanding(s)
  {
    SharesShrink(s.d, d, s.todo);
  }

  lemma QueuesOwe(s: System, step: Step)
    requires Enabled(s, step)
    requires step.Publish? || step.PullDue? || step.SendDue? || step.BeginReplay? || step.ReplayRow?
      || step.BeginLetters? || step.SendLetter?
    ensures Outstanding(Next(s, step)) == Outstanding(s)
  {
    hide Enabled, Next;
    QueuesOnly(s, step);
  }

  /** The steps that only move messages. */
  lemma QueuesOnly(s: System, step: Step)
    requires Enabled(s, step)
    requires step.Publish? || step.PullDue? || step.SendDue? || step.BeginReplay? || step.ReplayRow?
      || step.BeginLetters? || step.SendLetter?
    ensures var u := Next(s, step); u.copies == s.copies && u.acks == s.acks && u.todo == s.todo && u.d == s.d
  {
    hide Enabled, Held, Working, Rows, ProcessBatch;
  }

  lemma {:induction false} OutstandingFalls(states: seq<System>, steps: seq<Step>, i: nat, j: nat, id: EventId)
    requires Run(states, steps) && i <= j < |states|
    requires forall k :: i <= k < j ==> !Rewrites(states[k], steps[k], id)
    ensures Outstanding(states[j])[id] + AcksIn(states, steps, i, j, id) + LostIn(states, steps, i, j, id)
      <= Outstanding(states[i])[id]
  {
    hide Enabled, Next, Outstanding, Rewrites, Acks, LostBy;
    if i < j {
      OutstandingFalls(states, steps, i, j - 1, id);
      assert Follows(states[j - 1], steps[j - 1], states[j]);
      OutstandingStep(states[j - 1], steps[j - 1], id);
    }
  }

  /** Never are more acknowledgements committed than the count of the row, unless the event is doubled as
      the stretch begins. */
  lemma NoAckTooMany(states: seq<System>, steps: seq<Step>, i: nat, j: nat, id: EventId)
    requires Run(states, steps) && Initial(states[0]) && i <= j < |states| && id !in states[i].doubled
    requires forall k :: i <= k < j ==> !Rewrites(states[k], steps[k], id)
    ensures Outstanding(states[j])[id] + AcksIn(states, steps, i, j, id) + LostIn(states, steps, i, j, id)
      <= Owed(states[i].t, id)
  {
    hide Enabled, Next, Outstanding, Rewrites, Initial, Acks, LostBy, OnePlace;
    OutstandingFalls(states, steps, i, j, id);
    TablesFit(states, steps, i);
  }

  /** A row that acknowledgements have removed since its last commit was acknowledged for every copy that
      was routed: none was dropped by a handler, none was lost in a crash, and none is outstanding. */
  lemma RemovedMeansAcknowledged(states: seq<System>, steps: seq<Step>, i: nat, j: nat, id: EventId)
    requires Run(states, steps) && Initial(states[0]) && i <= j < |states|
    requires id in states[i].t.events && id !in states[j].t.events && id !in states[i].doubled
    requires forall k :: i <= k < j ==> !Rewrites(states[k], steps[k], id) && !Collects(states[k], steps[k], id)
    ensures AcksIn(states, steps, i, j, id) == Owed(states[i].t, id)
    ensures LostIn(states, steps, i, j, id) == 0 && id !in Outstanding(states[j])
  {
    hide Enabled, Next, Outstanding, Rewrites, Initial, Acks;
    RowCountsAcks(states, steps, i, j, id);
    NoAckTooMany(states, steps, i, j, id);
  }

  /** The copies that dispatches route for the event. */
  function RoutedIn(states: seq<System>, steps: seq<Step>, i: nat, j: nat, id: EventId): nat
    requires i <= j <= |steps| <= |states|
  {
    if i == j then 0
    else RoutedIn(states, steps, i, j - 1, id) + RoutedBy(states[j - 1], steps[j - 1], id)
  }

  function RoutedBy(s: System, step: Step, id: EventId): nat {
    if step.Dispatch? && s.todo != [] && Id(s.todo[0]) == id then |step.to| else 0
  }

  predicate LosesCopy(step: Step, id: EventId) { step.Crash? || (step.DropCopy? && step.copy.id == id) }

  lemma WorkingStep(s: System, step: Step, id: EventId)
    requires Enabled(s, step) && !LosesCopy(step, id)
    ensures Working(Next(s, step))[id] + (if Acks(s, step, id) then 1 else 0)
      == Working(s)[id] + RoutedBy(s, step, id)
  {
    hide Enabled, Next, Held, Outstanding;
    EnabledHandlers(s, step);
    match step
    case Dispatch(to) =>
    case FinishCopy(copy, success) => FinishCounts(s, copy, success);
    case CommitAck => AckCounts(s);
    case DropCopy(copy) =>
    case _ =>
  }

  lemma {:induction false} CopiesBalance(states: seq<System>, steps: seq<Step>, i: nat, j: nat, id: EventId)
    requires Run(states, steps) && i <= j < |states|
    requires forall k :: i <= k < j ==> !LosesCopy(steps[k], id)
    ensures Working(states[j])[id] + AcksIn(states, steps, i, j, id)
      == Working(states[i])[id] + RoutedIn(states, steps, i, j, id)
  {
    hide Enabled, Next, Working, Acks, RoutedBy;
    if i < j {
      CopiesBalance(states, steps, i, j - 1, id);
      assert Follows(states[j - 1], steps[j - 1], states[j]);
      WorkingStep(states[j - 1], steps[j - 1], id);
    }
  }

  /** Between a commit and the next replay, without a crash or an aborted handler: once all routed
      copies of an event are handled and acknowledged, its row is gone exactly when as many copies were
      routed as its count. The count also takes in paused, filtered and topic subscriptions of the type,
      which get no copy, so a fully handled event can stay behind. More copies than the count are routed
      only of a doubled event. */
  lemma HandledLeaves(states: seq<System>, steps: seq<Step>, i: nat, j: nat, id: EventId)
    requires Run(states, steps) && Initial(states[0]) && i <= j < |states| && id in states[i].t.events
    requires forall k :: i <= k < j ==>
      !Rewrites(states[k], steps[k], id) && !Collects(states[k], steps[k], id) && !LosesCopy(steps[k], id)
    requires id !in Working(states[i]) && id !in Working(states[j])
    ensures id !in states[i].doubled ==> RoutedIn(states, steps, i, j, id) <= Owed(states[i].t, id)
    ensures id !in states[j].t.events <==> RoutedIn(states, steps, i, j, id) >= Owed(states[i].t, id)
  {
    hide Enabled, Next, Working, Outstanding, Rewrites, Initial, LosesCopy;
    RowCountsAcks(states, steps, i, j, id);
    CopiesBalance(states, steps, i, j, id);
    if id !in states[i].doubled {
      NoAckTooMany(states, steps, i, j, id);
    }
  }

  // ---------- Who has a copy ----------

  /** The events of which handlers have copies, one for each copy. */
  ghost function IdsOf(holders: multiset<Copy>): multiset<EventId>
    decreases |holders|
  {
    if holders == multiset{} then multiset{}
    else
      var c :| c in holders;
      IdsOf(holders - multiset{c}) + multiset{c.id}
  }

  lemma {:induction false} IdsOfTake(holders: multiset<Copy>, c: Copy)
    requires c in holders
    ensures IdsOf(holders) == IdsOf(holders - multiset{c}) + multiset{c.id}
    decreases |holders|
  {
    var b := IdsOfFirst(holders);
    hide IdsOf;
    if b != c {
      var rest := holders - multiset{b} - multiset{c};
      assert rest == holders - multiset{c} - multiset{b};
      IdsOfTake(holders - multiset{b}, c);
      IdsOfTake(holders - multiset{c}, b);
      Reorder(IdsOf(rest), b.id, c.id);
    }
  }

  lemma IdsOfFirst(holders: multiset<Copy>) returns (b: Copy)
    requires holders != multiset{}
    ensures b in holders && IdsOf(holders) == IdsOf(holders - multiset{b}) + multiset{b.id}
  {
    b :| b in holders && IdsOf(holders) == IdsOf(holders - multiset{b}) + multiset{b.id};
  }

  lemma Reorder(ids: multiset<EventId>, a: EventId, b: EventId)
    ensures ids + multiset{a} + multiset{b} == ids + multiset{b} + multiset{a}
  {
  }

  lemma {:induction false} IdsOfRouted(holders: multiset<Copy>, id: EventId, to: set<SubId>)
    ensures IdsOf(holders + multiset(CopiesTo(id, to))) == IdsOf(holders) + Times(id, |to|)
  {
    hide IdsOf;
    if to == {} {
      assert CopiesTo(id, to) == {};
      assert holders + multiset(CopiesTo(id, to)) == holders;
    } else {
      var x :| x in to;
      var more := holders + multiset(CopiesTo(id, to));
      assert CopiesTo(id, to) == CopiesTo(id, to - {x}) + {Copy(id, x)};
      assert more - multiset{Copy(id, x)} == holders + multiset(CopiesTo(id, to - {x}));
      IdsOfTake(more, Copy(id, x));
      IdsOfRouted(holders, id, to - {x});
    }
  }

  /** Copies are counted by event as they are held. */
  ghost predicate HoldersAgree(s: System) { s.copies == IdsOf(s.holders) }

  lemma HoldersStep(s: System, step: Step)
    requires Enabled(s, step) && HoldersAgree(s)
    ensures HoldersAgree(Next(s, step))
  {
    hide Enabled, Next, Held, IdsOf;
    EnabledHandlers(s, step);
    match step
    case Dispatch(to) => IdsOfRouted(s.holders, Id(s.todo[0]), to);
    case FinishCopy(copy, _) => IdsOfTake(s.holders, copy);
    case DropCopy(copy) => IdsOfTake(s.holders, copy);
    case Crash(_) => NoHolders();
    case _ =>
  }

  lemma NoHolders()
    ensures IdsOf(multiset{}) == multiset{}
  {
  }

  lemma {:induction false} HoldersRuns(states: seq<System>, steps: seq<Step>, i: nat)
    requires Run(states, steps) && Initial(states[0]) && i < |states|
    ensures HoldersAgree(states[i])
  {
    hide Enabled, Next, HoldersAgree;
    if i == 0 {
      NobodyHolds(states[0]);
    } else {
      HoldersRuns(states, steps, i - 1);
      assert Follows(states[i - 1], steps[i - 1], states[i]);
      HoldersStep(states[i - 1], steps[i - 1]);
    }
  }

  lemma NobodyHolds(s: System)
    requires Initial(s)
    ensures HoldersAgree(s)
  {
  }

  /** A copy with a handler is a copy of the event. */
  lemma HolderCounted(s: System, copy: Copy)
    requires HoldersAgree(s) && copy in s.holders
    ensures copy.id in s.copies
  {
    IdsOfTake(s.holders, copy);
  }

  /** A copy with a handler stays there until it is finished or lost. */
  lemma HolderStep(s: System, step: Step, copy: Copy)
    requires Enabled(s, step) && copy in s.holders && LostBy(s, step, copy.id) == 0
    requires forall success :: step != FinishCopy(copy, success)
    requires copy.id in s.copies
    ensures copy in Next(s, step).holders
  {
    hide Enabled, Next, Held;
    EnabledHandlers(s, step);
    assert Working(s)[copy.id] > 0;
    match step
    case FinishCopy(c, success) => assert c != copy;
    case _ =>
  }

  /** The handler finished its copy between the two states. */
  ghost predicate FinishedIn(steps: seq<Step>, d: nat, j: nat, copy: Copy) {
    exists m :: d <= m < j && m < |steps| && Finishes(steps[m], copy)
  }

  predicate Finishes(step: Step, copy: Copy) { step.FinishCopy? && step.copy == copy }

  lemma {:induction false} HoldsUntilFinished(states: seq<System>, steps: seq<Step>, d: nat, j: nat, copy: Copy)
    requires Run(states, steps) && Initial(states[0]) && d <= j < |states| && copy in states[d].holders
    requires LostIn(states, steps, d, j, copy.id) == 0
    ensures copy in states[j].holders || FinishedIn(steps, d, j, copy)
  {
    hide Enabled, Next, Initial, LostBy;
    if d < j {
      HoldsUntilFinished(states, steps, d, j - 1, copy);
      if copy in states[j - 1].holders {
        if Finishes(steps[j - 1], copy) {
        } else {
          assert Follows(states[j - 1], steps[j - 1], states[j]);
          HoldersRuns(states, steps, j - 1);
          HolderCounted(states[j - 1], copy);
          HolderStep(states[j - 1], steps[j - 1], copy);
        }
      } else {
        var m :| d <= m < j - 1 && m < |steps| && Finishes(steps[m], copy);
        assert FinishedIn(steps, d, j, copy);
      }
    }
  }

  lemma {:induction false} LostGrows(states: seq<System>, steps: seq<Step>, i: nat, d: nat, j: nat, id: EventId)
    requires i <= d <= j <= |steps| <= |states|
    ensures LostIn(states, steps, d, j, id) <= LostIn(states, steps, i, j, id)
  {
    if d < j {
      LostGrows(states, steps, i, d, j - 1, id);
    }
  }

  /** At least once, to every one of them: when acknowledgements have removed the row of an event, every
      subscription that a dispatch since its last commit routed the event to has finished handling it,
      over every run, whatever crashes and aborts there were. */
  lemma HandledByAll(states: seq<System>, steps: seq<Step>, i: nat, d: nat, j: nat, id: EventId, x: SubId)
    requires Run(states, steps) && Initial(states[0]) && i <= d < j < |states|
    requires id in states[i].t.events && id !in states[j].t.events && id !in states[i].doubled
    requires forall k :: i <= k < j ==> !Rewrites(states[k], steps[k], id) && !Collects(states[k], steps[k], id)
    requires steps[d].Dispatch? && states[d].todo != [] && Id(states[d].todo[0]) == id && x in steps[d].to
    ensures FinishedIn(steps, d + 1, j, Copy(id, x))
  {
    hide Enabled, Next, Initial, Rewrites, Outstanding;
    RemovedMeansAcknowledged(states, steps, i, j, id);
    LostGrows(states, steps, i, d + 1, j, id);
    assert Follows(states[d], steps[d], states[d + 1]);
    EnabledHandlers(states[d], steps[d]);
    assert Copy(id, x) in CopiesTo(id, steps[d].to);
    HoldsUntilFinished(states, steps, d + 1, j, Copy(id, x));
    HoldersRuns(states, steps, j);
    NoCopyLeft(states[j], id);
    if Copy(id, x) in states[j].holders {
      HolderCounted(states[j], Copy(id, x));
    }
  }

  lemma NoCopyLeft(s: System, id: EventId)
    requires id !in Outstanding(s)
    ensures id !in s.copies
  {
    assert Outstanding(s)[id] >= s.copies[id];
  }
}
