/** Draining: what holds in every run of the bus. */
module BusRuns {
  import opened Events
  import opened Seqs
  import opened TopicTries
  import opened Subscriptions
  import opened Pipelines
  import opened BusProtocol

  lemma OpenInv(net: Net, queueSize: nat, channelSize: nat, publishers: nat, shutdowns: nat)
    ensures Inv(Open(Start(net, queueSize, channelSize), publishers, shutdowns))
  {
    StartFlows(net, queueSize, channelSize);
  }

  /** What an action does to the pipeline is one of its moves. */
  lemma PipeKept(b: Bus, a: Action)
    requires Inv(b) && CanAct(b, a)
    ensures Flowing(After(b, a).pipe)
  {
    hide Flowing, Moved, CanMove, Excluded, Staged, Orderly;
    match a
    case Submit(_, m) => MoveKeeps(b.pipe, m);
    case Work(m) => MoveKeeps(b.pipe, m);
    case AbortTask(_, id) =>
      CanAbort(b.pipe, id);
      MoveKeeps(b.pipe, Abort(id));
    case _ =>
  }

  lemma CanAbort(p: Pipe, id: SubId)
    requires id in p.inboxes
    ensures CanMove(p, Abort(id))
  {
  }

  lemma ExclusionKept(b: Bus, a: Action)
    requires Excluded(b) && CanAct(b, a)
    ensures Excluded(After(b, a))
  {
    hide Excluded, CanAct, After;
    match a
    case Check(_, _) | Lock(_) | Recheck(_) | Submit(_, _) => PublishersExcluded(b, a);
    case BeginGraceful(_) | TakeDispatcher(_) | WorkerDone(_) => LockExcluded(b, a);
    case _ => OthersExcluded(b, a);
  }

  lemma PublishersExcluded(b: Bus, a: Action)
    requires Excluded(b) && CanAct(b, a) && (a.Check? || a.Lock? || a.Recheck? || a.Submit?)
    ensures Excluded(After(b, a))
  {
    hide Moved, CanMove;
  }

  lemma LockExcluded(b: Bus, a: Action)
    requires Excluded(b) && CanAct(b, a) && (a.BeginGraceful? || a.TakeDispatcher? || a.WorkerDone?)
    ensures Excluded(After(b, a))
  {
    hide Moved, CanMove;
  }

  lemma OthersExcluded(b: Bus, a: Action)
    requires Excluded(b) && CanAct(b, a)
    requires !a.Check? && !a.Lock? && !a.Recheck? && !a.Submit?
    requires !a.BeginGraceful? && !a.TakeDispatcher? && !a.WorkerDone?
    ensures Excluded(After(b, a))
  {
    hide Moved, CanMove;
  }

  lemma StageKept(b: Bus, a: Action)
    requires Staged(b) && CanAct(b, a)
    ensures Staged(After(b, a))
  {
    hide Moved, CanMove;
  }

  lemma PublishOrderly(b: Bus, a: Action)
    requires Excluded(b) && Orderly(b) && CanAct(b, a) && (a.Check? || a.Lock? || a.Recheck? || a.Submit?)
    ensures Orderly(After(b, a))
  {
    var c := After(b, a);
    assert c.shutdowns == b.shutdowns && c.open == b.open && c.ended == b.ended;
    if a.Submit? {
      assert Reading(b.publishers[a.p]);
    }
    forall t | 0 <= t < |c.shutdowns| ensures GoesWith(c, c.shutdowns[t]) {
      assert GoesWith(b, b.shutdowns[t]);
    }
    forall id | id in c.pipe.inboxes && id !in c.open ensures HeldBySome(c, id) {
      assert HeldBySome(b, id);
    }
  }

  lemma WorkOrderly(b: Bus, m: Move)
    requires Orderly(b) && CanAct(b, Work(m))
    ensures Orderly(After(b, Work(m)))
  {
    var c := After(b, Work(m));
    forall t | 0 <= t < |c.shutdowns| ensures GoesWith(c, c.shutdowns[t]) {
      assert GoesWith(b, b.shutdowns[t]);
    }
    forall id | id in c.pipe.inboxes && id !in c.open ensures HeldBySome(c, id) {
      assert HeldBySome(b, id);
    }
  }

  lemma TaskOrderly(b: Bus, id: SubId)
    requires Excluded(b) && Orderly(b) && CanAct(b, EndTask(id))
    ensures Orderly(After(b, EndTask(id)))
  {
    var c := After(b, EndTask(id));
    forall t | 0 <= t < |c.shutdowns| ensures GoesWith(c, c.shutdowns[t]) {
      assert GoesWith(b, b.shutdowns[t]);
    }
    forall i | i in c.pipe.inboxes && i !in c.open ensures HeldBySome(c, i) {
      assert HeldBySome(b, i);
    }
  }

  /** A call that holds no tasks, or goes on holding the same, leaves every task with its holder. */
  lemma HoldersKept(b: Bus, c: Bus, t: nat)
    requires t < |b.shutdowns| == |c.shutdowns| && c.shutdowns == b.shutdowns[t := c.shutdowns[t]]
    requires forall id :: Holds(b.shutdowns[t], id) ==> Holds(c.shutdowns[t], id)
    ensures forall id :: HeldBySome(b, id) ==> HeldBySome(c, id)
  {
    forall id | HeldBySome(b, id) ensures HeldBySome(c, id) {
      var u :| 0 <= u < |b.shutdowns| && Holds(b.shutdowns[u], id);
      assert Holds(c.shutdowns[u], id);
    }
  }

  lemma BeginOrderly(b: Bus, t: nat)
    requires Orderly(b) && CanAct(b, BeginGraceful(t))
    ensures Orderly(After(b, BeginGraceful(t)))
  {
    HoldersKept(b, After(b, BeginGraceful(t)), t);
    OthersGoWith(b, After(b, BeginGraceful(t)), t);
  }

  /** The other calls do not notice a call that changes nothing but its own stage. */
  lemma OthersGoWith(b: Bus, c: Bus, t: nat)
    requires t < |b.shutdowns| == |c.shutdowns| && c.shutdowns == b.shutdowns[t := c.shutdowns[t]]
    requires c.dispatcher == b.dispatcher && c.writer == b.writer && c.open == b.open && c.ended == b.ended
    requires forall u :: 0 <= u < |b.shutdowns| ==> GoesWith(b, b.shutdowns[u])
    ensures forall u :: 0 <= u < |b.shutdowns| && u != t ==> GoesWith(c, c.shutdowns[u])
  {
    forall u | 0 <= u < |b.shutdowns| && u != t ensures GoesWith(c, c.shutdowns[u]) {
      assert GoesWith(b, b.shutdowns[u]);
    }
  }

  lemma TakeOrderly(b: Bus, t: nat)
    requires Excluded(b) && Orderly(b) && CanAct(b, TakeDispatcher(t))
    ensures Orderly(After(b, TakeDispatcher(t)))
  {
    var c := After(b, TakeDispatcher(t));
    HoldersKept(b, c, t);
    forall u | 0 <= u < |c.shutdowns| ensures GoesWith(c, c.shutdowns[u]) {
      assert GoesWith(b, b.shutdowns[u]);
    }
  }

  lemma DoneOrderly(b: Bus, t: nat)
    requires Excluded(b) && Orderly(b) && CanAct(b, WorkerDone(t))
    ensures Orderly(After(b, WorkerDone(t)))
  {
    var c := After(b, WorkerDone(t));
    HoldersKept(b, c, t);
    forall u | 0 <= u < |c.shutdowns| ensures GoesWith(c, c.shutdowns[u]) {
      assert GoesWith(b, b.shutdowns[u]);
    }
  }

  lemma CollectOrderly(b: Bus, a: Action)
    requires Orderly(b) && CanAct(b, a) && (a.Collect? || a.Await? || a.Return?)
    ensures Orderly(After(b, a))
  {
    var c := After(b, a);
    assert GoesWith(b, b.shutdowns[a.t]);
    HoldersKept(b, c, a.t);
    OthersGoWith(b, c, a.t);
  }

  lemma RemoveOrderly(b: Bus, t: nat, id: SubId)
    requires Orderly(b) && CanAct(b, Remove(t, id))
    ensures Orderly(After(b, Remove(t, id)))
  {
    var c := RemoveOne(b, t, id);
    assert GoesWith(b, b.shutdowns[t]);
    HoldersKept(b, c, t);
    forall u | 0 <= u < |c.shutdowns| ensures GoesWith(c, c.shutdowns[u]) {
      assert GoesWith(b, b.shutdowns[u]);
    }
    forall i | i in c.pipe.inboxes && i !in c.open ensures HeldBySome(c, i) {
      if i in b.open {
        assert Holds(c.shutdowns[t], i);
      } else {
        assert HeldBySome(b, i);
      }
    }
  }

  lemma OrderKept(b: Bus, a: Action)
    requires Excluded(b) && Orderly(b) && CanAct(b, a) && !After(b, a).abrupt
    ensures Orderly(After(b, a))
  {
    hide Orderly, Excluded;
    match a
    case Check(_, _) => PublishOrderly(b, a);
    case Lock(_) => PublishOrderly(b, a);
    case Recheck(_) => PublishOrderly(b, a);
    case Submit(_, _) => PublishOrderly(b, a);
    case Work(m) => WorkOrderly(b, m);
    case EndTask(id) => TaskOrderly(b, id);
    case BeginGraceful(t) => BeginOrderly(b, t);
    case TakeDispatcher(t) => TakeOrderly(b, t);
    case WorkerDone(t) => DoneOrderly(b, t);
    case Collect(_) => CollectOrderly(b, a);
    case Await(_) => CollectOrderly(b, a);
    case Return(_) => CollectOrderly(b, a);
    case Remove(t, id) => RemoveOrderly(b, t, id);
    case _ => NoAbrupt(b, a);
  }

  lemma NoAbrupt(b: Bus, a: Action)
    requires Orderly(b) && CanAct(b, a) && !After(b, a).abrupt
    ensures !a.BeginAbrupt? && !a.StopDispatcher? && !a.LockTimeout? && !a.AbortTask? && !a.AbruptReturn?
  {
    hide Flowing, Moved, CanMove;
    assert forall t :: 0 <= t < |b.shutdowns| ==> GoesWith(b, b.shutdowns[t]);
  }

  lemma ActKeeps(b: Bus, a: Action)
    requires Inv(b) && CanAct(b, a)
    ensures Inv(After(b, a))
  {
    hide Flowing, Orderly, Excluded, Staged;
    PipeKept(b, a);
    ExclusionKept(b, a);
    StageKept(b, a);
    AbruptStays(b, a);
    if !After(b, a).abrupt {
      OrderKept(b, a);
    }
  }

  lemma AbruptStays(b: Bus, a: Action)
    requires CanAct(b, a)
    ensures b.abrupt ==> After(b, a).abrupt
  {
  }

  // ---------- Runs ----------

  ghost predicate Run(buses: seq<Bus>, actions: seq<Action>) {
    |buses| == |actions| + 1 && forall i :: 0 <= i < |actions| ==> ActsTo(buses[i], actions[i], buses[i + 1])
  }

  ghost predicate ActsTo(b: Bus, a: Action, c: Bus) { CanAct(b, a) && c == After(b, a) }

  ghost predicate Fresh(b: Bus) {
    b == Open(Start(b.pipe.net, b.pipe.queueSize, b.pipe.channelSize), |b.publishers|, |b.shutdowns|)
  }

  lemma RunCons(b: Bus, a: Action, buses: seq<Bus>, actions: seq<Action>)
    requires Run(buses, actions) && ActsTo(b, a, buses[0])
    ensures Run([b] + buses, [a] + actions)
  {
    hide ActsTo;
    forall i | 0 <= i < |actions| + 1 ensures ActsTo(([b] + buses)[i], ([a] + actions)[i], ([b] + buses)[i + 1]) {
      if i > 0 {
        assert ActsTo(buses[i - 1], actions[i - 1], buses[i]);
      }
    }
  }

  lemma Joined(xs: seq<Bus>, a: seq<Action>, ys: seq<Bus>, b: seq<Action>)
    requires Run(xs, a) && Run(ys, b) && xs[|a|] == ys[0]
    ensures Run(xs + ys[1..], a + b) && (xs + ys[1..])[0] == xs[0] && (xs + ys[1..])[|a + b|] == ys[|b|]
  {
    hide CanAct, After;
    var buses := xs + ys[1..];
    forall i | 0 <= i < |a + b| ensures ActsTo(buses[i], (a + b)[i], buses[i + 1]) {
      if i < |a| {
        assert ActsTo(xs[i], a[i], xs[i + 1]);
      } else {
        assert ActsTo(ys[i - |a|], b[i - |a|], ys[i - |a| + 1]);
      }
    }
  }

  lemma {:induction false} Reachable(buses: seq<Bus>, actions: seq<Action>, i: nat)
    requires Run(buses, actions) && Fresh(buses[0]) && i < |buses|
    ensures Inv(buses[i])
  {
    hide Inv, CanAct, After;
    if i == 0 {
      var p := buses[0].pipe;
      OpenInv(p.net, p.queueSize, p.channelSize, |buses[0].publishers|, |buses[0].shutdowns|);
    } else {
      Reachable(buses, actions, i - 1);
      assert ActsTo(buses[i - 1], actions[i - 1], buses[i]);
      ActKeeps(buses[i - 1], actions[i - 1]);
    }
  }

  /** No publish enqueues once the dispatcher has been taken out of its slot, and a shutdown takes it
      out only while no publisher is between lock and enqueue. While a shutdown has the lock, no publisher
      gets it. */
  lemma NoLateEnqueue(buses: seq<Bus>, actions: seq<Action>, i: nat)
    requires Run(buses, actions) && Fresh(buses[0]) && i < |actions|
    ensures !buses[i].dispatcher ==> !actions[i].Submit? && buses[i + 1].pipe.accepted == buses[i].pipe.accepted
    ensures buses[i].writer.Some? ==> !actions[i].Lock? && !actions[i].TakeDispatcher? && !actions[i].StopDispatcher?
  {
    hide Flowing, Orderly, Moved, CanMove;
    Reachable(buses, actions, i);
    assert ActsTo(buses[i], actions[i], buses[i + 1]);
    if actions[i].Submit? {
      assert Reading(buses[i].publishers[actions[i].p]);
    } else if !buses[i].dispatcher {
      AcceptedKept(buses[i], actions[i]);
    }
  }

  lemma AcceptedKept(b: Bus, a: Action)
    requires CanAct(b, a) && !a.Submit?
    ensures After(b, a).pipe.accepted == b.pipe.accepted
  {
    hide CanMove, Moved;
    match a
    case Work(m) => MovedAccepts(b.pipe, m);
    case AbortTask(_, id) => AbortedInboxes(b.pipe, id);
    case _ =>
  }

  lemma MovedAccepts(p: Pipe, m: Move)
    requires CanMove(p, m) && !m.Accept?
    ensures Moved(p, m).accepted == p.accepted
  {
  }

  /** Once left, the running state never comes back: no new call of publish passes its check, and a call
      under the lock is refused by the second check. */
  lemma {:induction false} NeverRunningAgain(buses: seq<Bus>, actions: seq<Action>, i: nat, j: nat)
    requires Run(buses, actions) && i <= j < |buses| && !buses[i].stage.Running?
    ensures !buses[j].stage.Running?
    ensures j < |actions| && actions[j].Check? ==> buses[j + 1] == buses[j]
    ensures j < |actions| && actions[j].Recheck? ==>
      && actions[j].p < |buses[j].publishers|
      && buses[j + 1] == buses[j].(publishers := buses[j].publishers[actions[j].p := Idle])
  {
    hide CanAct, After;
    if i < j {
      NeverRunningAgain(buses, actions, i, j - 1);
      assert ActsTo(buses[j - 1], actions[j - 1], buses[j]);
      StageStep(buses[j - 1], actions[j - 1]);
    }
    if j < |actions| {
      assert ActsTo(buses[j], actions[j], buses[j + 1]);
      StageRefuses(buses[j], actions[j]);
    }
  }

  lemma StageStep(b: Bus, a: Action)
    requires CanAct(b, a) && !b.stage.Running?
    ensures !After(b, a).stage.Running?
  {
    hide CanMove, Moved;
  }

  lemma StageRefuses(b: Bus, a: Action)
    requires CanAct(b, a) && !b.stage.Running?
    ensures a.Check? ==> After(b, a) == b
    ensures a.Recheck? ==> a.p < |b.publishers| && After(b, a) == b.(publishers := b.publishers[a.p := Idle])
  {
    hide CanMove, Moved;
  }

  /** The publisher has this event in hand. */
  predicate Carries(p: Publisher, e: Envelope) { !p.Idle? && p.e == e }

  /** The publisher found the bus running when its call began with this event, and if it may enqueue, it
      has found the bus running again since it got the lock. */
  ghost predicate Vouched(buses: seq<Bus>, actions: seq<Action>, i: nat, p: nat, e: Envelope, admitted: bool)
    requires Run(buses, actions) && i < |buses|
  {
    exists k, h :: 0 <= k < h <= i && actions[k] == Check(p, e) && buses[k].stage.Running?
      && (admitted ==> h < i && actions[h] == Recheck(p) && buses[h].stage.Running?)
  }

  /** Only events whose publisher found the bus running twice, before and under the lock, are accepted. */
  lemma AcceptedWasChecked(buses: seq<Bus>, actions: seq<Action>, i: nat, e: Envelope)
    requires Run(buses, actions) && Fresh(buses[0]) && i < |actions|
    requires buses[i + 1].pipe.accepted == buses[i].pipe.accepted + [e]
    ensures exists p :: actions[i] == Submit(p, Accept(e)) && Vouched(buses, actions, i, p, e, true)
  {
    assert ActsTo(buses[i], actions[i], buses[i + 1]);
    OnlySubmitAccepts(buses[i], actions[i], e);
    CarriedWasChecked(buses, actions, i, actions[i].p, e);
  }

  lemma OnlySubmitAccepts(b: Bus, a: Action, e: Envelope)
    requires CanAct(b, a) && After(b, a).pipe.accepted == b.pipe.accepted + [e]
    ensures a.Submit? && a.m == Accept(e) && b.publishers[a.p] == Admitted(e)
  {
    assert After(b, a).pipe.accepted[|b.pipe.accepted|] == e;
    if !a.Submit? {
      AcceptedKept(b, a);
    } else if !a.m.Accept? {
      MovedAccepts(b.pipe, a.m);
    }
  }

  lemma {:induction false} CarriedWasChecked(buses: seq<Bus>, actions: seq<Action>, i: nat, p: nat, e: Envelope)
    requires Run(buses, actions) && Fresh(buses[0]) && i < |buses|
    requires p < |buses[i].publishers| && Carries(buses[i].publishers[p], e)
    ensures Vouched(buses, actions, i, p, e, buses[i].publishers[p].Admitted?)
  {
    hide CanMove, Moved;
    if i > 0 {
      var b, a := buses[i - 1], actions[i - 1];
      assert ActsTo(b, a, buses[i]);
      PublisherStep(b, a, p, e);
      if Carries(b.publishers[p], e) {
        CarriedWasChecked(buses, actions, i - 1, p, e);
        var k, h :| 0 <= k < h <= i - 1 && actions[k] == Check(p, e) && buses[k].stage.Running?
          && (b.publishers[p].Admitted? ==> h < i - 1 && actions[h] == Recheck(p) && buses[h].stage.Running?);
        if !b.publishers[p].Admitted? && buses[i].publishers[p].Admitted? {
          assert 0 <= k < i - 1 <= i && actions[i - 1] == Recheck(p) && buses[i - 1].stage.Running?;
        }
      } else {
        assert 0 <= i - 1 < i && actions[i - 1] == Check(p, e);
      }
    }
  }

  /** How a publisher comes by an event, and when it is let through to enqueue it. */
  lemma PublisherStep(b: Bus, a: Action, p: nat, e: Envelope)
    requires CanAct(b, a) && p < |After(b, a).publishers| && Carries(After(b, a).publishers[p], e)
    ensures p < |b.publishers|
    ensures Carries(b.publishers[p], e) || (a == Check(p, e) && b.stage.Running?)
    ensures Carries(b.publishers[p], e) ==> After(b, a).publishers[p].Admitted? ==>
      b.publishers[p].Admitted? || (a == Recheck(p) && b.stage.Running?)
    ensures !Carries(b.publishers[p], e) ==> !After(b, a).publishers[p].Admitted?
  {
    hide CanMove, Moved;
  }

  // ---------- The abrupt shutdown ----------

  /** The task of a subscription that is still in the map has ended only by being cancelled. */
  ghost predicate EndedByAbort(b: Bus) {
    b.open <= b.pipe.inboxes.Keys && Shut(b.pipe)
    && forall id :: id in b.ended && id in b.open ==> b.pipe.inboxes[id].closed
  }

  /** When an abrupt shutdown returns, the bus is stopped, no subscription is in the map, and those that
      were there have had their tasks cancelled and handle nothing more. */
  lemma AbruptEnds(buses: seq<Bus>, actions: seq<Action>, i: nat, j: nat, id: SubId)
    requires Run(buses, actions) && Fresh(buses[0]) && i < j < |buses| && actions[i].AbruptReturn?
    ensures buses[i + 1].stage.Stopped? && buses[i + 1].open == {}
    ensures id in buses[i].open ==>
      && id in buses[i].pipe.inboxes && id in buses[j].pipe.inboxes
      && buses[j].pipe.inboxes[id] == Inbox([], None, buses[i].pipe.inboxes[id].done, true)
  {
    hide CanMove, Moved;
    assert ActsTo(buses[i], actions[i], buses[i + 1]);
    EndedRuns(buses, actions, i);
    if id in buses[i].open {
      ShutRuns(buses, actions, i, j, id);
    }
  }

  lemma {:induction false} EndedRuns(buses: seq<Bus>, actions: seq<Action>, i: nat)
    requires Run(buses, actions) && Fresh(buses[0]) && i < |buses|
    ensures EndedByAbort(buses[i])
  {
    hide CanAct, After, EndedByAbort;
    if i == 0 {
      FreshEnded(buses[0]);
    } else {
      EndedRuns(buses, actions, i - 1);
      Reachable(buses, actions, i - 1);
      assert ActsTo(buses[i - 1], actions[i - 1], buses[i]);
      EndedStep(buses[i - 1], actions[i - 1]);
    }
  }

  lemma FreshEnded(b: Bus)
    requires Fresh(b)
    ensures EndedByAbort(b)
  {
  }

  lemma EndedStep(b: Bus, a: Action)
    requires EndedByAbort(b) && CanAct(b, a)
    ensures EndedByAbort(After(b, a))
  {
    hide CanMove, Moved, Shut;
    match a
    case Submit(_, m) => MoveShuts(b.pipe, m);
    case Work(m) => MoveShuts(b.pipe, m);
    case AbortTask(_, id) =>
      CanAbort(b.pipe, id);
      MoveShuts(b.pipe, Abort(id));
      ShutAfterAbort(b.pipe, id);
    case _ =>
  }

  lemma MoveShuts(p: Pipe, m: Move)
    requires Shut(p) && CanMove(p, m)
    ensures Shut(Moved(p, m)) && Moved(p, m).inboxes.Keys == p.inboxes.Keys
    ensures forall id :: id in p.inboxes && p.inboxes[id].closed ==> Moved(p, m).inboxes[id] == p.inboxes[id]
  {
  }

  lemma {:induction false} ShutRuns(buses: seq<Bus>, actions: seq<Action>, i: nat, j: nat, id: SubId)
    requires Run(buses, actions) && i <= j < |buses| && Shut(buses[i].pipe)
    requires id in buses[i].pipe.inboxes && buses[i].pipe.inboxes[id].closed
    ensures Shut(buses[j].pipe) && id in buses[j].pipe.inboxes
    ensures buses[j].pipe.inboxes[id] == buses[i].pipe.inboxes[id]
  {
    hide Shut, CanMove, Moved;
    if i < j {
      ShutRuns(buses, actions, i, j - 1, id);
      var b, a := buses[j - 1], actions[j - 1];
      assert ActsTo(b, a, buses[j]);
      match a
      case Submit(_, m) => MoveShuts(b.pipe, m);
      case Work(m) => MoveShuts(b.pipe, m);
      case AbortTask(_, other) =>
        CanAbort(b.pipe, other);
        MoveShuts(b.pipe, Abort(other));
      case _ =>
    }
  }

  /** From the moment an abrupt shutdown has stopped the dispatcher, the worker takes no event from the
      queue. */
  lemma {:induction false} StopHalts(buses: seq<Bus>, actions: seq<Action>, i: nat, j: nat)
    requires Run(buses, actions) && i < j < |buses| && actions[i].StopDispatcher? && buses[i].dispatcher
    ensures !buses[j].dispatcher && !buses[j].running
    ensures j < |actions| && actions[j].Work? ==> !actions[j].m.Take? && !actions[j].m.Die?
  {
    hide CanAct, After;
    assert ActsTo(buses[j - 1], actions[j - 1], buses[j]);
    if i < j - 1 {
      StopHalts(buses, actions, i, j - 1);
      StaysHalted(buses[j - 1], actions[j - 1]);
    } else {
      HaltsNow(buses[i], actions[i]);
    }
    if j < |actions| {
      assert ActsTo(buses[j], actions[j], buses[j + 1]);
      HaltedTakesNone(buses[j], actions[j]);
    }
  }

  lemma StaysHalted(b: Bus, a: Action)
    requires CanAct(b, a) && !b.dispatcher && !b.running
    ensures !After(b, a).dispatcher && !After(b, a).running
  {
    hide CanMove, Moved;
  }

  lemma HaltsNow(b: Bus, a: Action)
    requires CanAct(b, a) && a.StopDispatcher? && b.dispatcher
    ensures !After(b, a).dispatcher && !After(b, a).running
  {
    hide CanMove, Moved;
  }

  lemma HaltedTakesNone(b: Bus, a: Action)
    requires CanAct(b, a) && !b.running
    ensures a.Work? ==> !a.m.Take? && !a.m.Die?
  {
    hide CanMove, Moved;
  }

  /** An abrupt shutdown can always go through, even if a graceful one keeps the lock and never lets go:
      it gives up on the lock, cancels the tasks and returns. */
  lemma AbruptGoesThrough(b: Bus, t: nat) returns (buses: seq<Bus>, actions: seq<Action>)
    requires t < |b.shutdowns| && b.shutdowns[t].NotCalled? && b.open <= b.pipe.inboxes.Keys
    ensures Run(buses, actions) && buses[0] == b && |actions| >= 3
    ensures actions[0] == BeginAbrupt(t) && actions[1] == LockTimeout(t)
    ensures forall i :: 2 <= i < |actions| - 1 ==> actions[i].AbortTask? && actions[i].t == t
    ensures buses[|actions|].shutdowns == b.shutdowns[t := AbruptReturned] && buses[|actions|].stage.Stopped?
    ensures buses[|actions|].dispatcher == b.dispatcher && buses[|actions|].writer == b.writer
  {
    hide CanAct, After;
    var b1 := Going(b, t, Abrupt).(stage := Draining, abrupt := true);
    var b2 := Going(b1, t, AbruptStopped);
    GivesUp(b, t);
    var rest, aborts := CancelAll(b2, t);
    var last := rest[|aborts|];
    var c := Going(last, t, AbruptReturned).(open := {}, stage := Stopped);
    ReturnsAbruptly(last, t);
    buses, actions := [b, b1] + rest + [c], [BeginAbrupt(t), LockTimeout(t)] + aborts + [AbruptReturn(t)];
    forall i | 0 <= i < |actions| ensures ActsTo(buses[i], actions[i], buses[i + 1]) {
      if 2 <= i < |actions| - 1 {
        assert ActsTo(rest[i - 2], aborts[i - 2], rest[i - 1]);
      }
    }
  }

  lemma GivesUp(b: Bus, t: nat)
    requires t < |b.shutdowns| && b.shutdowns[t].NotCalled?
    ensures var b1 := Going(b, t, Abrupt).(stage := Draining, abrupt := true);
      ActsTo(b, BeginAbrupt(t), b1) && ActsTo(b1, LockTimeout(t), Going(b1, t, AbruptStopped))
  {
    hide CanMove, Moved;
  }

  lemma ReturnsAbruptly(b: Bus, t: nat)
    requires t < |b.shutdowns| && b.shutdowns[t].AbruptStopped? && b.open <= b.ended
    ensures ActsTo(b, AbruptReturn(t), Going(b, t, AbruptReturned).(open := {}, stage := Stopped))
  {
    hide CanMove, Moved;
  }

  lemma {:induction false} CancelAll(b: Bus, t: nat) returns (buses: seq<Bus>, aborts: seq<Action>)
    requires t < |b.shutdowns| && b.shutdowns[t].AbruptStopped? && b.open <= b.pipe.inboxes.Keys
    ensures Run(buses, aborts) && buses[0] == b
    ensures forall i :: 0 <= i < |aborts| ==> aborts[i].AbortTask? && aborts[i].t == t
    ensures var c := buses[|aborts|];
      && c.shutdowns == b.shutdowns && c.dispatcher == b.dispatcher && c.writer == b.writer
      && c.open == b.open <= c.ended
    decreases |b.open - b.ended|
  {
    hide ActsTo, Moved, CanMove;
    if b.open <= b.ended {
      buses, aborts := [b], [];
    } else {
      assert exists id :: id in b.open && id !in b.ended;
      var id :| id in b.open && id !in b.ended;
      CanAbort(b.pipe, id);
      var c := b.(pipe := Moved(b.pipe, Abort(id)), ended := b.ended + {id});
      CancelsOne(b, t, id);
      assert c.open - c.ended == b.open - b.ended - {id};
      var rest, others := CancelAll(c, t);
      RunCons(b, AbortTask(t, id), rest, others);
      buses, aborts := [b] + rest, [AbortTask(t, id)] + others;
    }
  }

  lemma CancelsOne(b: Bus, t: nat, id: SubId)
    requires t < |b.shutdowns| && b.shutdowns[t].AbruptStopped? && id in b.pipe.inboxes
    ensures CanMove(b.pipe, Abort(id))
    ensures ActsTo(b, AbortTask(t, id), b.(pipe := Moved(b.pipe, Abort(id)), ended := b.ended + {id}))
    ensures Moved(b.pipe, Abort(id)).inboxes.Keys == b.pipe.inboxes.Keys
  {
  }

  // ---------- Draining ----------

  /** Every subscription has handled all accepted events that were routed to it and not lost. */
  ghost predicate Drained(b: Bus) {
    forall id :: id in b.pipe.inboxes ==> b.pipe.inboxes[id].done == Expected(b.pipe, id)
  }

  /** Another shutdown call still waits for a task that has work left. */
  ghost predicate OthersWait(b: Bus) {
    exists t, id :: 0 <= t < |b.shutdowns| && WaitsFor(b, b.shutdowns[t], id)
  }

  ghost predicate WaitsFor(b: Bus, s: Shutdown, id: SubId) {
    !s.Returned? && Holds(s, id) && id in b.pipe.inboxes && !Ended(b.pipe.inboxes[id])
  }

  /** When a graceful shutdown has returned and no shutdown was abrupt, everything accepted has been
      handled, except when another shutdown call running beside it still waits for tasks it took. */
  lemma StoppedMeansDrained(b: Bus, t: nat)
    requires Inv(b) && !b.abrupt && t < |b.shutdowns| && b.shutdowns[t].Returned?
    ensures Drained(b) <==> !OthersWait(b)
  {
    assert GoesWith(b, b.shutdowns[t]);
    assert Quiet(b.pipe);
    forall id | id in b.pipe.inboxes
      ensures b.pipe.inboxes[id].done == Expected(b.pipe, id) <==> Ended(b.pipe.inboxes[id])
    {
      DoneMeansEnded(b.pipe, id);
    }
    if !OthersWait(b) {
      forall id | id in b.pipe.inboxes ensures Ended(b.pipe.inboxes[id]) {
        assert HeldBySome(b, id);
        var u :| 0 <= u < |b.shutdowns| && Holds(b.shutdowns[u], id);
        assert GoesWith(b, b.shutdowns[u]);
        assert !WaitsFor(b, b.shutdowns[u], id);
      }
    }
  }

  lemma DoneMeansEnded(p: Pipe, id: SubId)
    requires Flowing(p) && Quiet(p) && id in p.inboxes
    ensures p.inboxes[id].done == Expected(p, id) <==> Ended(p.inboxes[id])
  {
    assert Whole(p, id);
    var inbox := p.inboxes[id];
    assert inbox.done + InHand(inbox) + [] + [] == inbox.done + InHand(inbox);
    assert |InHand(inbox)| == 0 <==> Ended(inbox);
    if Ended(inbox) {
      QuietIsDone(p, id);
    }
  }

  /** The five actions of a shutdown call that finds the dispatcher and all subscriptions taken. */
  function LateCall(t: nat): seq<Action> {
    [BeginGraceful(t), TakeDispatcher(t), Collect(t), Await(t), Return(t)]
  }

  /** That exception is real: while one call waits for a task with work left, a second call runs
      through at once, and stores Stopped before everything accepted has been handled. */
  lemma SecondCallStopsEarly(b: Bus, t: nat, u: nat, id: SubId) returns (buses: seq<Bus>)
    requires Inv(b) && !b.abrupt && t < |b.shutdowns| && u < |b.shutdowns|
    requires b.shutdowns[t].Awaiting? && WaitsFor(b, b.shutdowns[t], id) && b.shutdowns[u].NotCalled?
    ensures Run(buses, LateCall(u)) && buses[0] == b
    ensures buses[5] == b.(stage := Stopped, shutdowns := b.shutdowns[u := Returned({})]) && !Drained(buses[5])
  {
    hide Flowing, Drained;
    assert GoesWith(b, b.shutdowns[t]);
    buses := LateRun(b, u);
    NotDrained(buses[5], id);
  }

  lemma NotDrained(b: Bus, id: SubId)
    requires Flowing(b.pipe) && Quiet(b.pipe) && id in b.pipe.inboxes && !Ended(b.pipe.inboxes[id])
    ensures !Drained(b)
  {
    DoneMeansEnded(b.pipe, id);
  }

  lemma LateRun(b: Bus, u: nat) returns (buses: seq<Bus>)
    requires !b.dispatcher && b.writer.None? && NoReaders(b) && b.open == {}
    requires u < |b.shutdowns| && b.shutdowns[u].NotCalled?
    ensures Run(buses, LateCall(u)) && buses[0] == b
    ensures buses[5] == b.(stage := Stopped, shutdowns := b.shutdowns[u := Returned({})])
  {
    hide CanAct, After;
    var b1 := Going(b, u, Begun).(stage := Draining);
    var b2, b3 := Going(b1, u, Emptied), Going(b1, u, Collecting({}, {}));
    var b4, b5 := Going(b1, u, Awaiting({})), Going(b1, u, Returned({})).(stage := Stopped);
    LateBegins(b, u);
    LateEnds(b1, u);
    buses := [b, b1, b2, b3, b4, b5];
  }

  lemma LateBegins(b: Bus, u: nat)
    requires u < |b.shutdowns| && b.shutdowns[u].NotCalled?
    ensures ActsTo(b, BeginGraceful(u), Going(b, u, Begun).(stage := Draining))
  {
    hide Moved, CanMove;
  }

  lemma LateEnds(b: Bus, u: nat)
    requires !b.dispatcher && b.writer.None? && NoReaders(b) && b.open == {}
    requires u < |b.shutdowns| && b.shutdowns[u].Begun?
    ensures var b1, b2, b3 := Going(b, u, Emptied), Going(b, u, Collecting({}, {})), Going(b, u, Awaiting({}));
      && ActsTo(b, TakeDispatcher(u), b1) && ActsTo(b1, Collect(u), b2) && ActsTo(b2, Await(u), b3)
      && ActsTo(b3, Return(u), Going(b, u, Returned({})).(stage := Stopped))
  {
    hide Moved, CanMove;
  }

  predicate Alone(b: Bus, t: nat) {
    forall u :: 0 <= u < |b.shutdowns| && u != t ==> b.shutdowns[u].NotCalled? || b.shutdowns[u].Returned?
  }

  /** All events accepted and routed to the subscription, in the order of acceptance. */
  ghost function AllRouted(p: Pipe, id: SubId): seq<nat> {
    Filter(Tags(|p.accepted|), RoutedTo(p.net, p.accepted, id))
  }

  ghost function RoutedTo(net: Net, accepted: seq<Envelope>, id: SubId): nat -> bool {
    (tag: nat) => Routed(net, accepted, id, tag)
  }

  /** Nothing of a subscription's events was lost while its task and the worker lived, and what it has
      handled, or has got and can still handle, are the first of them. */
  ghost predicate Spared(p: Pipe, id: SubId) {
    && id in p.inboxes && p.inboxes[id].done <= AllRouted(p, id)
    && (!p.inboxes[id].closed ==> p.inboxes[id].done + InHand(p.inboxes[id]) <= AllRouted(p, id))
    && (p.inboxes[id].closed || p.worker.Dead? || forall tag: nat :: (id, tag) !in p.lost)
  }

  /** The promise of a graceful shutdown: in every run without abrupt shutdowns, dispatch timeouts and
      shutdown calls beside it, when it returns every subscription has handled exactly the events that
      were enqueued and route to it, once, in the order of acceptance, if neither its task nor the worker
      died. Otherwise it has handled the first so many of them. */
  lemma GracefulDrain(buses: seq<Bus>, actions: seq<Action>, i: nat, t: nat, id: SubId)
    requires Run(buses, actions) && Fresh(buses[0]) && i < |buses| && t < |buses[i].shutdowns|
    requires buses[i].shutdowns[t].Returned? && Alone(buses[i], t) && !buses[i].abrupt
    requires forall k :: 0 <= k < i ==> actions[k] != Work(Timeout)
    requires id in buses[i].pipe.inboxes
    ensures var p := buses[i].pipe;
      if p.inboxes[id].closed || p.worker.Dead? then p.inboxes[id].done <= AllRouted(p, id)
      else p.inboxes[id].done == AllRouted(p, id)
  {
    var b := buses[i];
    Reachable(buses, actions, i);
    SparedRuns(buses, actions, i, id);
    assert GoesWith(b, b.shutdowns[t]);
    assert !OthersWait(b);
    StoppedMeansDrained(b, t);
    LosslessExpects(b.pipe, id);
  }

  lemma LosslessExpects(p: Pipe, id: SubId)
    ensures (forall tag: nat :: (id, tag) !in p.lost) ==> Expected(p, id) == AllRouted(p, id)
  {
    if forall tag: nat :: (id, tag) !in p.lost {
      FilterAgree(Tags(|p.accepted|), Mine(p, id), RoutedTo(p.net, p.accepted, id));
    }
  }

  /** More events accepted only add to what is routed. */
  lemma RoutedGrows(p: Pipe, q: Pipe, id: SubId)
    requires q.net == p.net && p.accepted <= q.accepted && |q.accepted| <= |p.accepted| + 1
    ensures AllRouted(p, id) <= AllRouted(q, id)
  {
    hide RoutedTo, Tags;
    if |q.accepted| == |p.accepted| {
      assert q.accepted == p.accepted;
    } else {
      assert q.accepted == p.accepted + [q.accepted[|p.accepted|]];
      RoutedMore(p.net, p.accepted, q.accepted[|p.accepted|], id);
    }
  }

  lemma RoutedMore(net: Net, accepted: seq<Envelope>, e: Envelope, id: SubId)
    ensures Filter(Tags(|accepted|), RoutedTo(net, accepted, id))
      <= Filter(Tags(|accepted| + 1), RoutedTo(net, accepted + [e], id))
  {
    hide Recipient;
    var n: nat := |accepted|;
    FilterAgree(Tags(n), RoutedTo(net, accepted, id), RoutedTo(net, accepted + [e], id));
    assert Tags(n + 1) == Tags(n) + [n];
    FilterPush(Tags(n), n, RoutedTo(net, accepted + [e], id));
  }

  lemma {:induction false} SparedRuns(buses: seq<Bus>, actions: seq<Action>, i: nat, id: SubId)
    requires Run(buses, actions) && Fresh(buses[0]) && i < |buses| && !buses[i].abrupt
    requires forall k :: 0 <= k < i ==> actions[k] != Work(Timeout)
    requires id in buses[i].pipe.inboxes
    ensures Spared(buses[i].pipe, id)
  {
    hide Inv, CanAct, After, Spared, Flowing, Shut;
    if i == 0 {
      FreshSpared(buses[0], id);
    } else {
      assert ActsTo(buses[i - 1], actions[i - 1], buses[i]);
      AbruptStays(buses[i - 1], actions[i - 1]);
      Reachable(buses, actions, i - 1);
      InboxesKept(buses[i - 1], actions[i - 1]);
      SparedRuns(buses, actions, i - 1, id);
      InvOrderly(buses[i - 1]);
      ActKeeps(buses[i - 1], actions[i - 1]);
      InvFlows(buses[i - 1]);
      InvFlows(buses[i]);
      SparedStep(buses[i - 1], actions[i - 1], id);
    }
  }

  lemma InvFlows(b: Bus)
    requires Inv(b)
    ensures Flowing(b.pipe) && Shut(b.pipe)
  {
  }

  lemma FreshSpared(b: Bus, id: SubId)
    requires Fresh(b) && id in b.pipe.inboxes
    ensures Spared(b.pipe, id)
  {
  }

  lemma InvOrderly(b: Bus)
    requires Inv(b) && !b.abrupt
    ensures Orderly(b)
  {
  }

  lemma InboxesKept(b: Bus, a: Action)
    requires CanAct(b, a)
    ensures After(b, a).pipe.inboxes.Keys == b.pipe.inboxes.Keys
  {
    hide CanMove, Moved, NoReaders, Quiet, Ended, Submission;
    match a
    case Submit(_, m) => MovedInboxes(b.pipe, m);
    case Work(m) => MovedInboxes(b.pipe, m);
    case AbortTask(_, id) => AbortedInboxes(b.pipe, id);
    case _ =>
  }

  lemma MovedInboxes(p: Pipe, m: Move)
    requires CanMove(p, m)
    ensures Moved(p, m).inboxes.Keys == p.inboxes.Keys
  {
  }

  lemma AbortedInboxes(p: Pipe, id: SubId)
    requires id in p.inboxes
    ensures CanMove(p, Abort(id)) && Moved(p, Abort(id)).inboxes.Keys == p.inboxes.Keys
    ensures Moved(p, Abort(id)).accepted == p.accepted
  {
  }

  lemma SparedStep(b: Bus, a: Action, id: SubId)
    requires Orderly(b) && CanAct(b, a) && !After(b, a).abrupt && a != Work(Timeout) && Spared(b.pipe, id)
    requires Shut(b.pipe) && Flowing(After(b, a).pipe)
    ensures Spared(After(b, a).pipe, id)
  {
    hide Orderly, Spared, Moved, CanMove, Flowing, Shut;
    NoAbrupt(b, a);
    match a
    case Submit(_, m) => SparedMove(b.pipe, m, id);
    case Work(m) =>
      if m == Halt { HaltQuiet(b, id); } else { SparedMove(b.pipe, m, id); }
    case _ =>
  }

  lemma SparedMove(p: Pipe, m: Move, id: SubId)
    requires CanMove(p, m) && Spared(p, id) && m != Timeout && m != Halt
    requires Shut(p) && Flowing(Moved(p, m))
    ensures Spared(Moved(p, m), id)
  {
    hide Flowing, AllRouted, Moved, CanMove;
    var q := Moved(p, m);
    MoveEffects(p, m, id);
    RoutedGrows(p, q, id);
    if !q.inboxes[id].closed && !q.worker.Dead? {
      LosslessExpects(q, id);
      FirstOfWhole(q, id);
    }
  }

  lemma FirstOfWhole(p: Pipe, id: SubId)
    requires Flowing(p) && id in p.inboxes
    ensures p.inboxes[id].done + InHand(p.inboxes[id]) <= Expected(p, id)
    ensures p.inboxes[id].done <= Expected(p, id)
  {
    assert Whole(p, id);
  }

  lemma MoveEffects(p: Pipe, m: Move, id: SubId)
    requires CanMove(p, m) && id in p.inboxes && Shut(p) && m != Timeout && m != Halt
    ensures var q := Moved(p, m);
      && id in q.inboxes && q.net == p.net && p.accepted <= q.accepted && |q.accepted| <= |p.accepted| + 1
      && (if q.inboxes[id].closed then q.inboxes[id].done == p.inboxes[id].done
          else if q.worker.Dead? then
            !p.inboxes[id].closed
            && q.inboxes[id].done + InHand(q.inboxes[id]) == p.inboxes[id].done + InHand(p.inboxes[id])
          else !p.inboxes[id].closed && !p.worker.Dead?
               && ((forall tag: nat :: (id, tag) !in p.lost) ==> forall tag: nat :: (id, tag) !in q.lost))
  {
  }

  /** A worker is told to stop only with nothing left to do. */
  lemma HaltQuiet(b: Bus, id: SubId)
    requires Orderly(b) && CanAct(b, Work(Halt)) && Spared(b.pipe, id)
    ensures Spared(Moved(b.pipe, Halt), id)
  {
  }
}
