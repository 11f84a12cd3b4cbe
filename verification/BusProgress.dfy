/** A graceful shutdown is never stuck: from every state of a running bus there is a way for worker,
    handlers and shutdown call on which it returns with everything handled. */
module BusProgress {
  import opened Events
  import opened TopicTries
  import opened Pipelines
  import opened BusProtocol
  import opened BusRuns

  ghost predicate Goes(buses: seq<Bus>, actions: seq<Action>, b: Bus, c: Bus) {
    Run(buses, actions) && buses[0] == b && buses[|actions|] == c
  }

  /** Some run leads from the one state to the other. */
  ghost predicate Leads(b: Bus, c: Bus) { exists buses, actions :: Goes(buses, actions, b, c) }

  lemma LeadsNowhere(b: Bus)
    ensures Leads(b, b)
  {
    assert Goes([b], [], b, b);
  }

  lemma LeadsBy(b: Bus, a: Action, c: Bus, d: Bus)
    requires ActsTo(b, a, c) && Leads(c, d)
    ensures Leads(b, d)
  {
    hide ActsTo;
    var buses, actions :| Goes(buses, actions, c, d);
    RunCons(b, a, buses, actions);
    assert Goes([b] + buses, [a] + actions, b, d);
  }

  lemma LeadsOn(b: Bus, c: Bus, d: Bus)
    requires Leads(b, c) && Leads(c, d)
    ensures Leads(b, d)
  {
    hide ActsTo;
    var xs, a :| Goes(xs, a, b, c);
    var ys, z :| Goes(ys, z, c, d);
    Joined(xs, a, ys, z);
    assert Goes(xs + ys[1..], a + z, b, d);
  }

  // ---------- The pipeline works off what it has ----------

  ghost predicate NoneClosed(p: Pipe) { forall id :: id in p.inboxes ==> !p.inboxes[id].closed }

  /** Nothing new has come, and nothing was lost to a living subscription. */
  ghost predicate Onward(p: Pipe, q: Pipe) {
    && q.net == p.net && q.accepted == p.accepted && q.channelSize == p.channelSize
    && q.inboxes.Keys == p.inboxes.Keys && (NoneClosed(p) ==> NoneClosed(q) && q.lost == p.lost)
  }

  lemma WorkLeads(b: Bus, m: Move, c: Bus, d: Bus)
    requires b.running && CanMove(b.pipe, m) && (m.Take? || m.Send? || m.Complete? || m.Receive? || m.Finish?)
    requires c == b.(pipe := Moved(b.pipe, m)) && Leads(c, d)
    ensures Leads(b, d)
  {
    hide CanMove, Moved, Leads;
    LeadsBy(b, Work(m), c, d);
  }

  /** A handler empties its inbox. */
  lemma {:induction false} EmptyInbox(b: Bus, id: SubId) returns (c: Bus)
    requires b.running && id in b.pipe.inboxes
    ensures Leads(b, c) && id in c.pipe.inboxes && Ended(c.pipe.inboxes[id])
    ensures c == b.(pipe := b.pipe.(inboxes := b.pipe.inboxes[id := c.pipe.inboxes[id]]))
    ensures c.pipe.inboxes[id].closed == b.pipe.inboxes[id].closed
    decreases |b.pipe.inboxes[id].channel|, b.pipe.inboxes[id].busy.Some?
  {
    hide Leads, Run, ActsTo;
    var inbox := b.pipe.inboxes[id];
    if Ended(inbox) {
      c := b;
      LeadsNowhere(b);
    } else {
      var m := if inbox.busy.Some? then Finish(id) else Receive(id);
      var next := b.(pipe := Moved(b.pipe, m));
      c := EmptyInbox(next, id);
      WorkLeads(b, m, next, c);
      assert b.pipe.inboxes[id := c.pipe.inboxes[id]] == next.pipe.inboxes[id := c.pipe.inboxes[id]];
    }
  }

  lemma EmptiedOnward(p: Pipe, q: Pipe, id: SubId)
    requires id in p.inboxes && id in q.inboxes && q == p.(inboxes := p.inboxes[id := q.inboxes[id]])
    requires q.inboxes[id].closed == p.inboxes[id].closed
    ensures Onward(p, q)
  {
  }

  lemma SentOnward(p: Pipe, id: SubId)
    requires CanMove(p, Send(id))
    ensures Onward(p, Sent(p, id)) && Sent(p, id).worker == Sending(p.worker.tag, p.worker.pending - {id})
    ensures Sent(p, id).queue == p.queue
  {
  }

  /** The worker sends its event to all recipients, each of which makes room first. */
  lemma {:induction false} SendsAll(b: Bus) returns (c: Bus)
    requires b.running && b.pipe.channelSize >= 1
    requires b.pipe.worker.Sending? && b.pipe.worker.pending <= b.pipe.inboxes.Keys
    ensures Leads(b, c) && c == b.(pipe := c.pipe) && Onward(b.pipe, c.pipe)
    ensures c.pipe.worker == Waiting && c.pipe.queue == b.pipe.queue
    decreases b.pipe.worker.pending
  {
    hide Leads, Run, ActsTo;
    if b.pipe.worker.pending == {} {
      c := b.(pipe := Moved(b.pipe, Complete));
      LeadsNowhere(c);
      WorkLeads(b, Complete, c, c);
    } else {
      var id :| id in b.pipe.worker.pending;
      var b1 := EmptyInbox(b, id);
      EmptiedOnward(b.pipe, b1.pipe, id);
      var b2 := b1.(pipe := Moved(b1.pipe, Send(id)));
      SentOnward(b1.pipe, id);
      c := SendsAll(b2);
      WorkLeads(b1, Send(id), b2, c);
      LeadsOn(b, b1, c);
    }
  }

  /** The worker works off the queue. */
  lemma {:induction false} WorksQueueOff(b: Bus) returns (c: Bus)
    requires b.running && b.pipe.channelSize >= 1 && (b.pipe.worker.Dead? ==> b.pipe.queue == [])
    requires b.pipe.worker.Sending? ==> b.pipe.worker.pending <= b.pipe.inboxes.Keys
    ensures Leads(b, c) && c == b.(pipe := c.pipe) && Onward(b.pipe, c.pipe) && Quiet(c.pipe)
    decreases |b.pipe.queue|, b.pipe.worker.Sending?
  {
    hide Leads, Run, ActsTo, NoneClosed;
    if b.pipe.worker.Sending? {
      var b1 := SendsAll(b);
      c := WorksQueueOff(b1);
      LeadsOn(b, b1, c);
    } else if b.pipe.queue == [] {
      c := b;
      LeadsNowhere(b);
    } else {
      var b1 := b.(pipe := Moved(b.pipe, Take));
      TakenOnward(b.pipe);
      c := WorksQueueOff(b1);
      WorkLeads(b, Take, b1, c);
    }
  }

  lemma TakenOnward(p: Pipe)
    requires p.queue != []
    ensures Onward(p, Taken(p)) && Taken(p).worker.Sending? && Taken(p).worker.pending <= p.inboxes.Keys
    ensures Taken(p).queue == p.queue[1..]
  {
  }

  /** The handlers work off all inboxes. */
  lemma {:induction false} EmptyAll(b: Bus, ids: set<SubId>) returns (c: Bus)
    requires b.running && ids <= b.pipe.inboxes.Keys
    ensures Leads(b, c) && c == b.(pipe := c.pipe) && Onward(b.pipe, c.pipe)
    ensures c.pipe.queue == b.pipe.queue && c.pipe.worker == b.pipe.worker
    ensures forall id :: id in b.pipe.inboxes ==>
      if id in ids then Ended(c.pipe.inboxes[id]) else c.pipe.inboxes[id] == b.pipe.inboxes[id]
    decreases ids
  {
    hide Leads, Run, ActsTo;
    if ids == {} {
      c := b;
      LeadsNowhere(b);
    } else {
      var id :| id in ids;
      var b1 := EmptyInbox(b, id);
      EmptiedOnward(b.pipe, b1.pipe, id);
      c := EmptyAll(b1, ids - {id});
      LeadsOn(b, b1, c);
    }
  }

  // ---------- The shutdown call ----------

  /** The call takes all subscriptions out of the map. */
  lemma {:induction false} RemovesAll(b: Bus, t: nat) returns (c: Bus)
    requires t < |b.shutdowns| && b.shutdowns[t].Collecting? && b.open <= b.shutdowns[t].snapshot
    ensures Leads(b, c)
    ensures c == b.(open := {}, shutdowns := b.shutdowns[t := Collecting({}, b.shutdowns[t].handles + b.open)])
    decreases b.shutdowns[t].snapshot
  {
    hide Leads, Run, Moved, CanMove;
    var s := b.shutdowns[t];
    if s.snapshot == {} {
      c := b;
      LeadsNowhere(b);
      assert s.handles + b.open == s.handles;
      assert b.shutdowns[t := s] == b.shutdowns;
    } else {
      var id :| id in s.snapshot;
      var next := RemoveOne(b, t, id);
      c := RemovesAll(next, t);
      LeadsBy(b, Remove(t, id), next, c);
      assert next.shutdowns[t].handles + next.open == s.handles + b.open;
      assert next.shutdowns[t := c.shutdowns[t]] == b.shutdowns[t := c.shutdowns[t]];
    }
  }

  /** Tasks with nothing left end when their subscriptions are out of the map. */
  lemma {:induction false} TasksEnd(b: Bus, ids: set<SubId>) returns (c: Bus)
    requires forall id :: id in ids ==> id in b.pipe.inboxes && id !in b.open && Ended(b.pipe.inboxes[id])
    ensures Leads(b, c) && c == b.(ended := b.ended + ids)
    decreases ids
  {
    hide Leads, Run, Moved, CanMove;
    if ids == {} {
      c := b;
      LeadsNowhere(b);
      assert b.ended + {} == b.ended;
    } else {
      var id :| id in ids;
      var next := b.(ended := b.ended + {id});
      c := TasksEnd(next, ids - {id});
      LeadsBy(b, EndTask(id), next, c);
      assert b.ended + {id} + (ids - {id}) == b.ended + ids;
    }
  }

  lemma BeginsAndTakes(b: Bus, t: nat)
    requires b.dispatcher && b.writer.None? && NoReaders(b)
    requires t < |b.shutdowns| && b.shutdowns[t].NotCalled?
    ensures var b1 := Going(b, t, Begun).(stage := Draining);
      && ActsTo(b, BeginGraceful(t), b1)
      && ActsTo(b1, TakeDispatcher(t), Going(b1, t, Emptying).(dispatcher := false, writer := Some(t)))
  {
    hide Moved, CanMove;
  }

  lemma DoneAndCollects(b: Bus, t: nat)
    requires t < |b.shutdowns| && b.shutdowns[t].Emptying? && Quiet(b.pipe)
    ensures var b1 := Going(b, t, Emptied).(writer := None, running := false);
      ActsTo(b, WorkerDone(t), b1) && ActsTo(b1, Collect(t), Going(b1, t, Collecting(b.open, {})))
  {
    hide Moved, CanMove;
  }

  lemma AwaitFollows(b: Bus, t: nat)
    requires t < |b.shutdowns| && b.shutdowns[t].Collecting? && b.shutdowns[t].snapshot == {}
    ensures ActsTo(b, Await(t), Going(b, t, Awaiting(b.shutdowns[t].handles)))
  {
    hide Moved, CanMove;
  }

  lemma ReturnFollows(b: Bus, t: nat)
    requires t < |b.shutdowns| && b.shutdowns[t].Awaiting? && b.shutdowns[t].handles <= b.ended
    ensures ActsTo(b, Return(t), Going(b, t, Returned(b.shutdowns[t].handles)).(stage := Stopped))
  {
    hide Moved, CanMove;
  }

  /** From begun to emptied: worker and handlers work everything off while the call has the lock. */
  lemma Drains(b: Bus, t: nat) returns (c: Bus)
    requires b.dispatcher && b.running && b.writer.None? && NoReaders(b) && b.pipe.channelSize >= 1
    requires b.pipe.worker.Dead? ==> b.pipe.queue == []
    requires b.pipe.worker.Sending? ==> b.pipe.worker.pending <= b.pipe.inboxes.Keys
    requires t < |b.shutdowns| && b.shutdowns[t].NotCalled?
    ensures Leads(b, c) && Onward(b.pipe, c.pipe) && Quiet(c.pipe)
    ensures forall id :: id in c.pipe.inboxes ==> Ended(c.pipe.inboxes[id])
    ensures c == Going(b, t, Collecting(b.open, {}))
      .(pipe := c.pipe, stage := Draining, dispatcher := false, running := false)
  {
    hide Leads, Run, ActsTo;
    var b1 := Going(b, t, Begun).(stage := Draining);
    var b2 := Going(b1, t, Emptying).(dispatcher := false, writer := Some(t));
    BeginsAndTakes(b, t);
    var b3 := WorksQueueOff(b2);
    var b4 := EmptyAll(b3, b3.pipe.inboxes.Keys);
    var b5 := Going(b4, t, Emptied).(writer := None, running := false);
    c := Going(b5, t, Collecting(b.open, {}));
    DoneAndCollects(b4, t);
    LeadsNowhere(c);
    LeadsBy(b5, Collect(t), c, c);
    LeadsBy(b4, WorkerDone(t), b5, c);
    LeadsOn(b3, b4, c);
    LeadsOn(b2, b3, c);
    LeadsBy(b1, TakeDispatcher(t), b2, c);
    LeadsBy(b, BeginGraceful(t), b1, c);
  }

  /** From emptied to returned: every task has ended, and the call has waited for them all. */
  lemma Ends(b: Bus, t: nat) returns (c: Bus)
    requires t < |b.shutdowns| && b.shutdowns[t] == Collecting(b.open, {}) && b.open == b.pipe.inboxes.Keys
    requires forall id :: id in b.pipe.inboxes ==> Ended(b.pipe.inboxes[id])
    ensures Leads(b, c)
    ensures c.pipe == b.pipe && c.open == {} && c.stage.Stopped? && c.shutdowns == b.shutdowns[t := Returned(b.open)]
  {
    hide Leads, Run, ActsTo, Ended;
    var b1 := RemovesAll(b, t);
    assert {} + b.open == b.open;
    var b2 := Going(b1, t, Awaiting(b.open));
    var b3 := TasksEnd(b2, b.open);
    c := Going(b3, t, Returned(b.open)).(stage := Stopped);
    AwaitFollows(b1, t);
    ReturnFollows(b3, t);
    LeadsNowhere(c);
    LeadsBy(b3, Return(t), c, c);
    LeadsOn(b2, b3, c);
    LeadsBy(b1, Await(t), b2, c);
    LeadsOn(b, b1, c);
  }

  // ---------- Every running bus can be shut down ----------

  /** A dead worker has nothing queued. */
  lemma {:induction false} DeadIsEmpty(buses: seq<Bus>, actions: seq<Action>, i: nat)
    requires Run(buses, actions) && Fresh(buses[0]) && i < |buses|
    ensures buses[i].pipe.worker.Dead? ==> buses[i].pipe.queue == []
  {
    hide CanAct, After;
    if i > 0 {
      DeadIsEmpty(buses, actions, i - 1);
      assert ActsTo(buses[i - 1], actions[i - 1], buses[i]);
      DeadStep(buses[i - 1], actions[i - 1]);
    }
  }

  lemma DeadStep(b: Bus, a: Action)
    requires CanAct(b, a) && (b.pipe.worker.Dead? ==> b.pipe.queue == [])
    ensures After(b, a).pipe.worker.Dead? ==> After(b, a).pipe.queue == []
  {
    hide CanMove, Moved;
    match a
    case Submit(_, m) => DeadMove(b.pipe, m);
    case Work(m) => DeadMove(b.pipe, m);
    case AbortTask(_, id) =>
      CanAbort(b.pipe, id);
      DeadMove(b.pipe, Abort(id));
    case _ =>
  }

  lemma DeadMove(p: Pipe, m: Move)
    requires CanMove(p, m) && (p.worker.Dead? ==> p.queue == [])
    ensures Moved(p, m).worker.Dead? ==> Moved(p, m).queue == []
  {
  }

  lemma RunningIs(b: Bus)
    requires Inv(b) && b.stage.Running?
    ensures b.dispatcher && b.running && b.writer.None? && b.open == b.pipe.inboxes.Keys
    ensures forall t :: 0 <= t < |b.shutdowns| ==> b.shutdowns[t].NotCalled?
    ensures b.pipe.worker.Sending? ==> b.pipe.worker.pending <= b.pipe.inboxes.Keys
  {
  }

  lemma LeadsInv(b: Bus, c: Bus)
    requires Leads(b, c) && Inv(b)
    ensures Flowing(c.pipe)
  {
    hide Inv, ActsTo;
    var buses, actions :| Goes(buses, actions, b, c);
    RunInv(buses, actions, |actions|);
    FlowOf(c);
  }

  lemma FlowOf(b: Bus)
    requires Inv(b)
    ensures Flowing(b.pipe)
  {
  }

  lemma {:induction false} RunInv(buses: seq<Bus>, actions: seq<Action>, i: nat)
    requires Run(buses, actions) && Inv(buses[0]) && i < |buses|
    ensures Inv(buses[i])
  {
    hide Inv, CanAct, After;
    if i > 0 {
      RunInv(buses, actions, i - 1);
      assert ActsTo(buses[i - 1], actions[i - 1], buses[i]);
      ActKeeps(buses[i - 1], actions[i - 1]);
    }
  }

  /** From every state of a run in which the bus is running and no publisher has the lock, a graceful
      shutdown can go through. It ends stopped, with no subscription left and every accepted event handled
      by every subscription it is routed to, in order, less what was lost already; and if no task was
      cancelled or dead, nothing more is lost. */
  lemma GracefulGoesThrough(buses: seq<Bus>, actions: seq<Action>, i: nat, t: nat) returns (c: Bus)
    requires Run(buses, actions) && Fresh(buses[0]) && i < |buses|
    requires buses[i].stage.Running? && NoReaders(buses[i]) && buses[i].pipe.channelSize >= 1
    requires t < |buses[i].shutdowns|
    ensures Leads(buses[i], c)
    ensures c.shutdowns == buses[i].shutdowns[t := Returned(buses[i].open)] && c.stage.Stopped? && c.open == {}
    ensures c.pipe.accepted == buses[i].pipe.accepted && Drained(c)
    ensures NoneClosed(buses[i].pipe) ==> c.pipe.lost == buses[i].pipe.lost
  {
    hide Leads, Run, NoneClosed, Inv, Flowing, Expected;
    var b := buses[i];
    DeadIsEmpty(buses, actions, i);
    Reachable(buses, actions, i);
    RunningIs(b);
    var b1 := Drains(b, t);
    c := Ends(b1, t);
    LeadsOn(b, b1, c);
    LeadsInv(b, c);
    forall id | id in c.pipe.inboxes ensures c.pipe.inboxes[id].done == Expected(c.pipe, id) {
      DoneMeansEnded(c.pipe, id);
    }
  }
}
