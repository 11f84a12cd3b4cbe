/** The bus as one caller sees it: publishing through the stages of a shutdown. How publishers and
    shutdown calls interleave is the subject of `BusProtocol`. */
module EventBuses {
  import opened Events
  import opened Seqs
  import opened TopicTries
  import opened Registries
  import opened Subscriptions
  import opened Dispatchers
  import opened OutboxTables
  import opened BusProtocol

  class EventBus {
    const manager: SubscriptionManager
    var stage: Stage
    var dispatcher: ChannelDispatcher?

    ghost predicate Valid()
      reads this, dispatcher, manager, manager.registry, manager.registry.Repr()
    {
      && manager.registry.Valid()
      && (dispatcher != null ==> dispatcher.Valid() && dispatcher.manager == manager)
      && (stage.Running? ==> dispatcher != null)
    }

    constructor (manager: SubscriptionManager, dispatcher: ChannelDispatcher)
      requires manager.registry.Valid() && dispatcher.Valid() && dispatcher.manager == manager
      ensures Valid() && stage.Running? && this.dispatcher == dispatcher && this.manager == manager
    {
      this.manager, this.stage, this.dispatcher := manager, Running, dispatcher;
    }

    /** Publishing reaches the dispatcher only in the running state. Success means that the event is in
        the queue, asleep until its time, or counted as an error because a full queue dropped it. */
    method PublishWithMetadata(e: Envelope, now: Nanos) returns (answer: Answer)
      requires Valid()
      modifies dispatcher
      ensures !stage.Running? ==> answer == ShuttingDown && (dispatcher != null ==> unchanged(dispatcher))
      ensures stage.Running? ==> dispatcher.Valid()
      ensures stage.Running? ==>
        var future := e.metadata.deliverAt.Some? && e.metadata.deliverAt.value > now;
        var room := |old(dispatcher.queue)| < dispatcher.queueSize;
        answer == if !dispatcher.isRunning then NotRunning
                  else if future then Answer.Ok
                  else if !dispatcher.sender then ShuttingDown
                  else if room || dispatcher.dropOnFull then Answer.Ok
                  else Waits
      ensures stage.Running? && answer == Answer.Ok ==>
        var room := |old(dispatcher.queue)| < dispatcher.queueSize;
        if IsScheduled(e, now) then
          dispatcher.sleeping == old(dispatcher.sleeping) + [e] && dispatcher.queue == old(dispatcher.queue)
          && dispatcher.dispatchErrors == old(dispatcher.dispatchErrors)
        else
          dispatcher.sleeping == old(dispatcher.sleeping)
          && dispatcher.queue == old(dispatcher.queue) + (if room then [e] else [])
          && dispatcher.dispatchErrors == old(dispatcher.dispatchErrors) + (if room then 0 else 1)
          && (room || dispatcher.dropOnFull)
      ensures stage.Running? && answer != Answer.Ok ==>
        && dispatcher.queue == old(dispatcher.queue) && dispatcher.sleeping == old(dispatcher.sleeping)
        && dispatcher.dispatchErrors == old(dispatcher.dispatchErrors)
    {
      if !stage.Running? || dispatcher == null {
        return ShuttingDown;
      }
      answer := dispatcher.Dispatch(e, now);
    }

    method TryPublishWithMetadata(e: Envelope) returns (answer: Answer)
      requires Valid()
      modifies dispatcher
      ensures !stage.Running? ==> answer == ShuttingDown && (dispatcher != null ==> unchanged(dispatcher))
      ensures stage.Running? ==> dispatcher.Valid() && answer != Waits
      ensures stage.Running? ==> (answer == Answer.Ok <==>
        && dispatcher.isRunning && dispatcher.sender && e.metadata.deliverAt.None?
        && old(|dispatcher.queue|) < dispatcher.queueSize)
      ensures stage.Running? ==> dispatcher.queue == old(dispatcher.queue) + if answer == Answer.Ok then [e] else []
    {
      if !stage.Running? || dispatcher == null {
        return ShuttingDown;
      }
      answer := dispatcher.TryDispatch(e);
    }

    /** An abrupt shutdown: the dispatcher is taken out and stopped, unless its lock is not to be had in
        time, then all subscriptions end. */
    method Shutdown(lockInTime: bool)
      requires Valid()
      modifies this`stage, this`dispatcher, dispatcher, manager, manager.registry
      ensures Valid() && stage.Stopped? && dispatcher == if lockInTime then null else old(dispatcher)
      ensures manager.subscriptions == map[] && manager.registry.log == []
      ensures var d := old(dispatcher); d != null ==>
        && d.isRunning == (old(d.isRunning) && !lockInTime)
        && d.sender == (old(d.sender) && (old(d.isRunning) ==> !lockInTime))
    {
      hide DashMapRegistry.Valid;
      stage := Draining;
      if lockInTime && dispatcher != null {
        dispatcher.Stop();
        dispatcher := null;
      }
      manager.Shutdown();
      stage := Stopped;
    }

    /** A graceful shutdown: the sender is closed, the worker takes every queued event to all its
        recipients, and only then the subscriptions are taken out and their tasks awaited. In the end
        each task has handled, after what it had got before, the event the worker was sending to it and
        then the queued events routed to it, in order. */
    method ShutdownGracefully() returns (finished: map<SubId, SubscriptionData>)
      requires Valid()
      modifies this`stage, this`dispatcher, dispatcher, manager, manager.registry.Repr()
      ensures manager.registry.Valid() && stage.Stopped? && dispatcher == null
      ensures manager.subscriptions == map[] && finished.Keys == old(manager.subscriptions.Keys)
      ensures forall id :: id in finished ==>
        && finished[id].inbox == []
        && finished[id].handled == old(Got(manager.subscriptions[id]) + Remaining(dispatcher, manager, id))
    {
      hide DashMapRegistry.Valid, Recipient;
      TakeDispatcher();
      finished := manager.ShutdownGracefully();
      stage := Stopped;
    }

    /** What a dispatcher still has for a subscription: the event the worker waits to send, if it waits
        for this inbox, then what is queued. A dispatcher that was never started has no worker. */
    static ghost function Remaining(d: ChannelDispatcher?, manager: SubscriptionManager, id: SubId): seq<Envelope>
      reads d, manager, manager.registry
    {
      if d == null || !d.isRunning then []
      else
        Carried(d.sending, d.pending, id)
        + Filter(d.queue, To(manager.registry.log, manager.subscriptions.Keys, manager.passes, id))
    }

    method TakeDispatcher()
      requires manager.registry.Valid()
      requires dispatcher != null ==> dispatcher.Valid() && dispatcher.manager == manager
      modifies this`stage, this`dispatcher, dispatcher, manager
      ensures manager.registry.Valid() && manager.registry.Repr() == old(manager.registry.Repr()) && dispatcher == null
      ensures manager.subscriptions.Keys == old(manager.subscriptions.Keys)
      ensures forall id :: id in manager.subscriptions ==>
        Got(manager.subscriptions[id]) == old(Got(manager.subscriptions[id]) + Remaining(dispatcher, manager, id))
      ensures var d := old(dispatcher); d != null ==>
        && !d.sender && !d.isRunning
        && (old(d.isRunning) ==>
              d.queue == [] && d.accepted + d.rejected == d.eventsDispatched + d.dispatchErrors)
    {
      hide DashMapRegistry.Valid, Recipient;
      stage := Draining;
      if dispatcher != null {
        dispatcher.CloseSender();
        if dispatcher.isRunning {
          Drain(dispatcher);
          dispatcher.WorkerEnded();
        }
        dispatcher := null;
      }
    }

    /** The worker's loop after the sender was closed. */
    static method Drain(d: ChannelDispatcher)
      requires d.Valid() && d.manager.registry.Valid() && d.isRunning && !d.sender
      modifies d`queue, d`sending, d`pending, d`eventsDispatched, d`dispatchErrors, d.manager
      ensures d.Valid() && d.queue == [] && d.sending.None?
      ensures d.manager.registry.Valid() && d.manager.registry.Repr() == old(d.manager.registry.Repr())
      ensures d.manager.subscriptions.Keys == old(d.manager.subscriptions.Keys)
      ensures forall id :: id in d.manager.subscriptions ==>
        Got(d.manager.subscriptions[id]) == old(Got(d.manager.subscriptions[id]) + Remaining(d, d.manager, id))
    {
      ghost var before, sending, pending := d.manager.subscriptions, d.sending, d.pending;
      if d.sending.Some? {
        d.Resolve(false);
      }
      ghost var between := d.manager.subscriptions;
      DrainQueue(d);
      CarriedFirst(before, between, d.manager.subscriptions, d.manager.registry.log, d.manager.passes, sending, pending,
        old(d.queue));
    }

    static method DrainQueue(d: ChannelDispatcher)
      requires d.Valid() && d.manager.registry.Valid() && d.isRunning && d.sending.None?
      modifies d`queue, d`sending, d`pending, d`eventsDispatched, d`dispatchErrors, d.manager
      ensures d.Valid() && d.queue == [] && d.sending.None?
      ensures d.manager.registry.Valid() && d.manager.registry.Repr() == old(d.manager.registry.Repr())
      ensures d.manager.subscriptions.Keys == old(d.manager.subscriptions.Keys)
      ensures Delivered(old(d.manager.subscriptions), d.manager.subscriptions, d.manager.registry.log, d.manager.passes,
        old(d.queue))
    {
      ghost var base := d.manager.subscriptions;
      ghost var taken: seq<Envelope> := [];
      while d.queue != []
        invariant d.Valid() && d.sending.None? && d.manager.registry.Valid()
        invariant taken + d.queue == old(d.queue) && d.manager.subscriptions.Keys == base.Keys
        invariant Delivered(base, d.manager.subscriptions, d.manager.registry.log, d.manager.passes, taken)
        decreases |d.queue|
      {
        ghost var e, before := d.queue[0], d.manager.subscriptions;
        d.Turn();
        DeliveredStep(base, before, d.manager.subscriptions, d.manager.registry.log, d.manager.passes, taken, e);
        taken := taken + [e];
      }
      assert taken == old(d.queue);
    }
  }

  /** Each subscription has got the events routed to it, in order, after what it had. */
  ghost predicate Delivered(base: map<SubId, SubscriptionData>, now: map<SubId, SubscriptionData>,
      log: seq<Registration>, passes: (FilterId, Envelope) -> bool, events: seq<Envelope>)
  {
    forall id :: id in base ==>
      id in now && Got(now[id]) == Got(base[id]) + Filter(events, To(log, base.Keys, passes, id))
  }

  function Carried(sending: Option<Envelope>, pending: seq<SubId>, id: SubId): seq<Envelope> {
    if sending.Some? && id in pending then [sending.value] else []
  }

  lemma CarriedFirst(before: map<SubId, SubscriptionData>, between: map<SubId, SubscriptionData>,
      after: map<SubId, SubscriptionData>, log: seq<Registration>, passes: (FilterId, Envelope) -> bool,
      sending: Option<Envelope>, pending: seq<SubId>, queue: seq<Envelope>)
    requires before.Keys == between.Keys && Delivered(between, after, log, passes, queue)
    requires forall id :: id in before ==> Got(between[id]) == Got(before[id]) + Carried(sending, pending, id)
    ensures forall id :: id in before ==> id in after
    ensures forall id :: id in before ==>
      Got(after[id])
        == Got(before[id]) + (Carried(sending, pending, id) + Filter(queue, To(log, before.Keys, passes, id)))
  {
  }

  lemma DeliveredStep(base: map<SubId, SubscriptionData>, before: map<SubId, SubscriptionData>,
      after: map<SubId, SubscriptionData>, log: seq<Registration>, passes: (FilterId, Envelope) -> bool,
      events: seq<Envelope>, e: Envelope)
    requires Delivered(base, before, log, passes, events) && after.Keys == before.Keys == base.Keys
    requires forall id :: id in after ==>
      Got(after[id]) == Got(before[id]) + (if Recipient(log, base.Keys, passes, e, id) then [e] else [])
    ensures Delivered(base, after, log, passes, events + [e])
  {
    forall id | id in base
      ensures Got(after[id]) == Got(base[id]) + Filter(events + [e], To(log, base.Keys, passes, id))
    {
      FilterPush(events, e, To(log, base.Keys, passes, id));
    }
  }

  /** The events routed to a subscription. */
  ghost function To(log: seq<Registration>, live: set<SubId>, passes: (FilterId, Envelope) -> bool, id: SubId)
    : Envelope -> bool
  {
    (e: Envelope) => Recipient(log, live, passes, e, id)
  }
}
