/** The in-memory dispatcher: a bounded queue in front of the subscriptions, with its flags and counters. */
module Dispatchers {
  import opened Events
  import opened TopicTries
  import opened Subscriptions

  datatype Answer =
    | Ok
    | Waits
    | NotRunning
    | AlreadyRunning
    | AlreadyStarted
    | ShuttingDown
    | Backpressure

  class ChannelDispatcher {
    const manager: SubscriptionManager
    const queueSize: nat
    const dropOnFull: bool
    // Whether the sender is still there, the receiver not yet with the worker, and the running flag.
    var sender: bool
    var receiver: bool
    var isRunning: bool
    var queue: seq<Envelope>
    // The event the worker is sending, and the full inboxes it waits for.
    var sending: Option<Envelope>
    var pending: seq<SubId>
    var sleeping: seq<Envelope>
    var eventsDispatched: nat
    var dispatchErrors: nat
    var maxQueueSize: nat
    // What the callers were told: submissions answered with success, and those a full queue rejected.
    ghost var accepted: nat
    ghost var rejected: nat

    ghost predicate Valid()
      reads this
    {
      && |queue| <= queueSize
      && (sending.None? ==> pending == [])
      && (forall j, k :: 0 <= j < k < |pending| ==> pending[j] != pending[k])
      && accepted + rejected == eventsDispatched + dispatchErrors + |queue| + if sending.Some? then 1 else 0
    }

    constructor (manager: SubscriptionManager, queueSize: nat, dropOnFull: bool)
      ensures Valid() && this.manager == manager && this.queueSize == queueSize && this.dropOnFull == dropOnFull
      ensures sender && receiver && !isRunning && queue == [] && sending.None? && sleeping == []
      ensures eventsDispatched == dispatchErrors == maxQueueSize == accepted == rejected == 0
    {
      this.manager, this.queueSize, this.dropOnFull := manager, queueSize, dropOnFull;
      sender, receiver, isRunning, queue, sending, pending, sleeping := true, true, false, [], None, [], [];
      eventsDispatched, dispatchErrors, maxQueueSize, accepted, rejected := 0, 0, 0, 0, 0;
    }

    /** Hands the receiver to the worker, which can happen once only. */
    method Start() returns (answer: Answer)
      requires Valid()
      modifies this`receiver, this`isRunning
      ensures Valid()
      ensures answer == if old(isRunning) then AlreadyRunning else if old(receiver) then Ok else AlreadyStarted
      ensures answer == Ok ==> isRunning && !receiver
      ensures answer != Ok ==> isRunning == old(isRunning) && receiver == old(receiver)
    {
      if isRunning {
        return AlreadyRunning;
      }
      if !receiver {
        return AlreadyStarted;
      }
      receiver, isRunning := false, true;
      answer := Ok;
    }

    /** Raises the high-water mark to the length the queue has before the submission. */
    method NoteQueueSize()
      requires Valid()
      modifies this`maxQueueSize
      ensures maxQueueSize == if |queue| > old(maxQueueSize) then |queue| else old(maxQueueSize)
    {
      if |queue| > maxQueueSize {
        maxQueueSize := |queue|;
      }
    }

    /** Queues an event. A future event is put to sleep instead, with success whether or not the
        dispatcher is closed. A full queue makes the caller wait, or drops the event, counts an error
        and still answers with success. */
    method Dispatch(e: Envelope, now: Nanos) returns (answer: Answer)
      requires Valid()
      modifies this`queue, this`sleeping, this`dispatchErrors, this`maxQueueSize, this`accepted
      ensures Valid()
      ensures var future := e.metadata.deliverAt.Some? && e.metadata.deliverAt.value > now;
        var room := |old(queue)| < queueSize;
        && answer == (if !isRunning then NotRunning else if future then Ok else if !sender then ShuttingDown
                      else if room || dropOnFull then Ok else Waits)
        && queue == old(queue) + (if answer == Ok && !future && room then [e] else [])
        && sleeping == old(sleeping) + (if answer == Ok && future then [e] else [])
        && accepted == old(accepted) + (if answer == Ok && !future then 1 else 0)
        && dispatchErrors == old(dispatchErrors) + (if answer == Ok && !future && !room then 1 else 0)
        && maxQueueSize == (if isRunning && !future && sender && |old(queue)| > old(maxQueueSize) then |old(queue)|
                            else old(maxQueueSize))
    {
      if !isRunning {
        return NotRunning;
      }
      if e.metadata.deliverAt.Some? && e.metadata.deliverAt.value > now {
        sleeping := sleeping + [e];
        return Ok;
      }
      if !sender {
        return ShuttingDown;
      }
      NoteQueueSize();
      if |queue| < queueSize {
        queue := queue + [e];
        accepted := accepted + 1;
        answer := Ok;
      } else if dropOnFull {
        dispatchErrors := dispatchErrors + 1;
        accepted := accepted + 1;
        answer := Ok;
      } else {
        answer := Waits;
      }
    }

    /** Queues an event without waiting. Anything with a delivery time is turned away as backpressure,
        room or no room, and without counting an error. */
    method TryDispatch(e: Envelope) returns (answer: Answer)
      requires Valid()
      modifies this`queue, this`dispatchErrors, this`maxQueueSize, this`accepted, this`rejected
      ensures Valid()
      ensures var timed := e.metadata.deliverAt.Some?; var room := |old(queue)| < queueSize;
        && answer == (if !isRunning then NotRunning else if timed then Backpressure else if !sender then ShuttingDown
                      else if room then Ok else Backpressure)
        && queue == old(queue) + (if answer == Ok then [e] else [])
        && accepted == old(accepted) + (if answer == Ok then 1 else 0)
        && rejected == old(rejected) + (if answer == Backpressure && !timed then 1 else 0)
        && dispatchErrors == old(dispatchErrors) + (if answer == Backpressure && !timed then 1 else 0)
        && maxQueueSize == (if isRunning && !timed && sender && |old(queue)| > old(maxQueueSize) then |old(queue)|
                            else old(maxQueueSize))
    {
      if !isRunning {
        return NotRunning;
      }
      if e.metadata.deliverAt.Some? {
        return Backpressure;
      }
      if !sender {
        return ShuttingDown;
      }
      NoteQueueSize();
      if |queue| < queueSize {
        queue := queue + [e];
        accepted := accepted + 1;
        answer := Ok;
      } else {
        dispatchErrors := dispatchErrors + 1;
        rejected := rejected + 1;
        answer := Backpressure;
      }
    }

    /** One turn of the worker: the event goes to every recipient with room. Unless all had room, the
        worker goes on waiting for the others, and `Resolve` ends the turn. A worker that finds the
        flag cleared ends, and the queue with it. */
    method ProcessNext() returns (goesOn: bool)
      requires Valid() && manager.registry.Valid() && queue != [] && sending.None?
      modifies this`queue, this`sending, this`pending, this`eventsDispatched, manager
      ensures goesOn == old(isRunning)
      ensures manager.subscriptions.Keys == old(manager.subscriptions.Keys)
      ensures goesOn ==> Valid() && queue == old(queue[1..])
      ensures goesOn ==> forall id :: id in manager.subscriptions ==>
        var before := old(manager.subscriptions[id]);
        manager.subscriptions[id] == before.(inbox := before.inbox +
          (if old(Reaches(queue[0], id) && HasRoom(id)) then [old(queue[0])] else []))
      ensures goesOn ==> forall id :: id in pending <==> old(Reaches(queue[0], id) && !HasRoom(id))
      ensures goesOn ==> sending == if pending == [] then None else Some(old(queue[0]))
      ensures goesOn ==> eventsDispatched == old(eventsDispatched) + if pending == [] then 1 else 0
      ensures !goesOn ==> queue == [] && manager.subscriptions == old(manager.subscriptions)
      ensures !goesOn ==> eventsDispatched == old(eventsDispatched)
    {
      var e := queue[0];
      if !isRunning {
        queue := [];
        return false;
      }
      goesOn := true;
      queue := queue[1..];
      pending := manager.Dispatch(e);
      if pending == [] {
        eventsDispatched := eventsDispatched + 1;
      } else {
        sending := Some(e);
      }
    }

    ghost predicate Reaches(e: Envelope, id: SubId)
      reads manager, manager.registry
    {
      Recipient(manager.registry.log, manager.subscriptions.Keys, manager.passes, e, id)
    }

    predicate HasRoom(id: SubId)
      reads manager
    {
      id in manager.subscriptions && |manager.subscriptions[id].inbox| < manager.channelSize
    }

    /** The end of a turn that had to wait: the blocked sends go through one by one as the handlers make
        room, or the time allowed for the dispatch is over and they are given up. */
    method Resolve(timedOut: bool)
      requires Valid() && sending.Some?
      modifies this`sending, this`pending, this`eventsDispatched, this`dispatchErrors, manager
      ensures Valid() && sending.None?
      ensures eventsDispatched == old(eventsDispatched) + (if timedOut then 0 else 1)
      ensures dispatchErrors == old(dispatchErrors) + (if timedOut then 1 else 0)
      ensures manager.subscriptions.Keys == old(manager.subscriptions.Keys)
      ensures forall id :: id in manager.subscriptions ==>
        Got(manager.subscriptions[id]) == old(Got(manager.subscriptions[id])) +
          (if !timedOut && id in old(pending) then [old(sending).value] else [])
    {
      if timedOut {
        dispatchErrors := dispatchErrors + 1;
      } else {
        DeliverPending(sending.value);
        eventsDispatched := eventsDispatched + 1;
      }
      sending, pending := None, [];
    }

    method DeliverPending(e: Envelope)
      requires forall j, k :: 0 <= j < k < |pending| ==> pending[j] != pending[k]
      modifies manager
      ensures manager.subscriptions.Keys == old(manager.subscriptions.Keys)
      ensures forall id :: id in manager.subscriptions ==>
        Got(manager.subscriptions[id]) == old(Got(manager.subscriptions[id])) + (if id in pending then [e] else [])
    {
      for k := 0 to |pending|
        invariant manager.subscriptions.Keys == old(manager.subscriptions.Keys)
        invariant forall id :: id in manager.subscriptions ==>
          Got(manager.subscriptions[id])
            == old(Got(manager.subscriptions[id])) + (if id in pending[..k] then [e] else [])
      {
        assert pending[..k + 1] == pending[..k] + [pending[k]] && pending[k] !in pending[..k];
        manager.Deliver(pending[k], e);
      }
      assert pending[..|pending|] == pending;
    }

    /** A whole turn without a timeout: every recipient gets the event, once, and nobody else does. */
    method Turn()
      requires Valid() && manager.registry.Valid() && queue != [] && sending.None? && isRunning
      modifies this`queue, this`sending, this`pending, this`eventsDispatched, this`dispatchErrors, manager
      ensures Valid() && sending.None? && queue == old(queue[1..])
      ensures eventsDispatched == old(eventsDispatched) + 1 && dispatchErrors == old(dispatchErrors)
      ensures manager.subscriptions.Keys == old(manager.subscriptions.Keys)
      ensures forall id :: id in manager.subscriptions ==>
        Got(manager.subscriptions[id]) == old(Got(manager.subscriptions[id])) +
          (if old(Reaches(queue[0], id)) then [old(queue[0])] else [])
    {
      ghost var e := queue[0];
      ghost var before := manager.subscriptions;
      ghost var reached := iset id | Reaches(e, id);
      ghost var roomy := iset id | HasRoom(id);
      var _ := ProcessNext();
      ghost var between := manager.subscriptions;
      assert forall id :: id in pending <==> id in reached && id !in roomy;
      if sending.Some? {
        Resolve(false);
      }
      forall id | id in before
        ensures Got(manager.subscriptions[id]) == Got(before[id]) + (if id in reached then [e] else [])
      {
        GotOnce(before[id], between[id], manager.subscriptions[id], e, id in reached, id in roomy);
      }
    }

    static lemma GotOnce(before: SubscriptionData, between: SubscriptionData, after: SubscriptionData, e: Envelope,
        reached: bool, room: bool)
      requires between == before.(inbox := before.inbox + (if reached && room then [e] else []))
      requires Got(after) == Got(between) + (if reached && !room then [e] else [])
      ensures Got(after) == Got(before) + if reached then [e] else []
    {
    }

    /** An abrupt stop clears the flag and closes the sender. It does nothing when not running. */
    method Stop()
      requires Valid()
      modifies this`isRunning, this`sender
      ensures Valid() && !isRunning
      ensures sender == (old(sender) && !old(isRunning))
    {
      if !isRunning {
        return;
      }
      isRunning := false;
      sender := false;
    }

    /** A graceful shutdown closes the sender first and leaves the flag to the worker until the queue
        is empty. */
    method CloseSender()
      requires Valid()
      modifies this`sender
      ensures Valid() && !sender
    {
      sender := false;
    }

    method WorkerEnded()
      requires Valid() && !sender && queue == [] && sending.None?
      modifies this`isRunning
      ensures Valid() && !isRunning
      ensures accepted + rejected == eventsDispatched + dispatchErrors
    {
      isRunning := false;
    }
  }
}
