/** The bus: any number of publishers and shutdown calls around one pipeline. Publishers check the
    state, take the read lock, check again and enqueue under the lock. A graceful shutdown stores
    Draining, takes the dispatcher under the write lock and keeps the lock until the worker is
    through, then takes the subscriptions out, waits for their tasks and stores Stopped. */
module BusProtocol {
  import opened Events
  import opened TopicTries
  import opened Pipelines

  datatype Stage = Running | Draining | Stopped

  datatype Publisher = Idle | Checked(e: Envelope) | Locked(e: Envelope) | Admitted(e: Envelope)

  datatype Shutdown =
    | NotCalled
    | Begun
    | Emptying
    | Emptied
    | Collecting(snapshot: set<SubId>, handles: set<SubId>)
    | Awaiting(handles: set<SubId>)
    | Returned(handles: set<SubId>)
    | Abrupt
    | AbruptStopped
    | AbruptReturned

  datatype Bus = Bus(
    pipe: Pipe,
    stage: Stage,
    // The dispatcher is still in its slot, its running flag, and the shutdown call with the write lock.
    dispatcher: bool,
    running: bool,
    writer: Option<nat>,
    publishers: seq<Publisher>,
    shutdowns: seq<Shutdown>,
    // Subscriptions still in the manager's map, and tasks that have ended.
    open: set<SubId>,
    ended: set<SubId>,
    abrupt: bool)

  datatype Action =
    | Check(p: nat, e: Envelope)
    | Lock(p: nat)
    | Recheck(p: nat)
    | Submit(p: nat, m: Move)
    | Work(m: Move)
    | EndTask(id: SubId)
    | BeginGraceful(t: nat)
    | TakeDispatcher(t: nat)
    | WorkerDone(t: nat)
    | Collect(t: nat)
    | Remove(t: nat, id: SubId)
    | Await(t: nat)
    | Return(t: nat)
    | BeginAbrupt(t: nat)
    | StopDispatcher(t: nat)
    | LockTimeout(t: nat)
    | AbortTask(t: nat, id: SubId)
    | AbruptReturn(t: nat)

  function Open(pipe: Pipe, publishers: nat, shutdowns: nat): Bus {
    Bus(pipe, Running, true, true, None, seq(publishers, _ => Idle), seq(shutdowns, _ => NotCalled),
      pipe.inboxes.Keys, {}, false)
  }

  /** The publisher is inside the read lock. */
  predicate Reading(p: Publisher) { p.Locked? || p.Admitted? }

  predicate NoReaders(b: Bus) { forall p :: 0 <= p < |b.publishers| ==> !Reading(b.publishers[p]) }

  /** What becomes of an event handed to the dispatcher: queued, turned away by a full queue, or refused
      because the worker is dead. */
  predicate Submission(e: Envelope, m: Move) { m == Accept(e) || m == DropFull || m == RejectFull || m == Refuse }

  /** What worker and handlers do by themselves. The worker can die, by a panic of a filter, and so can a
      handler's task, by a panic of the handler or of the arithmetic of its backoff: that is an `Abort`
      nobody asked for. */
  predicate Working(m: Move) {
    m.Take? || m.Die? || m.Send? || m.Complete? || m.Timeout? || m.Receive? || m.Finish? || m.Abort?
  }

  ghost predicate CanAct(b: Bus, a: Action) {
    match a
    case Check(p, _) => p < |b.publishers| && b.publishers[p].Idle?
    case Lock(p) => p < |b.publishers| && b.publishers[p].Checked? && b.writer.None?
    case Recheck(p) => p < |b.publishers| && b.publishers[p].Locked?
    case Submit(p, m) =>
      p < |b.publishers| && b.publishers[p].Admitted? && Submission(b.publishers[p].e, m) && CanMove(b.pipe, m)
    case Work(m) =>
      CanMove(b.pipe, m) && ((Working(m) && (m.Take? || m.Die? ==> b.running)) || (m == Halt && !b.running))
    case EndTask(id) => id in b.pipe.inboxes && id !in b.open && Ended(b.pipe.inboxes[id])
    case BeginGraceful(t) => t < |b.shutdowns| && b.shutdowns[t].NotCalled?
    case TakeDispatcher(t) => t < |b.shutdowns| && b.shutdowns[t].Begun? && b.writer.None? && NoReaders(b)
    case WorkerDone(t) => t < |b.shutdowns| && b.shutdowns[t].Emptying? && Quiet(b.pipe)
    case Collect(t) => t < |b.shutdowns| && b.shutdowns[t].Emptied?
    case Remove(t, id) => t < |b.shutdowns| && b.shutdowns[t].Collecting? && id in b.shutdowns[t].snapshot
    case Await(t) => t < |b.shutdowns| && b.shutdowns[t].Collecting? && b.shutdowns[t].snapshot == {}
    case Return(t) => t < |b.shutdowns| && b.shutdowns[t].Awaiting? && b.shutdowns[t].handles <= b.ended
    case BeginAbrupt(t) => t < |b.shutdowns| && b.shutdowns[t].NotCalled?
    case StopDispatcher(t) => t < |b.shutdowns| && b.shutdowns[t].Abrupt? && b.writer.None? && NoReaders(b)
    case LockTimeout(t) => t < |b.shutdowns| && b.shutdowns[t].Abrupt?
    case AbortTask(t, id) => t < |b.shutdowns| && b.shutdowns[t].AbruptStopped? && id in b.pipe.inboxes
    case AbruptReturn(t) => t < |b.shutdowns| && b.shutdowns[t].AbruptStopped? && b.open <= b.ended
  }

  function Publishing(b: Bus, p: nat, to: Publisher): Bus
    requires p < |b.publishers|
  {
    b.(publishers := b.publishers[p := to])
  }

  function Going(b: Bus, t: nat, to: Shutdown): Bus
    requires t < |b.shutdowns|
  {
    b.(shutdowns := b.shutdowns[t := to])
  }

  /** A publisher that is refused goes back to where it started. */
  ghost function After(b: Bus, a: Action): Bus
    requires CanAct(b, a)
  {
    match a
    case Check(p, e) => if b.stage.Running? then Publishing(b, p, Checked(e)) else b
    case Lock(p) => Publishing(b, p, if b.dispatcher then Locked(b.publishers[p].e) else Idle)
    case Recheck(p) => Publishing(b, p, if b.stage.Running? then Admitted(b.publishers[p].e) else Idle)
    case Submit(p, m) => Publishing(b, p, Idle).(pipe := Moved(b.pipe, m))
    case Work(m) => b.(pipe := Moved(b.pipe, m))
    case EndTask(id) => b.(ended := b.ended + {id})
    case BeginGraceful(t) => Going(b, t, Begun).(stage := Draining)
    case TakeDispatcher(t) =>
      if b.dispatcher then Going(b, t, Emptying).(dispatcher := false, writer := Some(t)) else Going(b, t, Emptied)
    case WorkerDone(t) => Going(b, t, Emptied).(writer := None, running := false)
    case Collect(t) => Going(b, t, Collecting(b.open, {}))
    case Remove(t, id) => RemoveOne(b, t, id)
    case Await(t) => Going(b, t, Awaiting(b.shutdowns[t].handles))
    case Return(t) => Going(b, t, Returned(b.shutdowns[t].handles)).(stage := Stopped)
    case BeginAbrupt(t) => Going(b, t, Abrupt).(stage := Draining, abrupt := true)
    case StopDispatcher(t) =>
      Going(b, t, AbruptStopped).(dispatcher := false, running := b.running && !b.dispatcher)
    case LockTimeout(t) => Going(b, t, AbruptStopped)
    case AbortTask(_, id) => b.(pipe := Moved(b.pipe, Abort(id)), ended := b.ended + {id})
    case AbruptReturn(t) => Going(b, t, AbruptReturned).(open := {}, stage := Stopped)
  }

  /** Takes a subscription out of the map, unless another call was faster. */
  function RemoveOne(b: Bus, t: nat, id: SubId): Bus
    requires t < |b.shutdowns| && b.shutdowns[t].Collecting?
  {
    var s := b.shutdowns[t];
    Going(b, t, Collecting(s.snapshot - {id}, if id in b.open then s.handles + {id} else s.handles))
      .(open := b.open - {id})
  }

  // ---------- The invariant ----------

  /** Inside the read lock the dispatcher is in its slot, and the lock excludes readers and writer. */
  ghost predicate Excluded(b: Bus) {
    && (b.writer.Some? ==>
          && !b.dispatcher && NoReaders(b)
          && b.writer.value < |b.shutdowns| && b.shutdowns[b.writer.value].Emptying?)
    && (forall t :: 0 <= t < |b.shutdowns| && b.shutdowns[t].Emptying? ==> b.writer == Some(t))
    && (!b.dispatcher ==> NoReaders(b))
  }

  /** Once a shutdown was called, the bus is not running; until then the dispatcher is there. */
  ghost predicate Staged(b: Bus) {
    (b.stage.Running? ==> b.dispatcher && !b.abrupt && forall t :: 0 <= t < |b.shutdowns| ==> b.shutdowns[t].NotCalled?)
  }

  /** The call has the tasks of these subscriptions to wait for. */
  predicate Holds(s: Shutdown, id: SubId) {
    (s.Collecting? || s.Awaiting? || s.Returned?) && id in s.handles
  }

  ghost predicate HeldBySome(b: Bus, id: SubId) {
    exists t :: 0 <= t < |b.shutdowns| && Holds(b.shutdowns[t], id)
  }

  predicate Past(s: Shutdown) { s.Emptied? || s.Collecting? || s.Awaiting? || s.Returned? }

  /** Without an abrupt shutdown, the steps of the graceful ones come in order. */
  ghost predicate Orderly(b: Bus) {
    && (b.dispatcher || b.writer.Some? ==> b.running)
    && (!b.dispatcher && b.writer.None? ==> Quiet(b.pipe))
    && (forall t :: 0 <= t < |b.shutdowns| ==> GoesWith(b, b.shutdowns[t]))
    && (forall id :: id in b.pipe.inboxes && id !in b.open ==> HeldBySome(b, id))
    && (b.dispatcher || b.writer.Some? ==> b.open == b.pipe.inboxes.Keys && b.ended == {})
    && (forall id :: id in b.ended ==> id in b.pipe.inboxes && id !in b.open && Ended(b.pipe.inboxes[id]))
  }

  ghost predicate GoesWith(b: Bus, s: Shutdown) {
    && (Past(s) ==> !b.dispatcher && b.writer.None?)
    && (s.Collecting? ==> b.open <= s.snapshot)
    && (s.Awaiting? ==> b.open == {})
    && (s.Returned? ==> b.open == {} && s.handles <= b.ended)
    && !s.Abrupt? && !s.AbruptStopped? && !s.AbruptReturned?
  }

  ghost predicate Inv(b: Bus) {
    Flowing(b.pipe) && Excluded(b) && Staged(b) && (!b.abrupt ==> Orderly(b))
  }
}
