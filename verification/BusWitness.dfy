/** A run of the bus from its start in which overlapping shutdowns store Stopped too early. */
module BusWitness {
  import opened Events
  import opened TopicTries
  import opened Registries
  import opened Subscriptions
  import opened Pipelines
  import opened BusProtocol
  import opened BusRuns

  const ONLY: SubId := 1

  function Event(): Envelope { Envelope(0, "greeting", Metadata(0, None, None, None), []) }

  /** One subscription, by type, without filter. */
  function OneSubscriber(): Net {
    Net([Registration(0, SubscriptionEntry(ONLY, "", true, None, None))], {ONLY}, (f: FilterId, e: Envelope) => true)
  }

  /** One publisher and two shutdown calls to come. */
  ghost function Beginning(): Bus { Open(Start(OneSubscriber(), 1, 1), 1, 2) }

  function Publishes(): seq<Action> { [Check(0, Event()), Lock(0), Recheck(0), Submit(0, Accept(Event()))] }
  function Delivers(): seq<Action> { [Work(Take), Work(Send(ONLY)), Work(Complete)] }
  function ShutsDown(): seq<Action> {
    [BeginGraceful(0), TakeDispatcher(0), WorkerDone(0), Collect(0), Remove(0, ONLY), Await(0)]
  }

  lemma Routes()
    ensures Recipient(OneSubscriber().log, {ONLY}, OneSubscriber().passes, Event(), ONLY)
  {
    assert Wants(OneSubscriber().log[0], Event());
  }

  lemma PublishRun() returns (buses: seq<Bus>)
    ensures Run(buses, Publishes()) && buses[0] == Beginning()
    ensures buses[4] == Beginning().(pipe := Accepted(Beginning().pipe, Event()))
  {
    var b0, as0 := Beginning(), Publishes();
    var b1 := After(b0, as0[0]);
    var b2 := After(b1, as0[1]);
    var b3 := After(b2, as0[2]);
    var b4 := After(b3, as0[3]);
    buses := [b0, b1, b2, b3, b4];
    assert ActsTo(b0, as0[0], b1) && ActsTo(b1, as0[1], b2) && ActsTo(b2, as0[2], b3) && ActsTo(b3, as0[3], b4);
  }

  lemma DeliverRun(b: Bus) returns (buses: seq<Bus>)
    requires b == Beginning().(pipe := Accepted(Beginning().pipe, Event()))
    ensures Run(buses, Delivers()) && buses[0] == b
    ensures buses[3] == b.(pipe := buses[3].pipe) && Quiet(buses[3].pipe)
    ensures buses[3].pipe.inboxes == map[ONLY := Inbox([0], None, [], false)]
  {
    Routes();
    var p := b.pipe;
    assert p.queue == [0] && p.accepted == [Event()];
    assert Mine(p, ONLY)(0);
    var q := Taken(p);
    assert q.queue == [] && q.worker == Sending(0, {ONLY});
    var b1 := After(b, Work(Take));
    var b2 := After(b1, Work(Send(ONLY)));
    assert b2.pipe.worker.pending == {};
    var b3 := After(b2, Work(Complete));
    buses := [b, b1, b2, b3];
    assert ActsTo(b, Work(Take), b1) && ActsTo(b1, Work(Send(ONLY)), b2) && ActsTo(b2, Work(Complete), b3);
  }

  /** A shutdown call up to where it waits for the one task. */
  lemma ShutdownRun(b: Bus) returns (buses: seq<Bus>)
    requires b == Beginning().(pipe := b.pipe) && Quiet(b.pipe)
    requires b.pipe.inboxes == map[ONLY := Inbox([0], None, [], false)]
    ensures Run(buses, ShutsDown()) && buses[0] == b
    ensures var c := buses[6];
      && !c.abrupt && c.shutdowns == [Awaiting({ONLY}), NotCalled] && WaitsFor(c, c.shutdowns[0], ONLY)
  {
    hide CanAct, After;
    var b1 := Stopping(b, Begun);
    var b2 := Stopping(b, Emptying).(dispatcher := false, writer := Some(0));
    var b3 := Stopping(b, Emptied).(dispatcher := false, running := false);
    var b4 := b3.(shutdowns := [Collecting({ONLY}, {}), NotCalled]);
    var b5 := b3.(shutdowns := [Collecting({}, {ONLY}), NotCalled], open := {});
    var b6 := b5.(shutdowns := [Awaiting({ONLY}), NotCalled]);
    assert b.open == {ONLY};
    DrainFollows(b);
    CollectFollows(b3);
    buses := [b, b1, b2, b3, b4, b5, b6];
  }

  function Stopping(b: Bus, s: Shutdown): Bus { b.(stage := Draining, shutdowns := [s, NotCalled]) }

  lemma DrainFollows(b: Bus)
    requires b == Beginning().(pipe := b.pipe) && Quiet(b.pipe)
    ensures var b1, b2 := Stopping(b, Begun), Stopping(b, Emptying).(dispatcher := false, writer := Some(0));
      && ActsTo(b, BeginGraceful(0), b1) && ActsTo(b1, TakeDispatcher(0), b2)
      && ActsTo(b2, WorkerDone(0), Stopping(b, Emptied).(dispatcher := false, running := false))
  {
    hide Moved, CanMove;
  }

  lemma CollectFollows(b: Bus)
    requires b.shutdowns == [Emptied, NotCalled] && b.open == {ONLY}
    ensures var b1 := b.(shutdowns := [Collecting({ONLY}, {}), NotCalled]);
      var b2 := b.(shutdowns := [Collecting({}, {ONLY}), NotCalled], open := {});
      && ActsTo(b, Collect(0), b1) && ActsTo(b1, Remove(0, ONLY), b2)
      && ActsTo(b2, Await(0), b2.(shutdowns := [Awaiting({ONLY}), NotCalled]))
  {
    hide Moved, CanMove;
    assert {ONLY} - {ONLY} == {} && {} + {ONLY} == {ONLY};
  }

  /** From the start, with one publisher, one subscription and two shutdown calls, a run leads to a
      stopped bus whose one accepted event nobody has handled. */
  lemma StoppedTooEarly() returns (buses: seq<Bus>, actions: seq<Action>)
    ensures Run(buses, actions) && Fresh(buses[0])
    ensures var b := buses[|actions|];
      && b.stage.Stopped? && !b.abrupt && |b.shutdowns| == 2 && b.shutdowns[1].Returned? && !Drained(b)
  {
    var published := PublishRun();
    var delivered := DeliverRun(published[4]);
    var waiting := ShutdownRun(delivered[3]);
    Joined(published, Publishes(), delivered, Delivers());
    var first := published + delivered[1..];
    Joined(first, Publishes() + Delivers(), waiting, ShutsDown());
    var second, before := first + waiting[1..], Publishes() + Delivers() + ShutsDown();
    Reachable(second, before, |before|);
    var late := SecondCallStopsEarly(second[|before|], 0, 1, ONLY);
    Joined(second, before, late, LateCall(1));
    buses, actions := second + late[1..], before + LateCall(1);
  }
}
