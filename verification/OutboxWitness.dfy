/** Runs of the outbox from its start: a dead letter that is offered to the queue and yet lost, a replay of
    pending rows that begins too soon, and a scheduled event that outlives a crash and its handler. */
module OutboxWitness {
  import opened Events
  import opened Sorting
  import opened OutboxTables
  import opened GroupCommit
  import opened OutboxStore
  import opened OutboxProtocol
  import opened OutboxRuns
  import opened OutboxFates

  const ORDER: TypeId := 7
  const ONLY: SubId := 1

  function Order(key: Option<Key>): Envelope { Envelope(ORDER, "order", Metadata(0, None, None, key), []) }

  /** A registry that lists so many subscriptions of the type. */
  function Listing(n: nat): Directory { Directory(map["order" := ORDER], map[ORDER := n]) }

  /** One event is published, committed, dispatched to its one subscriber, fails, and becomes a dead
      letter. It is replayed, the registry changes, and the next batch is committed. */
  function LetterSteps(key: Option<Key>, listed: nat): seq<Step> {
    [Publish(Order(key)), CommitBatch(1), Dispatch({ONLY}), FinishCopy(Copy(0, ONLY), false), CommitAck,
     BeginLetters([0]), SendLetter(0), Rewire(Listing(listed)), CommitBatch(1)]
  }

  function Beginning(): System {
    System(Tables(map[], map[], map[], {}, map[]), Listing(1), 0, 1, [], [], multiset{}, multiset{}, [], [], [], {}, [],
      map[], [], {}, {})
  }

  lemma FirstCommit(key: Option<Key>)
    ensures var e := Order(key); var u := AfterBatch(AfterPublish(Beginning(), e), 1);
      && u.t.events == map[0 := Persist(e)] && u.t.refcount == map[0 := 1] && u.t.dlq == map[]
      && u == Beginning().(t := u.t, todo := [e], published := map[0 := Persist(e)], written := u.written)
  {
    var e, s := Order(key), AfterPublish(Beginning(), Order(key));
    assert s.queue == [e] && s.queue[..1] == [e] && s.queue[1..] == [] && s.published == map[0 := Persist(e)];
    SingleBatch(s.d, s.now, s.t, e);
    assert s.todo + [e] == [e];
  }

  lemma LettersListed(row: PersistedEnvelope, order: seq<EventId>)
    requires order == [0]
    ensures Lists(order, map[0 := row].Keys, ById()) && InTable(order, map[0 := row])
    ensures Rows(map[0 := row], order) == [row]
  {
    assert order[0] == 0 && 0 in order;
  }

  /** For every key and every later number of subscriptions this is a run, the letter gets a place in the
      queue, and it is in a table afterwards exactly when it has no key and somebody is listed. So a
      letter with a key, and a letter whose type has lost its subscribers, are lost. */
  lemma LetterLost(key: Option<Key>, listed: nat) returns (states: seq<System>)
    ensures Run(states, LetterSteps(key, listed)) && Initial(states[0])
    ensures |states[6].letters| == 1 && OutboxFates.Accepted(states[6], 0) && states[8].queue == [Order(key)]
    ensures InTables(states[9].t, 0) <==> key.None? && listed > 0
  {
    hide Enabled, Next, InTables, AfterBatch, Overtaken;
    var first := FirstHalf(key, listed);
    var second := SecondHalf(key, listed, first[5]);
    states := first + second[1..];
    var steps := LetterSteps(key, listed);
    forall i | 0 <= i < 9 ensures Follows(states[i], steps[i], states[i + 1]) {
      if i < 5 {
        assert Follows(first[i], steps[i], first[i + 1]);
      } else {
        assert Follows(second[i - 5], steps[i], second[i - 4]);
      }
    }
    assert TakenIn(steps, 7, 7) == 0 && TakenIn(steps, 7, 8) == 0 && TakenIn(steps, 7, 9) == 1;
    assert states[6] == second[1] && states[8] == second[3];
    LetterComesBack(states, steps, 6, 0, 8);
  }

  /** Up to the dead letter. */
  lemma FirstHalf(key: Option<Key>, listed: nat) returns (states: seq<System>)
    ensures |states| == 6 && states[0] == Beginning() && Initial(states[0])
    ensures forall i :: 0 <= i < 5 ==> Follows(states[i], LetterSteps(key, listed)[i], states[i + 1])
    ensures states[5].t.dlq == map[0 := Persist(Order(key))]
    ensures states[5] == Beginning().(t := states[5].t, published := map[0 := Persist(Order(key))],
      written := states[5].written)
  {
    hide ProcessBatch, Enabled, Next;
    var s0 := Beginning();
    var s1 := AfterPublish(s0, Order(key));
    var s2 := AfterBatch(s1, 1);
    FirstCommit(key);
    CommitFollows(key);
    var later := Fails(key, s2);
    states := [s0, s1] + later;
    var steps := LetterSteps(key, listed);
    assert steps[0] == Publish(Order(key)) && steps[1] == CommitBatch(1);
    forall i | 2 <= i < 5 ensures Follows(states[i], steps[i], states[i + 1]) {
      assert Follows(later[i - 2], Failing()[i - 2], later[i - 1]);
    }
  }

  lemma CommitFollows(key: Option<Key>)
    ensures var s1 := AfterPublish(Beginning(), Order(key));
      Follows(Beginning(), Publish(Order(key)), s1) && Follows(s1, CommitBatch(1), AfterBatch(s1, 1))
  {
    hide AfterBatch, Enabled, Next;
    PublishFollows(Beginning(), Order(key));
    BatchFollows(AfterPublish(Beginning(), Order(key)), 1);
  }

  lemma PublishFollows(s: System, e: Envelope)
    requires |s.queue| < s.capacity && Id(e) !in s.published
    ensures Follows(s, Publish(e), AfterPublish(s, e))
  {
  }

  lemma BatchFollows(s: System, n: nat)
    requires s.todo == [] && 1 <= n <= |s.queue| && n <= MAX_BATCH
    ensures Follows(s, CommitBatch(n), AfterBatch(s, n))
  {
    hide AfterBatch;
  }

  function Failing(): seq<Step> { [Dispatch({ONLY}), FinishCopy(Copy(0, ONLY), false), CommitAck] }

  lemma Fails(key: Option<Key>, s: System) returns (states: seq<System>)
    requires var e := Order(key);
      && s.t.events == map[0 := Persist(e)] && s.t.refcount == map[0 := 1] && s.t.dlq == map[]
      && s == Beginning().(t := s.t, todo := [e], published := map[0 := Persist(e)], written := s.written)
    ensures |states| == 4 && states[0] == s
    ensures forall i :: 0 <= i < 3 ==> Follows(states[i], Failing()[i], states[i + 1])
    ensures states[3].t.dlq == map[0 := Persist(Order(key))]
    ensures states[3] == Beginning().(t := states[3].t, published := map[0 := Persist(Order(key))],
      written := s.written)
  {
    hide Enabled, Next, Follows, Shares, EnvelopeIds, RowIds;
    var s1 := AfterDispatch(s, {ONLY});
    assert CopiesTo(0, {ONLY}) == {Copy(0, ONLY)};
    assert s1.copies == multiset{0} && s1.holders == multiset{Copy(0, ONLY)};
    var s2 := AfterFinish(s1, Copy(0, ONLY), false);
    assert s2.copies == multiset{} && s2.holders == multiset{} && s2.acks == [AckMessage(0, false)];
    var s3 := AfterAck(s2);
    states := [s, s1, s2, s3];
    DispatchFollows(s, {ONLY});
    FinishFollows(s1, Copy(0, ONLY), false);
    AckFollows(s2);
  }

  lemma DispatchFollows(s: System, to: set<SubId>)
    requires s.todo != [] && |to| <= Count(s.d, s.todo[0].typeId)
    ensures Follows(s, Dispatch(to), AfterDispatch(s, to))
  {
  }

  lemma FinishFollows(s: System, copy: Copy, success: bool)
    requires copy in s.holders && copy.id in s.copies
    ensures Follows(s, FinishCopy(copy, success), AfterFinish(s, copy, success))
  {
  }

  lemma AckFollows(s: System)
    requires s.acks != []
    ensures Follows(s, CommitAck, AfterAck(s))
  {
  }

  /** From the dead letter on. */
  lemma SecondHalf(key: Option<Key>, listed: nat, s: System) returns (states: seq<System>)
    requires s.t.dlq == map[0 := Persist(Order(key))]
    requires s == Beginning().(t := s.t, published := map[0 := Persist(Order(key))], written := s.written)
    ensures |states| == 5 && states[0] == s
    ensures forall i :: 0 <= i < 4 ==> Follows(states[i], LetterSteps(key, listed)[i + 5], states[i + 1])
    ensures states[1].letters == [Persist(Order(key))] && states[1].d == Listing(1)
    ensures states[1].queue == [] && states[1].capacity == 1 && states[1].doubled == {}
    ensures states[3].queue == [Order(key)] && states[3].d == Listing(listed)
  {
    hide AfterBatch, AfterBeginLetters, LetterNext, Follows;
    var s1 := OpenLetters(key, s);
    var s2 := OfferLetter(key, s1);
    var s3 := s2.(d := Listing(listed));
    var s4 := AfterBatch(s3, 1);
    states := [s, s1, s2, s3, s4];
    RewireFollows(s2, listed);
    BatchFollows(s3, 1);
  }

  lemma OpenLetters(key: Option<Key>, s: System) returns (u: System)
    requires s.t.dlq == map[0 := Persist(Order(key))] && s.letters == []
    ensures Follows(s, BeginLetters([0]), u)
    ensures u == s.(t := s.t.(dlq := map[]), letters := [Persist(Order(key))])
  {
    LettersListed(Persist(Order(key)), [0]);
    u := AfterBeginLetters(s, [0]);
  }

  lemma OfferLetter(key: Option<Key>, s: System) returns (u: System)
    requires s.letters == [Persist(Order(key))] && s.d == Listing(1) && s.queue == [] && s.capacity == 1
    ensures Follows(s, SendLetter(0), u)
    ensures u == s.(letters := [], queue := [Order(key)])
  {
    assert Restore(ORDER, Persist(Order(key))) == Order(key);
    u := LetterNext(s, 0);
  }

  lemma RewireFollows(s: System, listed: nat)
    requires s.todo == []
    ensures Follows(s, Rewire(Listing(listed)), s.(d := Listing(listed)))
  {
  }

  // ---------- A replay that begins too soon ----------

  /** An event is published, committed and dispatched. While its copy is with the handler, a replay of
      pending rows puts it in the queue again, and the next batch commits and dispatches it once more.
      One of the copies is handled and acknowledged. */
  function EarlySteps(): seq<Step> {
    [Publish(Order(None)), CommitBatch(1), Dispatch({ONLY}), BeginReplay([0]), ReplayRow, CommitBatch(1),
     Dispatch({ONLY}), FinishCopy(Copy(0, ONLY), true), CommitAck]
  }

  /** This is a run of the code, and at its end the row is gone with a copy still outstanding, whose
      acknowledgement will find no row. */
  lemma ReplayTooSoon() returns (states: seq<System>)
    ensures Run(states, EarlySteps()) && Initial(states[0]) && 0 in states[4].doubled
    ensures 0 !in states[9].t.events && 0 in Working(states[9])
  {
    hide Enabled, Next, Follows, AfterBatch;
    var e, steps := Order(None), EarlySteps();
    var s0 := Beginning();
    var s1 := AfterPublish(s0, e);
    var s2 := AfterBatch(s1, 1);
    FirstCommit(None);
    CommitFollows(None);
    var s3 := AfterDispatch(s2, {ONLY});
    DispatchFollows(s2, {ONLY});
    FirstCopy(s2);
    var s4, s5, s6 := Again(s3);
    var s7, s8, s9 := OneHandled(s6);
    states := [s0, s1, s2, s3, s4, s5, s6, s7, s8, s9];
  }

  lemma FirstCopy(s: System)
    requires s.todo == [Order(None)] && s.copies == multiset{} && s.holders == multiset{} && s.acks == []
    ensures var u := AfterDispatch(s, {ONLY});
      u.todo == [] && u.copies == multiset{0} && u.holders == multiset{Copy(0, ONLY)} && u.acks == []
  {
    assert CopiesTo(0, {ONLY}) == {Copy(0, ONLY)};
  }

  ghost predicate OneRow(t: Tables) {
    t.events == map[0 := Persist(Order(None))] && t.refcount == map[0 := 1]
  }

  lemma Again(s: System) returns (s1: System, s2: System, s3: System)
    requires OneRow(s.t) && s.d == Listing(1) && s.now == 0 && s.capacity == 1
    requires s.queue == [] && s.todo == [] && s.rest == [] && s.dead == {} && 0 in s.copies
    ensures Follows(s, BeginReplay([0]), s1) && 0 in s1.doubled
    ensures Follows(s1, ReplayRow, s2) && Follows(s2, CommitBatch(1), s3)
    ensures OneRow(s3.t) && s3.todo == [Order(None)] && s3.d == Listing(1)
    ensures s3.copies == s.copies && s3.holders == s.holders && s3.acks == s.acks
  {
    hide Enabled, Next, Follows, AfterBatch, OneRow, Lists;
    var order := EarlySteps()[3].order;
    OneRowListed(s.t, order);
    s1 := AfterBeginReplay(s, order);
    ReplayFollows(s, order);
    LiveRow(s);
    s2 := ReplayNext(s1);
    RowFollows(s1);
    QueuedAgain(s1);
    s3 := AfterBatch(s2, 1);
    BatchFollows(s2, 1);
    CommittedAgain(s2);
  }

  lemma OneRowListed(t: Tables, order: seq<EventId>)
    requires OneRow(t) && order == [0]
    ensures InTable(order, t.events) && Lists(order, t.events.Keys * t.refcount.Keys, ById())
    ensures Rows(t.events, order) == [Persist(Order(None))]
  {
    LettersListed(Persist(Order(None)), order);
    assert t.events.Keys * t.refcount.Keys == map[0 := Persist(Order(None))].Keys;
  }

  lemma LiveRow(s: System)
    requires OneRow(s.t) && 0 in s.copies
    ensures 0 in Overtaken(s)
  {
    assert 0 in s.t.events && 0 in Working(s);
  }

  lemma QueuedAgain(s: System)
    requires s.d == Listing(1) && s.rest == [Persist(Order(None))] && s.queue == []
    ensures ReplayNext(s) == s.(rest := [], queue := [Order(None)])
  {
    assert Restore(ORDER, Persist(Order(None))) == Order(None);
  }

  lemma CommittedAgain(s: System)
    requires OneRow(s.t) && s.d == Listing(1) && s.now == 0 && s.queue == [Order(None)] && s.todo == []
    ensures var u := AfterBatch(s, 1);
      OneRow(u.t) && u == s.(t := u.t, queue := [], todo := [Order(None)], written := u.written)
  {
    hide ProcessBatch, OneRow, Dedupe;
    var e := Order(None);
    assert s.queue[..1] == [e] && s.queue[1..] == [];
    WrittenAgain(s.t);
    assert s.todo + [e] == [e];
  }

  lemma WrittenAgain(t: Tables)
    requires OneRow(t)
    ensures var outcome := ProcessBatch(Listing(1), 0, t, [Order(None)]);
      OneRow(outcome.tables) && outcome.dispatched == [Order(None)]
  {
    hide ProcessBatch;
    SingleBatch(Listing(1), 0, t, Order(None));
  }

  lemma ReplayFollows(s: System, order: seq<EventId>)
    requires s.rest == [] && s.dead == {} && InTable(order, s.t.events)
    requires Lists(order, s.t.events.Keys * s.t.refcount.Keys, ById())
    ensures Follows(s, BeginReplay(order), AfterBeginReplay(s, order))
  {
  }

  lemma RowFollows(s: System)
    requires s.rest != [] && |s.queue| < s.capacity
    ensures Follows(s, ReplayRow, ReplayNext(s))
  {
  }

  lemma OneHandled(s: System) returns (s1: System, s2: System, s3: System)
    requires OneRow(s.t) && s.todo == [Order(None)] && s.d == Listing(1)
    requires s.copies == multiset{0} && s.holders == multiset{Copy(0, ONLY)} && s.acks == []
    ensures Follows(s, Dispatch({ONLY}), s1) && Follows(s1, FinishCopy(Copy(0, ONLY), true), s2)
    ensures Follows(s2, CommitAck, s3)
    ensures 0 !in s3.t.events && 0 in Working(s3)
  {
    hide Enabled, Next, Follows;
    s1 := AfterDispatch(s, {ONLY});
    DispatchFollows(s, {ONLY});
    SecondCopy(s);
    s2 := AfterFinish(s1, Copy(0, ONLY), true);
    FinishFollows(s1, Copy(0, ONLY), true);
    s3 := AfterAck(s2);
    AckFollows(s2);
    CopyLeft(s1);
  }

  lemma SecondCopy(s: System)
    requires s.todo == [Order(None)] && s.copies == multiset{0} && s.holders == multiset{Copy(0, ONLY)}
    ensures var u := AfterDispatch(s, {ONLY});
      u == s.(todo := [], copies := multiset{0, 0}, holders := multiset{Copy(0, ONLY), Copy(0, ONLY)})
  {
    assert CopiesTo(0, {ONLY}) == {Copy(0, ONLY)};
  }

  lemma CopyLeft(s: System)
    requires OneRow(s.t) && s.copies == multiset{0, 0} && s.acks == []
    ensures var u := AfterFinish(s, Copy(0, ONLY), true);
      u.acks != [] && 0 !in AfterAck(u).t.events && 0 in Working(AfterAck(u))
  {
    var u := AfterFinish(s, Copy(0, ONLY), true);
    assert u.acks == [AckMessage(0, true)] && u.copies == multiset{0};
    assert 0 in AfterAck(u).copies;
  }

  // ---------- A scheduled event that outlives a crash and its handler ----------

  function Later(): Envelope { Envelope(ORDER, "order", Metadata(0, None, Some(1_000_000), None), []) }

  /** An event for the next millisecond is published and committed, and the process crashes. When the time
      has come the scheduler takes the row out and sends it, the batch is committed and the event is
      dispatched. Its handler dies. A replay of pending rows brings the event back, and this time its
      handler succeeds. */
  function RecoverySteps(): seq<Step> {
    [Publish(Later()), CommitBatch(1), Crash(Listing(1)), Tick(1_000_000), PullDue([RowKey(1, 0)]), SendDue,
     CommitBatch(1), Dispatch({ONLY}), DropCopy(Copy(0, ONLY)), BeginReplay([0]), ReplayRow, EndReplay,
     CommitBatch(1), Dispatch({ONLY}), FinishCopy(Copy(0, ONLY), true), CommitAck]
  }

  /** This is a run from the start. The row is there after the crash and after the handler's death, and in
      the end the event has been handled and is gone from every table. */
  lemma ScheduledRecovers() returns (states: seq<System>)
    ensures Run(states, RecoverySteps()) && Initial(states[0])
    ensures RowKey(1, 0) in states[3].t.scheduled && 0 in states[9].t.events
    ensures var t := states[16].t; t.events == map[] && t.scheduled == map[] && t.dlq == map[] && t.refcount == map[]
  {
    hide Follows, AfterBatch;
    var s0 := Beginning();
    var s1, s2 := Schedules(s0);
    var s3, s4 := CrashesAndWaits(s2);
    var s5, s6 := SendsOrder(s4);
    var s7, s8, s9 := LosesCopy(s6);
    var s10, s11, s12 := ReplaysOrder(s9);
    var s13, s14, s15, s16 := Succeeds(s12);
    states := [s0, s1, s2, s3, s4, s5, s6, s7, s8, s9, s10, s11, s12, s13, s14, s15, s16];
  }

  /** Nothing but the tables and the history, with one type and room for one message. */
  ghost predicate Idle(s: System) {
    && s.d == Listing(1) && s.capacity == 1 && s.queue == [] && s.todo == [] && s.ready == [] && s.rest == []
    && s.letters == [] && s.dead == {} && s.copies == multiset{} && s.holders == multiset{} && s.acks == []
  }

  ghost predicate NoRows(t: Tables) { t.events == map[] && t.refcount == map[] && t.dlq == map[] }

  lemma Schedules(s: System) returns (s1: System, s2: System)
    requires s == Beginning()
    ensures Follows(s, Publish(Later()), s1) && Follows(s1, CommitBatch(1), s2)
    ensures Idle(s2) && NoRows(s2.t) && s2.t.scheduled == map[RowKey(1, 0) := Persist(Later())] && s2.now == 0
  {
    hide Follows, AfterBatch;
    s1 := AfterPublish(s, Later());
    PublishFollows(s, Later());
    s2 := AfterBatch(s1, 1);
    CommitsLater(s1);
  }

  lemma CommitsLater(s: System)
    requires s.d == Listing(1) && s.now == 0 && s.queue == [Later()] && s.todo == []
    ensures Follows(s, CommitBatch(1), AfterBatch(s, 1))
    ensures var u := AfterBatch(s, 1);
      && u == s.(t := u.t, queue := [], written := u.written)
      && u.t == s.t.(scheduled := s.t.scheduled[RowKey(1, 0) := Persist(Later())])
  {
    BatchFollows(s, 1);
    hide Follows, ProcessBatch, Dedupe;
    assert s.queue[..1] == [Later()] && s.queue[1..] == [];
    LaterIsScheduled(s.t);
    assert s.todo + [] == [];
  }

  lemma LaterIsScheduled(t: Tables)
    ensures ProcessBatch(Listing(1), 0, t, [Later()])
      == Outcome(t.(scheduled := t.scheduled[RowKey(1, 0) := Persist(Later())]), [])
  {
    SingleBatch(Listing(1), 0, t, Later());
    hide ProcessBatch;
    assert Millis(1_000_000) == 1;
  }

  lemma CrashesAndWaits(s: System) returns (s1: System, s2: System)
    requires Idle(s) && NoRows(s.t) && s.t.scheduled == map[RowKey(1, 0) := Persist(Later())] && s.now <= 1_000_000
    ensures Follows(s, Crash(Listing(1)), s1) && Follows(s1, Tick(1_000_000), s2)
    ensures s1.t == s2.t == s.t && Idle(s2) && s2.now == 1_000_000
  {
    s1 := AfterCrash(s, Listing(1));
    s2 := s1.(now := 1_000_000);
  }

  lemma SendsOrder(s: System) returns (s1: System, s2: System)
    requires Idle(s) && NoRows(s.t) && s.t.scheduled == map[RowKey(1, 0) := Persist(Later())] && s.now == 1_000_000
    ensures Follows(s, PullDue([RowKey(1, 0)]), s1) && Follows(s1, SendDue, s2)
    ensures s2.t == s.t.(scheduled := map[]) && s2.queue == [Order(None)] && Idle(s2.(queue := []))
  {
    var keys := [RowKey(1, 0)];
    assert Millis(1_000_000) == 1;
    assert keys[0] in keys && DueKeys(s.t.scheduled, 1) == {RowKey(1, 0)};
    s1 := AfterPull(s, keys);
    assert Rows(s.t.scheduled, keys) == [Persist(Later())];
    assert s.t.scheduled - {RowKey(1, 0)} == map[];
    s2 := SendNext(s1);
    assert Restore(ORDER, Strip(Persist(Later()))) == Order(None);
  }

  /** The batch of one message without a key. */
  lemma CommitsOrder(s: System)
    requires s.d == Listing(1) && s.queue == [Order(None)] && s.todo == []
    ensures Follows(s, CommitBatch(1), AfterBatch(s, 1))
    ensures var u := AfterBatch(s, 1);
      && u == s.(t := u.t, queue := [], todo := [Order(None)], written := u.written)
      && u.t == s.t.(events := s.t.events[0 := Persist(Order(None))], refcount := s.t.refcount[0 := 1])
  {
    BatchFollows(s, 1);
    hide Follows;
    assert s.queue[..1] == [Order(None)] && s.queue[1..] == [];
    SingleBatch(s.d, s.now, s.t, Order(None));
    assert s.todo + [Order(None)] == [Order(None)];
  }

  /** The batch is committed and the event dispatched to its one subscriber. */
  lemma Dispatches(s: System) returns (s1: System, s2: System)
    requires Idle(s.(queue := [])) && s.queue == [Order(None)] && (NoRows(s.t) || OneRow(s.t))
    ensures Follows(s, CommitBatch(1), s1) && Follows(s1, Dispatch({ONLY}), s2)
    ensures OneRow(s2.t) && s2.t.scheduled == s.t.scheduled && s2.t.dlq == s.t.dlq
    ensures s2.copies == multiset{0} && s2.holders == multiset{Copy(0, ONLY)} && s2.acks == []
    ensures Idle(s2.(copies := multiset{}, holders := multiset{}))
  {
    hide AfterBatch, Follows, AfterDispatch, OneRow, NoRows;
    CommitsOrder(s);
    OneRowAfter(s.t);
    s1 := AfterBatch(s, 1);
    s2 := AfterDispatch(s1, {ONLY});
    DispatchFollows(s1, {ONLY});
    DispatchGives(s1);
  }

  lemma OneRowAfter(t: Tables)
    requires NoRows(t) || OneRow(t)
    ensures OneRow(t.(events := t.events[0 := Persist(Order(None))], refcount := t.refcount[0 := 1]))
  {
  }

  lemma DispatchGives(s: System)
    requires s.todo == [Order(None)] && s.copies == multiset{} && s.holders == multiset{}
    ensures var u := AfterDispatch(s, {ONLY});
      u == s.(todo := [], copies := multiset{0}, holders := multiset{Copy(0, ONLY)})
  {
    assert CopiesTo(0, {ONLY}) == {Copy(0, ONLY)};
  }

  lemma LosesCopy(s: System) returns (s1: System, s2: System, s3: System)
    requires Idle(s.(queue := [])) && s.queue == [Order(None)] && NoRows(s.t) && s.t.scheduled == map[]
    ensures Follows(s, CommitBatch(1), s1) && Follows(s1, Dispatch({ONLY}), s2)
    ensures Follows(s2, DropCopy(Copy(0, ONLY)), s3)
    ensures Idle(s3) && OneRow(s3.t) && s3.t.scheduled == map[] && s3.t.dlq == map[]
  {
    hide Follows;
    s1, s2 := Dispatches(s);
    s3 := AfterDrop(s2, Copy(0, ONLY));
    DropFollows(s2, Copy(0, ONLY));
    assert multiset{0} - multiset{0} == multiset{};
  }

  lemma DropFollows(s: System, copy: Copy)
    requires copy in s.holders && copy.id in s.copies
    ensures Follows(s, DropCopy(copy), AfterDrop(s, copy))
  {
  }

  lemma ReplaysOrder(s: System) returns (s1: System, s2: System, s3: System)
    requires Idle(s) && OneRow(s.t) && s.t.scheduled == map[] && s.t.dlq == map[]
    ensures Follows(s, BeginReplay([0]), s1) && Follows(s1, ReplayRow, s2) && Follows(s2, EndReplay, s3)
    ensures s3.t == s.t && s3.queue == [Order(None)] && Idle(s3.(queue := []))
  {
    hide Follows, Overtaken, Lists;
    OneRowListed(s.t, [0]);
    s1 := AfterBeginReplay(s, [0]);
    ReplayFollows(s, [0]);
    s2 := ReplayNext(s1);
    RowFollows(s1);
    QueuedAgain(s1);
    s3 := AfterReplay(s2);
    EndFollows(s2);
    assert s2.t.events - {} == s2.t.events && s2.t.refcount - {} == s2.t.refcount;
  }

  lemma EndFollows(s: System)
    requires s.rest == []
    ensures Follows(s, EndReplay, AfterReplay(s))
  {
  }

  lemma Succeeds(s: System) returns (s1: System, s2: System, s3: System, s4: System)
    requires Idle(s.(queue := [])) && s.queue == [Order(None)] && OneRow(s.t)
    requires s.t.scheduled == map[] && s.t.dlq == map[]
    ensures Follows(s, CommitBatch(1), s1) && Follows(s1, Dispatch({ONLY}), s2)
    ensures Follows(s2, FinishCopy(Copy(0, ONLY), true), s3) && Follows(s3, CommitAck, s4)
    ensures NoRows(s4.t) && s4.t.scheduled == map[]
  {
    hide Follows;
    s1, s2 := Dispatches(s);
    s3 := AfterFinish(s2, Copy(0, ONLY), true);
    FinishFollows(s2, Copy(0, ONLY), true);
    s4 := AfterAck(s3);
    assert s3.acks == [AckMessage(0, true)];
    AckFollows(s3);
  }
}
