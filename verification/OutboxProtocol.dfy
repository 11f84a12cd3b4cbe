/** The outbox as a step system: durable tables, the volatile state of the workers around them, and
    a crash that erases the volatile part. One step is one transaction or one channel operation. */
module OutboxProtocol {
  import opened Events
  import opened Seqs
  import opened Sorting
  import opened OutboxTables
  import opened GroupCommit
  import opened OutboxStore
  import TopicTries

  type SubId = TopicTries.SubId

  /** A copy of an event with the handler of a subscription. */
  datatype Copy = Copy(id: EventId, to: SubId)

  datatype System = System(
    t: Tables,
    d: Directory,
    now: Nanos,
    capacity: nat,
    // The dispatcher's queue, and what of the last batch is committed but not yet dispatched.
    queue: seq<Envelope>,
    todo: seq<Envelope>,
    // Copies with the handlers, by event and each with its handler, and the channel to the
    // acknowledgement worker.
    copies: multiset<EventId>,
    holders: multiset<Copy>,
    acks: seq<AckMessage>,
    // What the scheduler, a replay of pending rows and a replay of dead letters have still to send.
    ready: seq<PersistedEnvelope>,
    rest: seq<PersistedEnvelope>,
    dead: set<EventId>,
    letters: seq<PersistedEnvelope>,
    // History that no worker reads: what was ever published, the rows ever written, the ids the scheduler
    // sent, and the ids that a replay of pending rows took up while a message or copy of them was live.
    published: map<EventId, PersistedEnvelope>,
    written: seq<Envelope>,
    pulled: set<EventId>,
    doubled: set<EventId>)

  datatype Step =
    | Publish(e: Envelope)
    | CommitBatch(n: nat)
    | Dispatch(to: set<SubId>)
    | FinishCopy(copy: Copy, success: bool)
    | DropCopy(copy: Copy)
    | CommitAck
    | PullDue(keys: seq<RowKey>)
    | SendDue
    | BeginReplay(order: seq<EventId>)
    | ReplayRow
    | EndReplay
    | BeginLetters(order: seq<EventId>)
    | SendLetter(k: nat)
    | Rewire(d: Directory)
    | Tick(now: Nanos)
    | Crash(d: Directory)

  function Id(e: Envelope): EventId { e.metadata.eventId }
  function RowId(row: PersistedEnvelope): EventId { row.metadata.eventId }
  function EnvelopeIds(es: seq<Envelope>): seq<EventId> { seq(|es|, i requires 0 <= i < |es| => Id(es[i])) }
  function RowIds(rows: seq<PersistedEnvelope>): seq<EventId> {
    seq(|rows|, i requires 0 <= i < |rows| => RowId(rows[i]))
  }
  function AckIds(acks: seq<AckMessage>): seq<EventId> { seq(|acks|, i requires 0 <= i < |acks| => acks[i].id) }

  /** Where a message for an event can wait outside the tables before its copies are routed. */
  ghost function Held(s: System): multiset<EventId> {
    multiset(EnvelopeIds(s.queue)) + multiset(EnvelopeIds(s.todo)) + multiset(RowIds(s.ready))
    + multiset(RowIds(s.rest)) + multiset(s.dead) + multiset(RowIds(s.letters))
  }

  /** Routed copies that a handler has, or whose acknowledgement is not committed. */
  ghost function Working(s: System): multiset<EventId> { s.copies + multiset(AckIds(s.acks)) }

  ghost function Times(id: EventId, n: nat): multiset<EventId> { multiset{}[id := n] }

  /** The acknowledgements that events committed but not dispatched may still cause. */
  ghost function Shares(d: Directory, todo: seq<Envelope>): multiset<EventId> {
    if todo == [] then multiset{} else Times(Id(todo[0]), Count(d, todo[0].typeId)) + Shares(d, todo[1..])
  }

  /** All acknowledgements that can still come. */
  ghost function Outstanding(s: System): multiset<EventId> { Working(s) + Shares(s.d, s.todo) }

  ghost predicate Enabled(s: System, step: Step) {
    match step
    case Publish(e) => |s.queue| < s.capacity && Id(e) !in s.published
    case CommitBatch(n) => s.todo == [] && 1 <= n <= |s.queue| && n <= MAX_BATCH
    case Dispatch(to) => s.todo != [] && |to| <= Count(s.d, s.todo[0].typeId)
    case FinishCopy(copy, _) => copy in s.holders && copy.id in s.copies
    case DropCopy(copy) => copy in s.holders && copy.id in s.copies
    case CommitAck => s.acks != []
    case PullDue(keys) =>
      s.ready == [] && Lists(keys, DueKeys(s.t.scheduled, Millis(s.now)), ByDue()) && InTable(keys, s.t.scheduled)
    case SendDue => s.ready != [] && (Replayable(s.d, s.ready[0]).Some? ==> |s.queue| < s.capacity)
    case BeginReplay(order) =>
      && s.rest == [] && s.dead == {}
      && Lists(order, s.t.events.Keys * s.t.refcount.Keys, ById()) && InTable(order, s.t.events)
    case ReplayRow => s.rest != [] && (Replayable(s.d, s.rest[0]).Some? ==> |s.queue| < s.capacity)
    case EndReplay => s.rest == []
    case BeginLetters(order) => Lists(order, s.t.dlq.Keys, ById()) && InTable(order, s.t.dlq)
    case SendLetter(k) => k < |s.letters|
    case Rewire(d) => forall i :: 0 <= i < |s.todo| ==> Count(d, s.todo[i].typeId) <= Count(s.d, s.todo[i].typeId)
    case Tick(now) => s.now <= now
    case Crash(_) => true
  }

  ghost function Next(s: System, step: Step): System
    requires Enabled(s, step)
  {
    match step
    case Publish(e) => AfterPublish(s, e)
    case CommitBatch(n) => AfterBatch(s, n)
    case Dispatch(to) => AfterDispatch(s, to)
    case FinishCopy(copy, success) => AfterFinish(s, copy, success)
    case DropCopy(copy) => AfterDrop(s, copy)
    case CommitAck => AfterAck(s)
    case PullDue(keys) => AfterPull(s, keys)
    case SendDue => SendNext(s)
    case BeginReplay(order) => AfterBeginReplay(s, order)
    case ReplayRow => ReplayNext(s)
    case EndReplay => AfterReplay(s)
    case BeginLetters(order) => AfterBeginLetters(s, order)
    case SendLetter(k) => LetterNext(s, k)
    case Rewire(d) => s.(d := d)
    case Tick(now) => s.(now := now)
    case Crash(d) => AfterCrash(s, d)
  }

  function AfterPublish(s: System, e: Envelope): System {
    s.(queue := s.queue + [e], published := s.published[Id(e) := Persist(e)])
  }

  /** The worker commits the first `n` messages of the queue as one batch. */
  ghost function AfterBatch(s: System, n: nat): System
    requires n <= |s.queue|
  {
    var batch := s.queue[..n];
    var outcome := ProcessBatch(s.d, s.now, s.t, batch);
    s.(t := outcome.tables, queue := s.queue[n..], todo := s.todo + outcome.dispatched,
       written := s.written + Filter(Dedupe(s.t.processedKeys, batch), HasSubscribers(s.d)))
  }

  function CopiesTo(id: EventId, to: set<SubId>): set<Copy> { set x | x in to :: Copy(id, x) }

  /** The first event to be dispatched reaches these subscriptions. */
  ghost function AfterDispatch(s: System, to: set<SubId>): System
    requires s.todo != []
  {
    s.(todo := s.todo[1..], copies := s.copies + Times(Id(s.todo[0]), |to|),
       holders := s.holders + multiset(CopiesTo(Id(s.todo[0]), to)))
  }

  function AfterFinish(s: System, copy: Copy, success: bool): System {
    s.(copies := s.copies - multiset{copy.id}, holders := s.holders - multiset{copy},
       acks := s.acks + [AckMessage(copy.id, success)])
  }

  /** A handler dies or is aborted with a copy in its inbox. */
  function AfterDrop(s: System, copy: Copy): System {
    s.(copies := s.copies - multiset{copy.id}, holders := s.holders - multiset{copy})
  }

  function AfterAck(s: System): System
    requires s.acks != []
  {
    s.(t := Ack(s.t, s.acks[0]), acks := s.acks[1..])
  }

  ghost function AfterPull(s: System, keys: seq<RowKey>): System
    requires InTable(keys, s.t.scheduled)
  {
    s.(ready := Rows(s.t.scheduled, keys),
       t := s.t.(scheduled := s.t.scheduled - DueKeys(s.t.scheduled, Millis(s.now))))
  }

  /** A replay of pending rows reads the event rows, live or not. */
  ghost function AfterBeginReplay(s: System, order: seq<EventId>): System
    requires InTable(order, s.t.events)
  {
    s.(rest := Rows(s.t.events, order), doubled := s.doubled + Overtaken(s))
  }

  /** The events that have a row and also a message on its way or a copy with a handler. */
  ghost function Overtaken(s: System): set<EventId> { set id | id in s.t.events && (id in Held(s) || id in Working(s)) }

  function AfterReplay(s: System): System {
    s.(t := s.t.(events := s.t.events - s.dead, refcount := s.t.refcount - s.dead), dead := {})
  }

  ghost function AfterBeginLetters(s: System, order: seq<EventId>): System
    requires InTable(order, s.t.dlq)
  {
    s.(letters := s.letters + Rows(s.t.dlq, order), t := s.t.(dlq := map[]))
  }

  /** A crash leaves the tables. An event with a row in one table at most is single again. */
  ghost function AfterCrash(s: System, d: Directory): System {
    System(s.t, d, s.now, s.capacity, [], [], multiset{}, multiset{}, [], [], [], {}, [],
      s.published, s.written, s.pulled, set id | id in s.doubled && !OnePlace(s.t, id))
  }

  /** The event has no rows in two of the tables, and no two scheduled rows. */
  ghost predicate OnePlace(t: Tables, id: EventId) {
    && (id in t.dlq ==> id !in t.events)
    && (forall k :: k in t.scheduled && k.id == id ==> id !in t.events && id !in t.dlq)
    && (forall k, l :: k in t.scheduled && l in t.scheduled && k.id == id && l.id == id ==> k == l)
  }

  function SendNext(s: System): System
    requires s.ready != []
  {
    var row := s.ready[0];
    match Replayable(s.d, row)
    case Some(typeId) =>
      s.(ready := s.ready[1..], queue := s.queue + [Restore(typeId, Strip(row))], pulled := s.pulled + {RowId(row)})
    case None => s.(ready := s.ready[1..])
  }

  /** Counts are never zero in any run, as `OutboxSteady` shows, so the branch that collects rows with a
      zero count is not here. `OutboxStore` has it. */
  function ReplayNext(s: System): System
    requires s.rest != []
  {
    var row := s.rest[0];
    match Replayable(s.d, row)
    case Some(typeId) => s.(rest := s.rest[1..], queue := s.queue + [Restore(typeId, row)])
    case None => s.(rest := s.rest[1..], dead := s.dead + {RowId(row)})
  }

  function Without(rows: seq<PersistedEnvelope>, k: nat): seq<PersistedEnvelope>
    requires k < |rows|
  {
    rows[..k] + rows[k + 1..]
  }

  /** One of the letters is offered to the queue. Replays of dead letters can overlap, so it may be any. */
  function LetterNext(s: System, k: nat): System
    requires k < |s.letters|
  {
    var row := s.letters[k];
    if row.typeName in s.d.names && |s.queue| < s.capacity
    then s.(letters := Without(s.letters, k), queue := s.queue + [Restore(s.d.names[row.typeName], row)])
    else s.(letters := Without(s.letters, k))
  }

  ghost predicate Initial(s: System) {
    s == System(Tables(map[], map[], map[], {}, map[]), s.d, s.now, s.capacity, [], [], multiset{}, multiset{}, [],
      [], [], {}, [], map[], [], {}, {})
  }

  // ---------- The invariant ----------

  /** Every event row has a count and the other way round, and no count is zero. */
  ghost predicate Counted(t: Tables) {
    t.events.Keys == t.refcount.Keys && forall id :: id in t.refcount ==> t.refcount[id] >= 1
  }

  predicate NotBefore(m: Metadata, now: Nanos) { m.deliverAt.Some? ==> m.deliverAt.value <= now }

  predicate FiledUnder(k: RowKey, row: PersistedEnvelope) {
    RowId(row) == k.id && row.metadata.deliverAt.Some? && Millis(row.metadata.deliverAt.value) == k.dueMs
  }

  /** Rows are filed under their own id, scheduled rows under their own due time too, and only what
      was due has an event row. */
  ghost predicate Filed(t: Tables, now: Nanos) {
    && (forall id :: id in t.events ==> RowId(t.events[id]) == id && NotBefore(t.events[id].metadata, now))
    && (forall id :: id in t.dlq ==> RowId(t.dlq[id]) == id)
    && (forall k :: k in t.scheduled ==> FiledUnder(k, t.scheduled[k]))
  }

  /** No event but the doubled ones has rows in two of the tables, or two scheduled rows. */
  ghost predicate Apart(t: Tables, doubled: set<EventId>) {
    && (forall id :: id in t.dlq && id !in doubled ==> id !in t.events)
    && (forall k :: k in t.scheduled && k.id !in doubled ==> k.id !in t.events && k.id !in t.dlq)
    && (forall k, l :: k in t.scheduled && l in t.scheduled && k.id == l.id && k.id !in doubled ==> k == l)
  }

  ghost predicate Sound(t: Tables, now: Nanos, doubled: set<EventId>) {
    Counted(t) && Filed(t, now) && Apart(t, doubled)
  }

  /** One live copy: a message for an event waits in at most one place, and then no copy is routed. */
  ghost predicate Single(held: multiset<EventId>, working: multiset<EventId>, doubled: set<EventId>) {
    forall id :: id !in doubled ==> held[id] <= 1 && (id in working ==> id !in held)
  }

  /** An event with a waiting message has no dead letter and no scheduled row. */
  ghost predicate Placed(t: Tables, held: multiset<EventId>, doubled: set<EventId>) {
    && (forall id :: id in t.dlq && id !in doubled ==> id !in held)
    && (forall k :: k in t.scheduled && k.id !in doubled ==> k.id !in held)
  }

  /** Every id in the system was published. */
  ghost predicate Known(t: Tables, held: multiset<EventId>, used: set<EventId>, doubled: set<EventId>) {
    && t.events.Keys <= used && t.dlq.Keys <= used && doubled <= used
    && (forall k :: k in t.scheduled ==> k.id in used)
    && (forall id :: id in held ==> id in used)
  }

  ghost predicate Waits(t: Tables, held: multiset<EventId>, working: multiset<EventId>, used: set<EventId>,
      doubled: set<EventId>)
  {
    Single(held, working, doubled) && Placed(t, held, doubled) && Known(t, held, used, doubled)
  }

  /** The count of a row covers all acknowledgements that can still come. */
  ghost predicate Covered(refcount: map<EventId, nat>, outstanding: multiset<EventId>, doubled: set<EventId>) {
    forall id :: id in outstanding && id !in doubled ==> id in refcount && refcount[id] >= outstanding[id]
  }

  /** A queued event that already has a row is the replay of that row. */
  ghost predicate Replays(events: map<EventId, PersistedEnvelope>, queue: seq<Envelope>, doubled: set<EventId>) {
    forall i :: 0 <= i < |queue| && Id(queue[i]) in events && Id(queue[i]) !in doubled ==>
      events[Id(queue[i])] == Persist(queue[i])
  }

  ghost predicate Absent(events: map<EventId, PersistedEnvelope>, rows: seq<PersistedEnvelope>,
      doubled: set<EventId>)
  {
    forall i :: 0 <= i < |rows| && RowId(rows[i]) !in doubled ==> RowId(rows[i]) !in events
  }

  ghost predicate Current(events: map<EventId, PersistedEnvelope>, rows: seq<PersistedEnvelope>,
      doubled: set<EventId>)
  {
    forall i :: 0 <= i < |rows| && RowId(rows[i]) !in doubled ==>
      RowId(rows[i]) in events && events[RowId(rows[i])] == rows[i]
  }

  /** What is on its way to the queue agrees with the event rows: a pending replay holds current
      rows, the scheduler and a replay of dead letters hold events that have none. */
  ghost predicate Lined(s: System) {
    && Replays(s.t.events, s.queue, s.doubled) && Absent(s.t.events, s.ready, s.doubled)
    && Absent(s.t.events, s.letters, s.doubled) && Current(s.t.events, s.rest, s.doubled)
    && forall id :: id in s.dead && id !in s.doubled ==> id in s.t.events
  }

  /** What every step keeps, of every event that is not doubled. */
  ghost predicate Inv(s: System) {
    && Sound(s.t, s.now, s.doubled)
    && Waits(s.t, Held(s), Working(s), s.published.Keys, s.doubled)
    && Covered(s.t.refcount, Outstanding(s), s.doubled)
    && Lined(s)
  }

  // ---------- Counting ids ----------

  lemma TakeEnvelope(es: seq<Envelope>)
    requires es != []
    ensures multiset(EnvelopeIds(es)) == multiset{Id(es[0])} + multiset(EnvelopeIds(es[1..]))
  {
    assert EnvelopeIds(es) == [Id(es[0])] + EnvelopeIds(es[1..]);
  }

  lemma PushEnvelope(es: seq<Envelope>, e: Envelope)
    ensures multiset(EnvelopeIds(es + [e])) == multiset(EnvelopeIds(es)) + multiset{Id(e)}
  {
    assert EnvelopeIds(es + [e]) == EnvelopeIds(es) + [Id(e)];
  }

  lemma TakeRow(rows: seq<PersistedEnvelope>)
    requires rows != []
    ensures multiset(RowIds(rows)) == multiset{RowId(rows[0])} + multiset(RowIds(rows[1..]))
  {
    assert RowIds(rows) == [RowId(rows[0])] + RowIds(rows[1..]);
  }

  lemma PickRow(rows: seq<PersistedEnvelope>, k: nat)
    requires k < |rows|
    ensures multiset(RowIds(rows)) == multiset{RowId(rows[k])} + multiset(RowIds(Without(rows, k)))
  {
    assert RowIds(rows) == RowIds(rows[..k]) + [RowId(rows[k])] + RowIds(rows[k + 1..]);
    assert RowIds(Without(rows, k)) == RowIds(rows[..k]) + RowIds(rows[k + 1..]);
  }

  lemma {:induction false} SharesPush(d: Directory, todo: seq<Envelope>, e: Envelope)
    ensures Shares(d, todo + [e]) == Shares(d, todo) + Times(Id(e), Count(d, e.typeId))
  {
    if todo == [] {
      assert todo + [e] == [e];
    } else {
      SharesPush(d, todo[1..], e);
      assert (todo + [e])[1..] == todo[1..] + [e];
    }
  }

  lemma {:induction false} SharesShrink(d: Directory, e: Directory, todo: seq<Envelope>)
    requires forall i :: 0 <= i < |todo| ==> Count(e, todo[i].typeId) <= Count(d, todo[i].typeId)
    ensures Shares(e, todo) <= Shares(d, todo)
  {
    if todo != [] {
      SharesShrink(d, e, todo[1..]);
    }
  }

  lemma {:induction false} SharesWait(d: Directory, todo: seq<Envelope>, id: EventId)
    ensures id in Shares(d, todo) ==> id in multiset(EnvelopeIds(todo))
  {
    if todo != [] {
      TakeEnvelope(todo);
      SharesWait(d, todo[1..], id);
    }
  }

  lemma {:induction false} DistinctCounts(ids: seq<EventId>)
    requires forall i, j :: 0 <= i < j < |ids| ==> ids[i] != ids[j]
    ensures forall id :: multiset(ids)[id] == if id in ids then 1 else 0
  {
    if ids != [] {
      var n := |ids| - 1;
      DistinctCounts(ids[..n]);
      assert ids == ids[..n] + [ids[n]];
    }
  }
}
