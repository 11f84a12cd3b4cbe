/** The workers of the outbox undisturbed: a batch, a tick of the scheduler and the two replays, step by step
    from any state, come to what the methods of the store do in one call. */
module OutboxTicks {
  import opened Events
  import opened Seqs
  import opened Sorting
  import opened OutboxTables
  import opened GroupCommit
  import opened OutboxStore
  import opened OutboxProtocol
  import opened OutboxSteady
  import opened OutboxRuns

  function Times(step: Step, n: nat): seq<Step> { seq(n, _ => step) }

  lemma RunCons(s: System, step: Step, states: seq<System>, steps: seq<Step>)
    requires Run(states, steps) && Follows(s, step, states[0])
    ensures Run([s] + states, [step] + steps)
  {
    hide Follows;
    forall i | 0 <= i < |steps| + 1 ensures Follows(([s] + states)[i], ([step] + steps)[i], ([s] + states)[i + 1]) {
      if i > 0 {
        assert Follows(states[i - 1], steps[i - 1], states[i]);
      }
    }
  }

  lemma RunSnoc(states: seq<System>, steps: seq<Step>, step: Step, u: System)
    requires Run(states, steps) && Follows(states[|steps|], step, u)
    ensures Run(states + [u], steps + [step])
  {
    hide Follows;
    forall i | 0 <= i < |steps| + 1 ensures Follows((states + [u])[i], (steps + [step])[i], (states + [u])[i + 1]) {
      if i < |steps| {
        assert Follows(states[i], steps[i], states[i + 1]);
      }
    }
  }

  lemma TimesCons(step: Step, n: nat)
    requires n > 0
    ensures Times(step, n) == [step] + Times(step, n - 1)
  {
  }

  // ---------- The worker and the handlers ----------

  function Dispatches(to: seq<set<SubId>>): seq<Step> { seq(|to|, i requires 0 <= i < |to| => Dispatch(to[i])) }

  /** The copies that these dispatches make. */
  ghost function CopiesMade(todo: seq<Envelope>, to: seq<set<SubId>>): multiset<Copy>
    requires |to| == |todo|
  {
    if todo == [] then multiset{} else multiset(CopiesTo(Id(todo[0]), to[0])) + CopiesMade(todo[1..], to[1..])
  }

  lemma DispatchFollows(s: System, to: set<SubId>)
    requires s.todo != [] && |to| <= Count(s.d, s.todo[0].typeId)
    ensures Follows(s, Dispatch(to), AfterDispatch(s, to))
  {
  }

  lemma {:induction false} DispatchesAll(s: System, to: seq<set<SubId>>) returns (states: seq<System>)
    requires |to| == |s.todo| && forall i :: 0 <= i < |to| ==> |to[i]| <= Count(s.d, s.todo[i].typeId)
    ensures Run(states, Dispatches(to)) && states[0] == s
    ensures var u := states[|to|];
      u == s.(todo := [], copies := u.copies, holders := s.holders + CopiesMade(s.todo, to))
    decreases |to|
  {
    hide Follows, CopiesTo;
    if to == [] {
      states := [s];
      assert s.holders + multiset{} == s.holders;
    } else {
      var u := AfterDispatch(s, to[0]);
      DispatchFollows(s, to[0]);
      var rest := DispatchesAll(u, to[1..]);
      states := [s] + rest;
      RunCons(s, Dispatch(to[0]), rest, Dispatches(to[1..]));
      assert Dispatches(to) == [Dispatch(to[0])] + Dispatches(to[1..]);
      assert s.holders + multiset(CopiesTo(Id(s.todo[0]), to[0])) + CopiesMade(s.todo[1..], to[1..])
        == s.holders + CopiesMade(s.todo, to);
    }
  }

  /** A batch of any size up to the limit: it is committed in one transaction, and then each of its events
      that is due reaches any subscriptions, up to as many as its type lists. */
  lemma BatchTick(s: System, n: nat, to: seq<set<SubId>>) returns (states: seq<System>)
    requires s.todo == [] && 1 <= n <= |s.queue| && n <= 1000
    requires var sent := ProcessBatch(s.d, s.now, s.t, s.queue[..n]).dispatched;
      |to| == |sent| && forall i :: 0 <= i < |to| ==> |to[i]| <= Count(s.d, sent[i].typeId)
    ensures Run(states, [CommitBatch(n)] + Dispatches(to)) && states[0] == s
    ensures var outcome, u := ProcessBatch(s.d, s.now, s.t, s.queue[..n]), states[|to| + 1];
      && u.t == outcome.tables && u.queue == s.queue[n..] && u.todo == [] && u.acks == s.acks
      && u.holders == s.holders + CopiesMade(outcome.dispatched, to)
  {
    hide Follows, ProcessBatch, CopiesMade;
    var b := AfterBatch(s, n);
    BatchFollows(s, n);
    var rest := DispatchesAll(b, to);
    states := [s] + rest;
    RunCons(s, CommitBatch(n), rest, Dispatches(to));
  }

  lemma BatchFollows(s: System, n: nat)
    requires s.todo == [] && 1 <= n <= |s.queue| && n <= 1000
    ensures Follows(s, CommitBatch(n), AfterBatch(s, n))
    ensures var outcome, b := ProcessBatch(s.d, s.now, s.t, s.queue[..n]), AfterBatch(s, n);
      b == s.(t := outcome.tables, queue := s.queue[n..], todo := outcome.dispatched, written := b.written)
  {
    hide ProcessBatch;
    assert [] + ProcessBatch(s.d, s.now, s.t, s.queue[..n]).dispatched
      == ProcessBatch(s.d, s.now, s.t, s.queue[..n]).dispatched;
  }

  /** Any handler can finish its copy with either verdict, and the acknowledgement with this verdict is what
      the tables get. */
  lemma VerdictTick(s: System, copy: Copy, success: bool) returns (states: seq<System>)
    requires s.acks == [] && copy in s.holders && copy.id in s.copies
    ensures Run(states, [FinishCopy(copy, success), CommitAck]) && states[0] == s
    ensures states[2].t == Ack(s.t, AckMessage(copy.id, success))
    ensures states[2] == s.(t := states[2].t, copies := s.copies - multiset{copy.id},
      holders := s.holders - multiset{copy})
  {
    var u := AfterFinish(s, copy, success);
    states := [s, u, AfterAck(u)];
    assert Follows(s, FinishCopy(copy, success), u) && Follows(u, CommitAck, states[2]);
    assert u.acks == [AckMessage(copy.id, success)] && u.acks[1..] == [];
  }

  // ---------- The scheduler ----------

  lemma SendFollows(s: System)
    requires s.ready != [] && |s.queue| + |s.ready| <= s.capacity
    ensures Follows(s, SendDue, SendNext(s))
    ensures var u := SendNext(s);
      && u == s.(ready := s.ready[1..], queue := s.queue + SentFor(s.d)(s.ready[0]), pulled := u.pulled)
      && |u.queue| + |u.ready| <= u.capacity
  {
  }

  lemma {:induction false} Sends(s: System) returns (states: seq<System>)
    requires |s.queue| + |s.ready| <= s.capacity
    ensures Run(states, Times(SendDue, |s.ready|)) && states[0] == s
    ensures var u := states[|s.ready|];
      u == s.(ready := [], queue := s.queue + FlatMap(s.ready, SentFor(s.d)), pulled := u.pulled)
    decreases |s.ready|
  {
    hide Follows, SendNext, SentFor, Restore, Strip, Replayable;
    if s.ready == [] {
      states := [s];
      assert s.queue + [] == s.queue;
    } else {
      var u := SendNext(s);
      SendFollows(s);
      var rest := Sends(u);
      states := [s] + rest;
      RunCons(s, SendDue, rest, Times(SendDue, |u.ready|));
      TimesCons(SendDue, |s.ready|);
      FlatMapFirst(s.ready, SentFor(s.d));
      assert s.queue + SentFor(s.d)(s.ready[0]) + FlatMap(u.ready, SentFor(s.d))
        == s.queue + (SentFor(s.d)(s.ready[0]) + FlatMap(u.ready, SentFor(s.d)));
    }
  }

  /** A tick of the scheduler, with room in the queue: the due rows leave the table and go to the queue in
      order, those with subscribers, without their delivery time. This is what `PullScheduled` and
      `SendReady` do. */
  lemma ScheduleTick(s: System, keys: seq<RowKey>) returns (states: seq<System>)
    requires s.ready == [] && |s.queue| + |keys| <= s.capacity
    requires Lists(keys, DueKeys(s.t.scheduled, Millis(s.now)), ByDue()) && InTable(keys, s.t.scheduled)
    ensures Run(states, [PullDue(keys)] + Times(SendDue, |keys|)) && states[0] == s
    ensures var u := states[|keys| + 1];
      && u.t == s.t.(scheduled := s.t.scheduled - DueKeys(s.t.scheduled, Millis(s.now)))
      && u.queue == s.queue + FlatMap(Rows(s.t.scheduled, keys), SentFor(s.d))
      && u == s.(t := u.t, queue := u.queue, pulled := u.pulled)
  {
    hide Follows;
    var p := AfterPull(s, keys);
    PullFollows(s, keys);
    var rest := Sends(p);
    states := [s] + rest;
    RunCons(s, PullDue(keys), rest, Times(SendDue, |keys|));
  }

  lemma PullFollows(s: System, keys: seq<RowKey>)
    requires s.ready == [] && InTable(keys, s.t.scheduled)
    requires Lists(keys, DueKeys(s.t.scheduled, Millis(s.now)), ByDue())
    ensures Follows(s, PullDue(keys), AfterPull(s, keys))
  {
  }

  // ---------- The replay of pending rows ----------

  /** The events of the rows whose type has no subscribers. */
  function Unheard(d: Directory, rows: seq<PersistedEnvelope>): set<EventId> {
    set i | 0 <= i < |rows| && Replayable(d, rows[i]).None? :: RowId(rows[i])
  }

  lemma UnheardFirst(d: Directory, rows: seq<PersistedEnvelope>)
    requires rows != []
    ensures Unheard(d, rows)
      == (if Replayable(d, rows[0]).None? then {RowId(rows[0])} else {}) + Unheard(d, rows[1..])
  {
    forall id | id in Unheard(d, rows)
      ensures id in (if Replayable(d, rows[0]).None? then {RowId(rows[0])} else {}) + Unheard(d, rows[1..])
    {
      var i :| 0 <= i < |rows| && Replayable(d, rows[i]).None? && RowId(rows[i]) == id;
      assert i > 0 ==> rows[1..][i - 1] == rows[i];
    }
    forall id | id in Unheard(d, rows[1..]) ensures id in Unheard(d, rows) {
      var i :| 0 <= i < |rows[1..]| && Replayable(d, rows[1..][i]).None? && RowId(rows[1..][i]) == id;
      assert rows[i + 1] == rows[1..][i];
    }
  }

  lemma ReplayFollows(s: System)
    requires s.rest != [] && |s.queue| + |s.rest| <= s.capacity
    ensures Follows(s, ReplayRow, ReplayNext(s))
    ensures var u := ReplayNext(s); var row := s.rest[0];
      && u == s.(rest := s.rest[1..], queue := s.queue + RestoredFor(s.d)(row),
                 dead := s.dead + (if Replayable(s.d, row).None? then {RowId(row)} else {}))
      && |u.queue| + |u.rest| <= u.capacity
  {
  }

  lemma {:induction false} Replays(s: System) returns (states: seq<System>)
    requires |s.queue| + |s.rest| <= s.capacity
    ensures Run(states, Times(ReplayRow, |s.rest|)) && states[0] == s
    ensures states[|s.rest|] == s.(rest := [], queue := s.queue + FlatMap(s.rest, RestoredFor(s.d)),
      dead := s.dead + Unheard(s.d, s.rest))
    decreases |s.rest|
  {
    hide Follows, ReplayNext, Unheard;
    if s.rest == [] {
      states := [s];
      assert s.queue + [] == s.queue;
      NobodyUnheard(s.d);
    } else {
      var u := ReplayNext(s);
      ReplayFollows(s);
      var rest := Replays(u);
      states := [s] + rest;
      RunCons(s, ReplayRow, rest, Times(ReplayRow, |u.rest|));
      TimesCons(ReplayRow, |s.rest|);
      FlatMapFirst(s.rest, RestoredFor(s.d));
      UnheardFirst(s.d, s.rest);
      assert s.queue + RestoredFor(s.d)(s.rest[0]) + FlatMap(u.rest, RestoredFor(s.d))
        == s.queue + (RestoredFor(s.d)(s.rest[0]) + FlatMap(u.rest, RestoredFor(s.d)));
    }
  }

  lemma NobodyUnheard(d: Directory)
    ensures Unheard(d, []) == {}
  {
  }

  /** A replay of pending rows, with room in the queue: every row whose type has subscribers goes to the
      queue as it is, in order, and stays; the others leave the tables with their counts. This is what
      `ReplayPending` does. */
  lemma PendingTick(s: System, order: seq<EventId>) returns (states: seq<System>)
    requires s.rest == [] && s.dead == {} && |s.queue| + |order| <= s.capacity
    requires Lists(order, s.t.events.Keys, ById()) && InTable(order, s.t.events)
    requires Steady(s)
    ensures Run(states, [BeginReplay(order)] + Times(ReplayRow, |order|) + [EndReplay]) && states[0] == s
    ensures var u := states[|order| + 2];
      && u.t == Collected(s.d, s.t)
      && u.queue == s.queue + FlatMap(Rows(s.t.events, order), RestoredFor(s.d))
      && u == s.(t := u.t, queue := u.queue, doubled := u.doubled)
  {
    hide Follows, Steady, Unheard, AfterReplay, AfterBeginReplay, Collected;
    var b := AfterBeginReplay(s, order);
    BeginFollows(s, order);
    var rows := Replays(b);
    var e := rows[|order|];
    RunCons(s, BeginReplay(order), rows, Times(ReplayRow, |order|));
    EndFollows(e);
    states := [s] + rows + [AfterReplay(e)];
    RunSnoc([s] + rows, [BeginReplay(order)] + Times(ReplayRow, |order|), EndReplay, AfterReplay(e));
    UnheardIsDead(s, order);
    CollectsDead(s, e, order);
  }

  lemma BeginFollows(s: System, order: seq<EventId>)
    requires s.rest == [] && s.dead == {} && Lists(order, s.t.events.Keys, ById()) && InTable(order, s.t.events)
    requires Steady(s)
    ensures Follows(s, BeginReplay(order), AfterBeginReplay(s, order))
    ensures var b := AfterBeginReplay(s, order);
      b == s.(rest := Rows(s.t.events, order), doubled := b.doubled) && |b.rest| == |order|
  {
    RowsCounted(s);
  }

  lemma EndFollows(s: System)
    requires s.rest == []
    ensures Follows(s, EndReplay, AfterReplay(s))
  {
  }

  lemma UnheardIsDead(s: System, order: seq<EventId>)
    requires Lists(order, s.t.events.Keys, ById()) && InTable(order, s.t.events)
    requires Steady(s)
    ensures Unheard(s.d, Rows(s.t.events, order)) == DeadRows(s.d, s.t)
  {
    var rows := Rows(s.t.events, order);
    assert forall i :: 0 <= i < |order| ==> RowId(rows[i]) == order[i];
    forall id | id in DeadRows(s.d, s.t) ensures id in Unheard(s.d, rows) {
      assert id in order;
      var i :| 0 <= i < |order| && order[i] == id;
      assert RowId(rows[i]) == id;
    }
  }

  lemma CollectsDead(s: System, e: System, order: seq<EventId>)
    requires e.t == s.t && e.dead == DeadRows(s.d, s.t)
    ensures AfterReplay(e).t == Collected(s.d, s.t)
    ensures AfterReplay(e) == e.(t := AfterReplay(e).t, dead := {})
  {
  }

  // ---------- The replay of dead letters ----------

  lemma {:induction false} KnownRowsFirst(d: Directory, rows: seq<PersistedEnvelope>)
    requires rows != []
    ensures KnownRows(d, rows)
      == (if rows[0].typeName in d.names then [Restore(d.names[rows[0].typeName], rows[0])] else [])
         + KnownRows(d, rows[1..])
  {
    var n := |rows| - 1;
    if n > 0 {
      KnownRowsFirst(d, rows[..n]);
      assert rows[..n][1..] == rows[1..][..n - 1] && rows[1..][n - 1] == rows[n];
    }
  }

  function UpTo(es: seq<Envelope>, room: nat): seq<Envelope> { es[..if room < |es| then room else |es|] }

  lemma LetterFollows(s: System)
    requires s.letters != [] && |s.queue| <= s.capacity
    ensures Follows(s, SendLetter(0), LetterNext(s, 0))
    ensures var u := LetterNext(s, 0); var row := s.letters[0];
      && u.letters == s.letters[1..] && |u.queue| <= u.capacity && u == s.(letters := u.letters, queue := u.queue)
      && u.queue == s.queue + (if row.typeName in s.d.names && |s.queue| < s.capacity
                               then [Restore(s.d.names[row.typeName], row)] else [])
  {
    assert s.letters[..0] + s.letters[1..] == s.letters[1..];
  }

  lemma {:induction false} Letters(s: System) returns (states: seq<System>)
    requires |s.queue| <= s.capacity
    ensures Run(states, Times(SendLetter(0), |s.letters|)) && states[0] == s
    ensures states[|s.letters|] == s.(letters := [],
      queue := s.queue + UpTo(KnownRows(s.d, s.letters), s.capacity - |s.queue|))
    decreases |s.letters|
  {
    hide Follows, LetterNext, KnownRows;
    if s.letters == [] {
      states := [s];
      NothingKnown(s.d);
      assert s.queue + [] == s.queue;
    } else {
      var u := LetterNext(s, 0);
      LetterFollows(s);
      var rest := Letters(u);
      states := [s] + rest;
      RunCons(s, SendLetter(0), rest, Times(SendLetter(0), |u.letters|));
      TimesCons(SendLetter(0), |s.letters|);
      KnownRowsFirst(s.d, s.letters);
      OfferFirst(s, u);
    }
  }

  lemma NothingKnown(d: Directory)
    ensures KnownRows(d, []) == []
  {
  }

  lemma OfferFirst(s: System, u: System)
    requires s.letters != [] && |s.queue| <= s.capacity == u.capacity && u.d == s.d && u.letters == s.letters[1..]
    requires var row := s.letters[0];
      && u.queue == s.queue + (if row.typeName in s.d.names && |s.queue| < s.capacity
                               then [Restore(s.d.names[row.typeName], row)] else [])
      && KnownRows(s.d, s.letters)
         == (if row.typeName in s.d.names then [Restore(s.d.names[row.typeName], row)] else [])
            + KnownRows(s.d, u.letters)
    ensures u.queue + UpTo(KnownRows(s.d, u.letters), u.capacity - |u.queue|)
      == s.queue + UpTo(KnownRows(s.d, s.letters), s.capacity - |s.queue|)
  {
    hide KnownRows;
    var row, after := s.letters[0], KnownRows(s.d, u.letters);
    if row.typeName in s.d.names {
      var e := Restore(s.d.names[row.typeName], row);
      if |s.queue| < s.capacity {
        assert UpTo([e] + after, s.capacity - |s.queue|) == [e] + UpTo(after, s.capacity - |s.queue| - 1);
        assert s.queue + [e] + UpTo(after, u.capacity - |u.queue|)
          == s.queue + ([e] + UpTo(after, u.capacity - |u.queue|));
      } else {
        assert UpTo(after, 0) == [] == UpTo([e] + after, 0);
        assert s.queue + [] == s.queue;
      }
    } else {
      assert [] + after == after;
      assert s.queue + [] == s.queue;
    }
  }

  /** A replay of dead letters: the table is emptied, and the rows of known types go to the queue as they
      are, in order, as far as there is room. This is what `ReplayDlq` does. */
  lemma LetterTick(s: System, order: seq<EventId>) returns (states: seq<System>)
    requires s.letters == [] && |s.queue| <= s.capacity
    requires Lists(order, s.t.dlq.Keys, ById()) && InTable(order, s.t.dlq)
    ensures Run(states, [BeginLetters(order)] + Times(SendLetter(0), |order|)) && states[0] == s
    ensures var u := states[|order| + 1];
      && u.t == s.t.(dlq := map[])
      && u.queue == s.queue + UpTo(KnownRows(s.d, Rows(s.t.dlq, order)), s.capacity - |s.queue|)
      && u == s.(t := u.t, queue := u.queue)
  {
    hide Follows, KnownRows;
    var b := AfterBeginLetters(s, order);
    LettersFollow(s, order);
    var rest := Letters(b);
    states := [s] + rest;
    RunCons(s, BeginLetters(order), rest, Times(SendLetter(0), |order|));
  }

  /** Replays of dead letters may overlap: one can begin while letters of another are still on their way, and
      any of all these letters can be the next to be offered. */
  lemma LettersOverlap(s: System, order: seq<EventId>, k: nat) returns (states: seq<System>)
    requires Lists(order, s.t.dlq.Keys, ById()) && InTable(order, s.t.dlq) && k < |s.letters| + |order|
    ensures Run(states, [BeginLetters(order), SendLetter(k)]) && states[0] == s
    ensures var all := s.letters + Rows(s.t.dlq, order);
      && states[2].t == s.t.(dlq := map[]) && states[2].letters == all[..k] + all[k + 1..]
      && states[2].queue == s.queue + (if all[k].typeName in s.d.names && |s.queue| < s.capacity
                                       then [Restore(s.d.names[all[k].typeName], all[k])] else [])
  {
    var b := AfterBeginLetters(s, order);
    states := [s, b, LetterNext(b, k)];
    assert Follows(s, BeginLetters(order), b) && Follows(b, SendLetter(k), states[2]);
  }

  lemma LettersFollow(s: System, order: seq<EventId>)
    requires s.letters == [] && Lists(order, s.t.dlq.Keys, ById()) && InTable(order, s.t.dlq)
    ensures Follows(s, BeginLetters(order), AfterBeginLetters(s, order))
    ensures AfterBeginLetters(s, order) == s.(letters := Rows(s.t.dlq, order), t := s.t.(dlq := map[]))
  {
    assert [] + Rows(s.t.dlq, order) == Rows(s.t.dlq, order);
  }
}
