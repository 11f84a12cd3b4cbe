/** Scheduled events over whole runs: none is sent early, and none is scheduled twice. */
module OutboxScheduler {
  import opened Events
  import opened OutboxTables
  import opened OutboxStore
  import opened OutboxProtocol
  import opened OutboxSteady
  import opened OutboxRuns

  /** An event the scheduler has sent carries no delivery time any more. */
  predicate Bare(pulled: set<EventId>, m: Metadata) { m.eventId in pulled ==> m.deliverAt.None? }

  ghost predicate BareRows(pulled: set<EventId>, rows: seq<PersistedEnvelope>) {
    forall i :: 0 <= i < |rows| ==> Bare(pulled, rows[i].metadata)
  }

  ghost predicate BareQueue(pulled: set<EventId>, queue: seq<Envelope>) {
    forall i :: 0 <= i < |queue| ==> Bare(pulled, queue[i].metadata)
  }

  ghost predicate BareTable(pulled: set<EventId>, table: map<EventId, PersistedEnvelope>) {
    forall id :: id in table ==> Bare(pulled, table[id].metadata)
  }

  ghost predicate NeverAgain(s: System) {
    && s.pulled <= s.published.Keys
    && BareTable(s.pulled, s.t.events) && BareTable(s.pulled, s.t.dlq)
    && BareQueue(s.pulled, s.queue) && BareRows(s.pulled, s.rest) && BareRows(s.pulled, s.letters)
    && (forall k :: k in s.t.scheduled ==> k.id !in s.pulled)
    && (forall i :: 0 <= i < |s.ready| ==> RowId(s.ready[i]) !in s.pulled && Due(s.ready[i], s.now))
    && (forall i :: 0 <= i < |s.todo| ==> NotBefore(s.todo[i].metadata, s.now))
  }

  lemma SteadyNeverAgain(s: System)
    requires Steady(s)
    ensures NeverAgain(s)
  {
    forall id | id in s.t.events ensures Bare(s.pulled, s.t.events[id].metadata) {
      assert Settled(s, s.t.events[id]);
    }
    forall id | id in s.t.dlq ensures Bare(s.pulled, s.t.dlq[id].metadata) {
      assert Settled(s, s.t.dlq[id]);
    }
    forall i | 0 <= i < |s.queue| ensures Bare(s.pulled, s.queue[i].metadata) {
      assert IsVersion(s, Persist(s.queue[i]));
    }
    BareSettled(s, s.rest);
    BareSettled(s, s.letters);
    forall k | k in s.t.scheduled ensures k.id !in s.pulled {
      assert ScheduledWell(s, k);
    }
    forall i | 0 <= i < |s.ready| ensures RowId(s.ready[i]) !in s.pulled && Due(s.ready[i], s.now) {
      assert ReadyWell(s, s.ready[i]);
    }
  }

  lemma BareSettled(s: System, rows: seq<PersistedEnvelope>)
    requires SettledRows(s, rows)
    ensures BareRows(s.pulled, rows)
  {
    forall i | 0 <= i < |rows| ensures Bare(s.pulled, rows[i].metadata) {
      assert Settled(s, rows[i]);
    }
  }

  lemma ScheduledRuns(states: seq<System>, steps: seq<Step>, i: nat)
    requires Run(states, steps) && Initial(states[0]) && i < |states|
    ensures NeverAgain(states[i])
  {
    hide Steady, NeverAgain;
    SteadyRuns(states, steps, i);
    SteadyNeverAgain(states[i]);
  }

  /** In no run does the scheduler send an event a whole millisecond or more before it is due, and what it
      sends is what was published, only without the delivery time. */
  lemma NotSentEarly(states: seq<System>, steps: seq<Step>, i: nat)
    requires Run(states, steps) && Initial(states[0]) && i < |steps| && steps[i] == SendDue
    requires states[i].ready != [] && Replayable(states[i].d, states[i].ready[0]).Some?
    ensures states[i].ready[0].metadata.deliverAt.Some?
    ensures states[i].ready[0].metadata.deliverAt.value < states[i].now + 1_000_000
    ensures var s, row := states[i], states[i].ready[0];
      && Due(row, s.now) && RowId(row) in s.published && row == s.published[RowId(row)]
      && states[i + 1].queue == s.queue + [Restore(Replayable(s.d, row).value, Strip(row))]
      && RowId(row) in states[i + 1].pulled
  {
    SteadyRuns(states, steps, i);
    assert ReadyWell(states[i], states[i].ready[0]);
    assert Follows(states[i], steps[i], states[i + 1]);
    MillisBounds(states[i].ready[0].metadata.deliverAt.value);
    MillisBounds(states[i].now);
  }

  lemma {:induction false} PulledGrows(states: seq<System>, steps: seq<Step>, i: nat, j: nat)
    requires Run(states, steps) && i <= j < |states|
    ensures states[i].pulled <= states[j].pulled
  {
    if i < j {
      PulledGrows(states, steps, i, j - 1);
      assert Follows(states[j - 1], steps[j - 1], states[j]);
      PulledStep(states[j - 1], steps[j - 1]);
    }
  }

  lemma PulledStep(s: System, step: Step)
    requires Enabled(s, step)
    ensures s.pulled <= Next(s, step).pulled
  {
  }

  /** Once sent, an event is never scheduled again, not even after a crash and a replay. */
  lemma ScheduledOnce(states: seq<System>, steps: seq<Step>, i: nat, j: nat, id: EventId)
    requires Run(states, steps) && Initial(states[0]) && i <= j < |states| && id in states[i].pulled
    ensures forall k :: k in states[j].t.scheduled ==> k.id != id
    ensures forall n :: 0 <= n < |states[j].ready| ==> RowId(states[j].ready[n]) != id
  {
    ScheduledRuns(states, steps, j);
    PulledGrows(states, steps, i, j);
  }

  /** Whatever the worker dispatches is due, and is what was published but for the delivery time. */
  lemma NotDispatchedEarly(states: seq<System>, steps: seq<Step>, i: nat, to: set<SubId>)
    requires Run(states, steps) && Initial(states[0]) && i < |steps| && steps[i] == Dispatch(to)
    ensures states[i].todo != [] && NotBefore(states[i].todo[0].metadata, states[i].now)
    ensures AsPublished(states[i], states[i].todo[0])
  {
    SteadyRuns(states, steps, i);
    assert Follows(states[i], steps[i], states[i + 1]);
  }
}
