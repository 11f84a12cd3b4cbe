/** Which acknowledgements make dead letters: an event becomes one exactly when the last acknowledgement it
    is owed reports a failure, and the handler that sent it failed. */
module OutboxLetters {
  import opened Events
  import opened OutboxTables
  import opened OutboxStore
  import opened OutboxProtocol
  import opened OutboxRuns

  /** The acknowledgements committed in a stretch. */
  function AcksTaken(steps: seq<Step>, i: nat, j: nat): nat
    requires i <= j <= |steps|
  {
    if i == j then 0 else AcksTaken(steps, i, j - 1) + if steps[j - 1].CommitAck? then 1 else 0
  }

  /** The m-th step is a handler finishing its copy; its acknowledgement has the place `pos` in the channel
      at the i-th state: it was put at the end, and since then nothing but commits has taken it further. */
  ghost predicate Sent(states: seq<System>, steps: seq<Step>, m: nat, i: nat, pos: nat) {
    m < i <= |steps| < |states| && steps[m].FinishCopy? && (forall x :: m < x < i ==> !steps[x].Crash?)
    && |states[m].acks| == pos + AcksTaken(steps, m + 1, i)
  }

  /** The channel of acknowledgements after a step. */
  lemma AcksNext(s: System, step: Step)
    requires Enabled(s, step)
    ensures Next(s, step).acks ==
      match step
      case FinishCopy(copy, success) => s.acks + [AckMessage(copy.id, success)]
      case CommitAck => if s.acks == [] then [] else s.acks[1..]
      case Crash(_) => []
      case _ => s.acks
    ensures step.CommitAck? ==> s.acks != []
  {
    hide Enabled, Next, Held, Working;
    EnabledHandlers(s, step);
  }

  /** Every acknowledgement in the channel was sent by a handler that finished a copy, with its verdict. */
  lemma {:induction false} AckFrom(states: seq<System>, steps: seq<Step>, i: nat, pos: nat) returns (m: nat)
    requires Run(states, steps) && Initial(states[0]) && i < |states| && pos < |states[i].acks|
    ensures Sent(states, steps, m, i, pos)
    ensures states[i].acks[pos] == AckMessage(steps[m].copy.id, steps[m].success)
  {
    hide Enabled, Next;
    assert i > 0;
    assert Follows(states[i - 1], steps[i - 1], states[i]);
    AcksNext(states[i - 1], steps[i - 1]);
    if steps[i - 1].FinishCopy? && pos == |states[i - 1].acks| {
      m := i - 1;
    } else {
      m := AckFrom(states, steps, i - 1, if steps[i - 1].CommitAck? then pos + 1 else pos);
    }
  }

  /** And the one that a handler sent is found at its place. */
  lemma {:induction false} SentIs(states: seq<System>, steps: seq<Step>, m: nat, i: nat, pos: nat)
    requires Run(states, steps) && Sent(states, steps, m, i, pos)
    ensures pos < |states[i].acks| && states[i].acks[pos] == AckMessage(steps[m].copy.id, steps[m].success)
  {
    hide Enabled, Next;
    assert Follows(states[i - 1], steps[i - 1], states[i]);
    AcksNext(states[i - 1], steps[i - 1]);
    if m < i - 1 {
      SentIs(states, steps, m, i - 1, if steps[i - 1].CommitAck? then pos + 1 else pos);
    }
  }

  /** How the dead letters change in a step. */
  lemma LettersNext(s: System, step: Step, id: EventId)
    requires Enabled(s, step) && Counted(s.t)
    ensures id in Next(s, step).t.dlq <==>
      || (id in s.t.dlq && !step.BeginLetters?)
      || (Acks(s, step, id) && Owed(s.t, id) == 1 && !s.acks[0].success)
  {
    hide Enabled, Next, Held, Working;
    EnabledHandlers(s, step);
    match step
    case CommitBatch(n) =>
      CommitNext(s, n);
      LettersSpared(s, n);
    case Dispatch(_) | FinishCopy(_, _) | DropCopy(_) | CommitAck | EndReplay | Rewire(_) | Tick(_) | Crash(_) =>
    case _ => LettersMoved(s, step);
  }

  lemma LettersSpared(s: System, n: nat)
    requires n <= |s.queue|
    ensures AfterBatch(s, n).t.dlq == s.t.dlq
  {
    DlqSpared(s.d, s.now, s.t, s.queue[..n]);
  }

  lemma LettersMoved(s: System, step: Step)
    requires Enabled(s, step)
    requires step.Publish? || step.PullDue? || step.SendDue? || step.BeginReplay? || step.ReplayRow?
      || step.BeginLetters? || step.SendLetter?
    ensures Next(s, step).t.dlq == if step.BeginLetters? then map[] else s.t.dlq
  {
    hide Enabled, Held, Working, Rows, Overtaken, AfterBatch;
  }

  /** An event becomes a dead letter only as the last acknowledgement it is owed is committed, and the
      handler that sent this one failed. */
  lemma LettersFail(states: seq<System>, steps: seq<Step>, i: nat, id: EventId) returns (m: nat)
    requires Run(states, steps) && Initial(states[0]) && i < |steps|
    requires id !in states[i].t.dlq && id in states[i + 1].t.dlq
    ensures steps[i].CommitAck? && Owed(states[i].t, id) == 1
    ensures Sent(states, steps, m, i, 0) && steps[m].copy.id == id && !steps[m].success
  {
    hide Enabled, Next, Sent;
    CountedRuns(states, steps, i);
    assert Follows(states[i], steps[i], states[i + 1]);
    LettersNext(states[i], steps[i], id);
    m := AckFrom(states, steps, i, 0);
    assert Sent(states, steps, m, i, 0);
  }

  /** As the last acknowledgement a row is owed is committed, the event becomes a dead letter, with the
      row's payload and metadata, exactly when the handler that sent it failed. */
  lemma LastVerdictDecides(states: seq<System>, steps: seq<Step>, m: nat, i: nat)
    requires Run(states, steps) && Initial(states[0]) && i < |steps| && steps[i].CommitAck?
    requires Sent(states, steps, m, i, 0) && Owed(states[i].t, steps[m].copy.id) == 1
    ensures var id := steps[m].copy.id;
      && id in states[i].t.events && id !in states[i + 1].t.events
      && (id in states[i + 1].t.dlq <==> id in states[i].t.dlq || !steps[m].success)
      && (id !in states[i].doubled ==> (id in states[i + 1].t.dlq <==> !steps[m].success))
      && (!steps[m].success ==>
            id in states[i + 1].t.dlq && states[i + 1].t.dlq[id] == states[i].t.events[id])
  {
    hide Enabled, Next;
    var s, id := states[i], steps[m].copy.id;
    CountedRuns(states, steps, i);
    SentIs(states, steps, m, i, 0);
    assert Follows(s, steps[i], states[i + 1]);
    EnabledHandlers(s, steps[i]);
    LettersNext(s, steps[i], id);
    if id !in s.doubled {
      TablesFit(states, steps, i);
    }
  }

  /** An event all of whose handlers succeed is never a dead letter, in any run. */
  lemma {:induction false} SuccessLeavesNone(states: seq<System>, steps: seq<Step>, j: nat, id: EventId)
    requires Run(states, steps) && Initial(states[0]) && j < |states|
    requires forall m :: 0 <= m < j && steps[m].FinishCopy? && steps[m].copy.id == id ==> steps[m].success
    ensures id !in states[j].t.dlq
  {
    if j > 0 {
      SuccessLeavesNone(states, steps, j - 1, id);
      if id in states[j].t.dlq {
        var m := LettersFail(states, steps, j - 1, id);
      }
    }
  }
}
