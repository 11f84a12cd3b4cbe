/** What holds of a circuit breaker over any sequence of calls. */
module CircuitRuns {
  import opened Events
  import opened Retry
  import opened CircuitBreakers

  /** A threshold of zero acts like one of one. */
  function AtLeastOne(n: nat): nat { if n == 0 then 1 else n }

  /** The call starts the failure count again: a success counted while the circuit is closed, or
      the last success that a half-open circuit needs. */
  ghost predicate Resets(l: Limits, calls: seq<Call>)
    requires calls != []
  {
    var b, call := Run(l, calls[..|calls| - 1]), calls[|calls| - 1];
    Consults(l, b, call) && !call.innerRetries && Step(l, b, call).state.Closed?
  }

  /** Failures recorded since the last reset, without any wrap-around. */
  ghost function FailuresSince(l: Limits, calls: seq<Call>): nat {
    if calls == [] then 0
    else
      var before := FailuresSince(l, calls[..|calls| - 1]);
      if Resets(l, calls) then 0
      else if Fails(l, Run(l, calls[..|calls| - 1]), calls[|calls| - 1]) then before + 1
      else before
  }

  /** When the last failure was recorded. */
  ghost function LastFailure(l: Limits, calls: seq<Call>): Option<Nanos> {
    if calls == [] then None
    else if Fails(l, Run(l, calls[..|calls| - 1]), calls[|calls| - 1]) then Some(calls[|calls| - 1].now)
    else LastFailure(l, calls[..|calls| - 1])
  }

  /** Successes recorded since the circuit last turned half-open. */
  ghost function SuccessesSince(l: Limits, calls: seq<Call>): nat {
    if calls == [] then 0
    else
      var n := |calls| - 1;
      var b := Run(l, calls[..n]);
      if !StateAt(l, b, calls[n]).HalfOpen? then 0
      else (if b.state.HalfOpen? then SuccessesSince(l, calls[..n]) else 0)
           + (if calls[n].AskRetry? && !calls[n].innerRetries then 1 else 0)
  }

  /** While the circuit is half-open, its second counter is the number of successes since it became so. */
  lemma {:induction false} SuccessesCount(l: Limits, calls: seq<Call>)
    ensures Run(l, calls).state.HalfOpen? ==>
      Run(l, calls).successes == SuccessesSince(l, calls) < AtLeastOne(l.successThreshold)
  {
    if calls != [] {
      var n := |calls| - 1;
      SuccessesCount(l, calls[..n]);
      Reachable(l, calls[..n]);
      Reachable(l, calls);
    }
  }

  lemma BumpCounts(n: nat)
    ensures Bump(n % U32_LIMIT) == (n + 1) % U32_LIMIT
  {
    if n % U32_LIMIT + 1 == U32_LIMIT {
      assert n + 1 == (n / U32_LIMIT + 1) * U32_LIMIT;
    } else {
      assert n + 1 == (n / U32_LIMIT) * U32_LIMIT + (n % U32_LIMIT + 1);
    }
  }

  /** How a state goes with the failures since the last reset and the time of the last failure. */
  ghost predicate Tracks(l: Limits, b: Breaker, count: nat, last: Option<Nanos>) {
    && b.failures == count % U32_LIMIT && b.lastFailure == last
    && (b.state.Closed? ==> count < AtLeastOne(l.failureThreshold))
    && (!b.state.Closed? ==> count >= AtLeastOne(l.failureThreshold) && last.Some?)
    && (b.state.HalfOpen? ==> b.successes < AtLeastOne(l.successThreshold))
  }

  lemma TracksStep(l: Limits, b: Breaker, count: nat, last: Option<Nanos>, call: Call)
    requires Tracks(l, b, count, last)
    ensures var resets := Consults(l, b, call) && !call.innerRetries && Step(l, b, call).state.Closed?;
      var fails := Fails(l, b, call);
      Tracks(l, Step(l, b, call), if resets then 0 else if fails then count + 1 else count,
        if fails then Some(call.now) else last)
  {
    BumpCounts(count);
    if count < AtLeastOne(l.failureThreshold) {
      NoWrap(count);
    }
  }

  lemma NoWrap(n: nat)
    requires n < U32_LIMIT
    ensures n % U32_LIMIT == n
  {
  }

  /** The invariant of every reachable state, against the history: the counter is the number of
      failures since the last reset, up to wrap-around. A closed circuit has fewer of them than the
      threshold, any other at least as many. */
  lemma {:induction false} Reachable(l: Limits, calls: seq<Call>)
    ensures Tracks(l, Run(l, calls), FailuresSince(l, calls), LastFailure(l, calls))
  {
    if calls != [] {
      hide Tracks;
      Reachable(l, calls[..|calls| - 1]);
      var before := calls[..|calls| - 1];
      TracksStep(l, Run(l, before), FailuresSince(l, before), LastFailure(l, before), calls[|calls| - 1]);
    }
  }

  /** A failure opens a closed circuit exactly when it is the threshold-th since the last reset. */
  lemma OpensAtThreshold(l: Limits, calls: seq<Call>, call: Call)
    requires Run(l, calls).state.Closed? && Fails(l, Run(l, calls), call)
    ensures Run(l, calls + [call]).state ==
      if FailuresSince(l, calls) + 1 == AtLeastOne(l.failureThreshold) then Open else Closed
    ensures FailuresSince(l, calls + [call]) == FailuresSince(l, calls) + 1
  {
    Reachable(l, calls);
    Reachable(l, calls + [call]);
    assert (calls + [call])[..|calls|] == calls;
  }

  lemma RunStep(l: Limits, calls: seq<Call>, call: Call)
    ensures Run(l, calls + [call]) == Step(l, Run(l, calls), call)
  {
    assert (calls + [call])[..|calls|] == calls;
  }

  /** The state in which a call is counted: a retry question looks at the clock first. */
  function StateAt(l: Limits, b: Breaker, call: Call): CircuitState {
    if call.AskRetry? then AfterCheck(l, b, call.now).state else b.state
  }

  lemma ReopenStep(l: Limits, b: Breaker, count: nat, last: Option<Nanos>, call: Call)
    requires Tracks(l, b, count, last) && Fails(l, b, call) && StateAt(l, b, call).HalfOpen?
    ensures Step(l, b, call).state == if (count + 1) % U32_LIMIT >= l.failureThreshold then Open else HalfOpen
    ensures count + 1 < U32_LIMIT ==> Step(l, b, call).state == Open
  {
    BumpCounts(count);
    if count + 1 < U32_LIMIT {
      NoWrap(count + 1);
    }
  }

  /** One failure of either kind reopens a half-open circuit, unless it makes the wrapped counter fall
      short of the threshold: that takes more than four billion failures without a reset. */
  lemma ReopensUnlessWrapped(l: Limits, calls: seq<Call>, call: Call)
    requires Fails(l, Run(l, calls), call) && StateAt(l, Run(l, calls), call).HalfOpen?
    ensures Run(l, calls + [call]).state ==
      if (FailuresSince(l, calls) + 1) % U32_LIMIT >= l.failureThreshold then Open else HalfOpen
    ensures FailuresSince(l, calls) + 1 < U32_LIMIT ==> Run(l, calls + [call]).state == Open
  {
    hide Run, FailuresSince, LastFailure, Tracks;
    Reachable(l, calls);
    RunStep(l, calls, call);
    ReopenStep(l, Run(l, calls), FailuresSince(l, calls), LastFailure(l, calls), call);
  }

  /** A half-open circuit closes exactly with the success that reaches the success threshold. */
  lemma ClosesAtThreshold(l: Limits, calls: seq<Call>, call: Call)
    requires call.AskRetry? && !call.innerRetries
    requires AfterCheck(l, Run(l, calls), call.now).state.HalfOpen?
    ensures var successes := AfterCheck(l, Run(l, calls), call.now).successes;
      Run(l, calls + [call]).state == if successes + 1 == AtLeastOne(l.successThreshold) then Closed else HalfOpen
    ensures Run(l, calls + [call]).state ==
      if SuccessesSince(l, calls + [call]) == AtLeastOne(l.successThreshold) then Closed else HalfOpen
  {
    SuccessesCount(l, calls);
    Reachable(l, calls);
    assert (calls + [call])[..|calls|] == calls;
  }

  /** An open circuit lets no question through until the timeout has passed since the last failure
      of the whole history, and lets the first one after that through. */
  lemma OpenShieldsInner(l: Limits, calls: seq<Call>, call: Call)
    requires Run(l, calls).state.Open? && call.AskRetry?
    ensures LastFailure(l, calls).Some?
    ensures Consults(l, Run(l, calls), call) <==> call.now >= LastFailure(l, calls).value + l.timeout
    ensures !Consults(l, Run(l, calls), call) ==> Run(l, calls + [call]) == Run(l, calls)
  {
    Reachable(l, calls);
    assert (calls + [call])[..|calls|] == calls;
  }

  /** A message that fails for good: the wrapped policy allows some retries, then refuses one, and the
      failure is reported. */
  datatype Message = Message(retries: seq<Nanos>, refused: Nanos, failed: Nanos)

  function Asks(times: seq<Nanos>): seq<Call> {
    seq(|times|, i requires 0 <= i < |times| => AskRetry(times[i], true))
  }

  function CallsOf(m: Message): seq<Call> {
    Asks(m.retries) + [AskRetry(m.refused, false)] + [PermanentFailure(m.failed)]
  }

  ghost function Exhausted(messages: seq<Message>): seq<Call> {
    if messages == [] then [] else Exhausted(messages[..|messages| - 1]) + CallsOf(messages[|messages| - 1])
  }

  ghost predicate StaysClosed(l: Limits, calls: seq<Call>) {
    forall n :: 0 <= n <= |calls| ==> Run(l, calls[..n]).state.Closed?
  }

  lemma ClosedConcat(l: Limits, xs: seq<Call>, ys: seq<Call>)
    ensures StaysClosed(l, xs + ys) <==>
      StaysClosed(l, xs) && forall n :: 0 <= n <= |ys| ==> Run(l, xs + ys[..n]).state.Closed?
  {
    forall n | 0 <= n <= |xs + ys|
      ensures (xs + ys)[..n] == if n <= |xs| then xs[..n] else xs + ys[..n - |xs|]
    {
    }
    forall n | 0 <= n <= |ys| ensures (xs + ys)[..|xs| + n] == xs + ys[..n] {
    }
  }

  lemma ClosedPush(l: Limits, calls: seq<Call>, call: Call)
    ensures StaysClosed(l, calls + [call]) <==>
      StaysClosed(l, calls) && Step(l, Run(l, calls), call).state.Closed?
  {
    ClosedConcat(l, calls, [call]);
    RunStep(l, calls, call);
    assert calls + [call][..0] == calls && calls[..|calls|] == calls;
    assert [call][..1] == [call];
  }

  /** Retries of a closed circuit are counted one by one, and it stays closed as long as they do not
      reach the threshold. */
  lemma {:induction false} AsksCount(l: Limits, calls: seq<Call>, times: seq<Nanos>)
    requires StaysClosed(l, calls)
    ensures StaysClosed(l, calls + Asks(times)) <==>
      times == [] || Run(l, calls).failures + |times| < AtLeastOne(l.failureThreshold)
    ensures StaysClosed(l, calls + Asks(times)) ==>
      Run(l, calls + Asks(times)).failures == Run(l, calls).failures + |times|
  {
    assert calls[..|calls|] == calls;
    if times == [] {
      assert calls + Asks(times) == calls;
    } else {
      var n := |times| - 1;
      var before, call := calls + Asks(times[..n]), AskRetry(times[n], true);
      AsksCount(l, calls, times[..n]);
      assert calls + Asks(times) == before + [call];
      assert before[..|before|] == before;
      ClosedPush(l, before, call);
      RunStep(l, before, call);
    }
  }

  /** One message: its refusal starts the count again and its failure counts one. */
  lemma MessageCounts(l: Limits, calls: seq<Call>, m: Message)
    requires StaysClosed(l, calls)
    ensures StaysClosed(l, calls + CallsOf(m)) <==>
      && (m.retries == [] || Run(l, calls).failures + |m.retries| < AtLeastOne(l.failureThreshold))
      && 1 < AtLeastOne(l.failureThreshold)
    ensures StaysClosed(l, calls + CallsOf(m)) ==> Run(l, calls + CallsOf(m)).failures == 1
  {
    var asked := calls + Asks(m.retries);
    var refused := asked + [AskRetry(m.refused, false)];
    AsksCount(l, calls, m.retries);
    assert calls + CallsOf(m) == refused + [PermanentFailure(m.failed)];
    ClosedPush(l, asked, AskRetry(m.refused, false));
    RunStep(l, asked, AskRetry(m.refused, false));
    ClosedPush(l, refused, PermanentFailure(m.failed));
    RunStep(l, refused, PermanentFailure(m.failed));
    assert asked[..|asked|] == asked;
  }

  /** A refusal to retry counts as a success. So around a policy that allows the same number of retries
      for every message, while every message fails for good, the circuit is never opened exactly if
      the threshold exceeds what one message can add to the failure reported for the one before. */
  lemma {:induction false} FailingNeverOpens(l: Limits, messages: seq<Message>, r: nat)
    requires |messages| >= 2 && forall i :: 0 <= i < |messages| ==> |messages[i].retries| == r
    ensures StaysClosed(l, Exhausted(messages)) <==> l.failureThreshold > r + 1
    ensures StaysClosed(l, Exhausted(messages)) ==> Run(l, Exhausted(messages)).failures == 1
  {
    var n := |messages| - 1;
    var before := Exhausted(messages[..n]);
    if n == 1 {
      assert messages[..1][..0] == [] && Exhausted(messages[..1][..0]) == [];
      assert before == [] + CallsOf(messages[0]);
      FirstCloses(l, messages[0]);
    } else {
      FailingNeverOpens(l, messages[..n], r);
    }
    if StaysClosed(l, before) {
      MessageCounts(l, before, messages[n]);
    }
    ClosedConcat(l, before, CallsOf(messages[n]));
  }

  lemma FirstCloses(l: Limits, m: Message)
    ensures StaysClosed(l, [] + CallsOf(m)) <==>
      |m.retries| < AtLeastOne(l.failureThreshold) && 1 < AtLeastOne(l.failureThreshold)
    ensures StaysClosed(l, [] + CallsOf(m)) ==> Run(l, [] + CallsOf(m)).failures == 1
  {
    MessageCounts(l, [], m);
  }
}
