/** The circuit breaker: a retry policy that stops consulting the policy it wraps after too many failures. */
module CircuitBreakers {
  import opened Events
  import opened Retry

  datatype CircuitState = Closed | Open | HalfOpen

  datatype Limits = Limits(failureThreshold: U32, successThreshold: U32, timeout: Nanos)

  /** The counters and the circuit state at one moment. */
  datatype Breaker = Breaker(state: CircuitState, failures: U32, successes: U32, lastFailure: Option<Nanos>)

  /** One more on a counter that wraps. */
  function Bump(n: U32): U32 { if n + 1 == U32_LIMIT then 0 else n + 1 }

  const INITIAL := Breaker(Closed, 0, 0, None)

  function AfterCheck(l: Limits, b: Breaker, now: Nanos): Breaker {
    if b.state.Open? && b.lastFailure.Some? && now >= b.lastFailure.value + l.timeout
    then b.(state := HalfOpen, successes := 0) else b
  }

  function AfterSuccess(l: Limits, b: Breaker, now: Nanos): Breaker {
    var c := AfterCheck(l, b, now);
    match c.state
    case HalfOpen =>
      var n := Bump(c.successes);
      if n >= l.successThreshold then c.(state := Closed, successes := n, failures := 0) else c.(successes := n)
    case Closed => c.(failures := 0)
    case Open => c
  }

  function AfterFailure(l: Limits, b: Breaker, now: Nanos): Breaker {
    var n := Bump(b.failures);
    b.(failures := n, lastFailure := Some(now), state := if n >= l.failureThreshold then Open else b.state)
  }

  /** The two calls of the policy interface, with the time and, for a retry question, whether the
      wrapped policy would retry. A retry counts as a failure and a refusal to retry as a success. */
  datatype Call = AskRetry(now: Nanos, innerRetries: bool) | PermanentFailure(now: Nanos)

  /** The wrapped policy is consulted. */
  predicate Consults(l: Limits, b: Breaker, call: Call) {
    call.AskRetry? && !AfterCheck(l, b, call.now).state.Open?
  }

  predicate Fails(l: Limits, b: Breaker, call: Call) {
    call.PermanentFailure? || (Consults(l, b, call) && call.innerRetries)
  }

  function Step(l: Limits, b: Breaker, call: Call): Breaker {
    match call
    case PermanentFailure(now) => AfterFailure(l, b, now)
    case AskRetry(now, innerRetries) =>
      var c := AfterCheck(l, b, now);
      if c.state.Open? then c
      else if innerRetries then AfterFailure(l, c, now)
      else AfterSuccess(l, c, now)
  }

  ghost function Run(l: Limits, calls: seq<Call>): Breaker {
    if calls == [] then INITIAL else Step(l, Run(l, calls[..|calls| - 1]), calls[|calls| - 1])
  }

  class CircuitBreaker {
    const inner: Policy
    const limits: Limits
    var state: CircuitState
    var failureCount: U32
    var successCount: U32
    var lastFailure: Option<Nanos>

    function View(): Breaker
      reads this
    {
      Breaker(state, failureCount, successCount, lastFailure)
    }

    constructor (inner: Policy, limits: Limits)
      ensures View() == INITIAL && this.inner == inner && this.limits == limits
    {
      this.inner, this.limits := inner, limits;
      state, failureCount, successCount, lastFailure := Closed, 0, 0, None;
    }

    method CheckState(now: Nanos) returns (current: CircuitState)
      modifies this
      ensures View() == AfterCheck(limits, old(View()), now) && current == state
    {
      if state.Open? && lastFailure.Some? && now >= lastFailure.value + limits.timeout {
        state := HalfOpen;
        successCount := 0;
      }
      current := state;
    }

    method RecordSuccess(now: Nanos)
      modifies this
      ensures View() == AfterSuccess(limits, old(View()), now)
    {
      var current := CheckState(now);
      if current.HalfOpen? {
        successCount := Bump(successCount);
        if successCount >= limits.successThreshold {
          state := Closed;
          failureCount := 0;
        }
      } else if current.Closed? {
        failureCount := 0;
      }
    }

    method RecordFailure(now: Nanos)
      modifies this
      ensures View() == AfterFailure(limits, old(View()), now)
    {
      failureCount := Bump(failureCount);
      lastFailure := Some(now);
      if failureCount >= limits.failureThreshold {
        state := Open;
      }
    }

    /** The wrapped policy's advice, or to give up while the circuit is open. A panic in the wrapped
        policy leaves the counters alone. */
    method ShouldRetry(attempt: U32, draw: Jitter, mode: Overflow, now: Nanos) returns (advice: Advice)
      modifies this
      ensures var wrapped := Retry.ShouldRetry(inner, attempt, draw, mode);
        var checked := AfterCheck(limits, old(View()), now);
        if checked.state.Open? then advice == GiveUp && View() == checked
        else
          advice == wrapped
          && View() == if wrapped.Panics? then checked
                       else Step(limits, old(View()), AskRetry(now, wrapped.RetryAfter?))
    {
      var current := CheckState(now);
      if current.Open? {
        return GiveUp;
      }
      advice := Retry.ShouldRetry(inner, attempt, draw, mode);
      match advice {
        case RetryAfter(_) => RecordFailure(now);
        case GiveUp => RecordSuccess(now);
        case Panics =>
      }
    }

    method OnPermanentFailure(now: Nanos)
      modifies this
      ensures View() == Step(limits, old(View()), PermanentFailure(now))
    {
      RecordFailure(now);
    }
  }
}
