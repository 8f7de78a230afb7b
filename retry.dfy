/** Tool execution with the circuit breaker and the retry decorator of the
    tool-calling agent.  One attempt (the body of `execute_tool_with_retry`)
    checks the breaker, looks the tool up in its registry and runs it; the
    decorator repeats the attempt while it raises a retryable error, at most
    three times, and re-raises the last error.

    The tool itself is an oracle: `tool(a)` is what it does on attempt `a`
    (returns a text, or raises one of the three kinds of error).  The clock is
    two oracles: `probeClock(a)` is read by `is_open` and `failClock(a)` by
    `record_failure` during attempt `a`. */
module ToolRetry {
  import opened CircuitBreakers

  /** `stop_after_attempt(3)`. */
  const MaxAttempts: nat := 3

  /** The names in the tool table of `execute_tool_with_retry`. */
  const Registry: set<string> := {"get_weather", "query_database"}

  /** What a registered tool does when called. */
  datatype ToolOutcome =
    | Returned(text: string)
    | RaisedRetryable(message: string)
    | RaisedPermanent(message: string)
    | RaisedOther(message: string)

  /** What leaves `execute_tool_with_retry`: a string, or an exception that is
      a `RetryableError` or a `PermanentError`. */
  datatype Exit = Value(text: string) | Raised(retryable: bool, message: string)

  function UnavailableMessage(name: string): string
  {
    name + " is currently unavailable, please try again later"
  }

  function UnknownToolMessage(name: string): string
  {
    "Unknown tool: " + name
  }

  /** The outcome of one attempt, the breaker afterwards, and whether the tool
      was called. */
  datatype AttemptResult = AttemptResult(exit: Exit, breaker: Breaker, invoked: bool)

  /** One attempt: the body of `execute_tool_with_retry`. */
  function Attempt(b: Breaker, name: string, outcome: ToolOutcome, probeAt: int, failAt: int): AttemptResult
  {
    var (open, b1) := Probe(b, name, probeAt);
    if open then AttemptResult(Raised(false, UnavailableMessage(name)), b1, false)
    else if name !in Registry then AttemptResult(Raised(false, UnknownToolMessage(name)), b1, false)
    else match outcome
      case Returned(t) => AttemptResult(Value(t), Succeeded(b1, name), true)
      case RaisedRetryable(m) => AttemptResult(Raised(true, m), Failed(b1, name, failAt), true)
      case RaisedPermanent(m) => AttemptResult(Value("Error: " + m), b1, true)
      case RaisedOther(m) => AttemptResult(Value("Unexpected error: " + m), b1, true)
  }

  /** The outcome of the decorated call, the breaker afterwards, how many
      attempts were made and in how many of them the tool was called. */
  datatype Run = Run(exit: Exit, breaker: Breaker, attempts: nat, invocations: nat)

  predicate ShouldRetry(e: Exit)
  {
    e.Raised? && e.retryable
  }

  /** The attempts from number `a` on. */
  function RetryFrom(b: Breaker, name: string, tool: nat -> ToolOutcome,
                     probeClock: nat -> int, failClock: nat -> int, a: nat): Run
    requires a < MaxAttempts
    decreases MaxAttempts - a
  {
    var r := Attempt(b, name, tool(a), probeClock(a), failClock(a));
    var called := if r.invoked then 1 else 0;
    if ShouldRetry(r.exit) && a + 1 < MaxAttempts then
      var rest := RetryFrom(r.breaker, name, tool, probeClock, failClock, a + 1);
      Run(rest.exit, rest.breaker, rest.attempts + 1, rest.invocations + called)
    else
      Run(r.exit, r.breaker, 1, called)
  }

  /** `execute_tool_with_retry(name, arguments)` under `smart_retry`. */
  function Retry(b: Breaker, name: string, tool: nat -> ToolOutcome,
                 probeClock: nat -> int, failClock: nat -> int): Run
  {
    RetryFrom(b, name, tool, probeClock, failClock, 0)
  }

  // ===========================================================================
  // The attempt count
  // ===========================================================================

  lemma {:induction false} RetryFromBounds(b: Breaker, name: string, tool: nat -> ToolOutcome,
                                           probeClock: nat -> int, failClock: nat -> int, a: nat)
    requires a < MaxAttempts
    ensures var run := RetryFrom(b, name, tool, probeClock, failClock, a);
            1 <= run.attempts <= MaxAttempts - a && run.invocations <= run.attempts
            && (ShouldRetry(run.exit) ==> run.attempts == MaxAttempts - a)
    decreases MaxAttempts - a
  {
    var r := Attempt(b, name, tool(a), probeClock(a), failClock(a));
    if ShouldRetry(r.exit) && a + 1 < MaxAttempts {
      RetryFromBounds(r.breaker, name, tool, probeClock, failClock, a + 1);
    }
  }

  /** At least one and at most three attempts are made, the tool is called at
      most once per attempt, and a retryable error escapes only once all three
      attempts are used up. */
  lemma RetryBounds(b: Breaker, name: string, tool: nat -> ToolOutcome,
                    probeClock: nat -> int, failClock: nat -> int)
    ensures var run := Retry(b, name, tool, probeClock, failClock);
            1 <= run.attempts <= MaxAttempts && run.invocations <= run.attempts
            && (ShouldRetry(run.exit) ==> run.attempts == MaxAttempts)
  {
    RetryFromBounds(b, name, tool, probeClock, failClock, 0);
  }

  // ===========================================================================
  // A tool that always fails transiently
  // ===========================================================================

  lemma {:induction false} AlwaysRetryableFrom(b: Breaker, name: string, tool: nat -> ToolOutcome,
                                               probeClock: nat -> int, failClock: nat -> int, a: nat)
    requires a < MaxAttempts
    requires name in Registry && Tripped(b)
    requires forall i :: tool(i).RaisedRetryable?
    requires Count(b, name) + (MaxAttempts - 1 - a) < b.threshold
    ensures var run := RetryFrom(b, name, tool, probeClock, failClock, a);
            run.attempts == MaxAttempts - a && run.invocations == MaxAttempts - a
            && run.exit == Raised(true, tool(MaxAttempts - 1).message)
            && Count(run.breaker, name) == Count(b, name) + (MaxAttempts - a)
            && run.breaker.threshold == b.threshold
    decreases MaxAttempts - a
  {
    ClosedBelowThreshold(b, name, probeClock(a));
    var r := Attempt(b, name, tool(a), probeClock(a), failClock(a));
    assert r.breaker == Failed(b, name, failClock(a));
    if a + 1 < MaxAttempts {
      TrippedPreserved(b, name, failClock(a));
      AlwaysRetryableFrom(r.breaker, name, tool, probeClock, failClock, a + 1);
    }
  }

  /** A registered tool that raises a retryable error every time, on a
      service whose circuit stays closed, is called exactly three times; each
      attempt records one failure, and the last error is re-raised. */
  lemma AlwaysRetryable(b: Breaker, name: string, tool: nat -> ToolOutcome,
                        probeClock: nat -> int, failClock: nat -> int)
    requires name in Registry && Tripped(b)
    requires forall i :: tool(i).RaisedRetryable?
    requires Count(b, name) + (MaxAttempts - 1) < b.threshold
    ensures var run := Retry(b, name, tool, probeClock, failClock);
            run.attempts == MaxAttempts && run.invocations == MaxAttempts
            && run.exit == Raised(true, tool(MaxAttempts - 1).message)
            && Count(run.breaker, name) == Count(b, name) + MaxAttempts
  {
    AlwaysRetryableFrom(b, name, tool, probeClock, failClock, 0);
  }

  /** With the default threshold of five and three failures already counted,
      the second transient failure opens the circuit, and the third attempt,
      made within the cool-down, fails fast without calling the tool. */
  lemma CircuitOpensDuringRetries(name: string, tool: nat -> ToolOutcome,
                                  probeClock: nat -> int, failClock: nat -> int)
    requires name in Registry
    requires forall i :: tool(i).RaisedRetryable?
    requires probeClock(2) - failClock(1) <= DefaultTimeoutSeconds * MicrosPerSecond
    ensures var b := Breaker(DefaultFailureThreshold, DefaultTimeoutSeconds, map[name := 3], map[]);
            var run := Retry(b, name, tool, probeClock, failClock);
            run.attempts == 3 && run.invocations == 2
            && run.exit == Raised(false, UnavailableMessage(name))
            && run.breaker.failures[name] == 5 && run.breaker.openedAt[name] == failClock(1)
  {
    var b := Breaker(DefaultFailureThreshold, DefaultTimeoutSeconds, map[name := 3], map[]);
    var r0 := Attempt(b, name, tool(0), probeClock(0), failClock(0));
    assert r0.breaker.failures == map[name := 4] && r0.breaker.openedAt == map[];
    var r1 := Attempt(r0.breaker, name, tool(1), probeClock(1), failClock(1));
    assert r1.breaker.failures == map[name := 5] && r1.breaker.openedAt == map[name := failClock(1)];
  }

  // ===========================================================================
  // Cases that make exactly one attempt
  // ===========================================================================

  /** An open circuit fails fast with a permanent error: one attempt, the tool
      not called, the breaker unchanged. */
  lemma OpenCircuitFailsFast(b: Breaker, name: string, tool: nat -> ToolOutcome,
                             probeClock: nat -> int, failClock: nat -> int)
    requires name in b.openedAt && probeClock(0) - b.openedAt[name] <= Cooldown(b)
    ensures Retry(b, name, tool, probeClock, failClock) == Run(Raised(false, UnavailableMessage(name)), b, 1, 0)
  {
  }

  /** An unknown tool name raises a permanent error after one attempt without
      calling anything; no count changes (only an expired open marker of that
      name may have been cleared by the breaker check). */
  lemma UnknownToolFailsFast(b: Breaker, name: string, tool: nat -> ToolOutcome,
                             probeClock: nat -> int, failClock: nat -> int)
    requires name !in Registry
    requires !Probe(b, name, probeClock(0)).0
    ensures var run := Retry(b, name, tool, probeClock, failClock);
            run == Run(Raised(false, UnknownToolMessage(name)), Probe(b, name, probeClock(0)).1, 1, 0)
            && run.breaker.failures == b.failures
  {
  }

  /** A permanent or unexpected error raised by the tool becomes an error
      string after one attempt, with no failure recorded. */
  lemma PermanentErrorAnsweredOnce(b: Breaker, name: string, tool: nat -> ToolOutcome,
                                   probeClock: nat -> int, failClock: nat -> int)
    requires name in Registry && !Probe(b, name, probeClock(0)).0
    requires tool(0).RaisedPermanent? || tool(0).RaisedOther?
    ensures var run := Retry(b, name, tool, probeClock, failClock);
            run.attempts == 1 && run.invocations == 1
            && run.breaker == Probe(b, name, probeClock(0)).1 && run.breaker.failures == b.failures
            && run.exit == Value((if tool(0).RaisedPermanent? then "Error: " else "Unexpected error: ")
                                 + tool(0).message)
  {
  }

  /** A transient failure followed by a success: two calls, the text of the
      second returned, and the service's count back to zero with its circuit
      closed. */
  lemma RecoversAfterOneRetry(b: Breaker, name: string, tool: nat -> ToolOutcome,
                              probeClock: nat -> int, failClock: nat -> int)
    requires name in Registry && Tripped(b) && Count(b, name) + 1 < b.threshold
    requires tool(0).RaisedRetryable? && tool(1).Returned?
    ensures var run := Retry(b, name, tool, probeClock, failClock);
            run.attempts == 2 && run.invocations == 2 && run.exit == Value(tool(1).text)
            && Count(run.breaker, name) == 0 && name !in run.breaker.openedAt
  {
    ClosedBelowThreshold(b, name, probeClock(0));
    var b1 := Failed(b, name, failClock(0));
    TrippedPreserved(b, name, failClock(0));
    ClosedBelowThreshold(b1, name, probeClock(1));
  }

  /** One attempt keeps the breaker invariant. */
  lemma AttemptTripped(b: Breaker, name: string, outcome: ToolOutcome, probeAt: int, failAt: int)
    requires Tripped(b)
    ensures Tripped(Attempt(b, name, outcome, probeAt, failAt).breaker)
  {
    var b1 := Probe(b, name, probeAt).1;
    TrippedPreserved(b, name, probeAt);
    TrippedPreserved(b1, name, failAt);
  }

  /** Retrying keeps the breaker invariant. */
  lemma {:induction false} RetryFromTripped(b: Breaker, name: string, tool: nat -> ToolOutcome,
                                            probeClock: nat -> int, failClock: nat -> int, a: nat)
    requires a < MaxAttempts && Tripped(b)
    ensures Tripped(RetryFrom(b, name, tool, probeClock, failClock, a).breaker)
    decreases MaxAttempts - a
  {
    var r := Attempt(b, name, tool(a), probeClock(a), failClock(a));
    AttemptTripped(b, name, tool(a), probeClock(a), failClock(a));
    if ShouldRetry(r.exit) && a + 1 < MaxAttempts {
      RetryFromTripped(r.breaker, name, tool, probeClock, failClock, a + 1);
    }
  }

  // ===========================================================================
  // The imperative code
  // ===========================================================================

  /** The undecorated body of `execute_tool_with_retry`, on the breaker
      object: a breaker check, the registry lookup, then the call. */
  method ExecuteTool(cb: CircuitBreaker, name: string, outcome: ToolOutcome, probeAt: int, failAt: int)
    returns (exit: Exit)
    modifies cb
    ensures var r := Attempt(old(cb.State()), name, outcome, probeAt, failAt);
            exit == r.exit && cb.State() == r.breaker
  {
    var open := cb.IsOpen(name, probeAt);
    if open {
      return Raised(false, UnavailableMessage(name));
    }
    if name !in Registry {
      return Raised(false, UnknownToolMessage(name));
    }
    match outcome {
      case Returned(t) =>
        cb.RecordSuccess(name);
        exit := Value(t);
      case RaisedRetryable(m) =>
        cb.RecordFailure(name, failAt);
        exit := Raised(true, m);
      case RaisedPermanent(m) =>
        exit := Value("Error: " + m);
      case RaisedOther(m) =>
        exit := Value("Unexpected error: " + m);
    }
  }

  /** `execute_tool_with_retry` under `smart_retry`: the attempt loop. */
  method ExecuteToolWithRetry(cb: CircuitBreaker, name: string, tool: nat -> ToolOutcome,
                              probeClock: nat -> int, failClock: nat -> int)
    returns (exit: Exit)
    modifies cb
    ensures var run := Retry(old(cb.State()), name, tool, probeClock, failClock);
            exit == run.exit && cb.State() == run.breaker
  {
    ghost var run := Retry(cb.State(), name, tool, probeClock, failClock);
    var attempt := 0;
    while true
      invariant attempt < MaxAttempts
      invariant RetryFrom(cb.State(), name, tool, probeClock, failClock, attempt).exit == run.exit
      invariant RetryFrom(cb.State(), name, tool, probeClock, failClock, attempt).breaker == run.breaker
      decreases MaxAttempts - attempt
    {
      exit := ExecuteTool(cb, name, tool(attempt), probeClock(attempt), failClock(attempt));
      if !(exit.Raised? && exit.retryable) || attempt + 1 == MaxAttempts {
        return;
      }
      attempt := attempt + 1;
    }
  }
}
