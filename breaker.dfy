/** The per-service circuit breaker of the tool-calling agent.  A breaker
    keeps, per service name, a count of failures since the last success and,
    while the circuit is open, the instant at which it opened.  `is_open`
    both answers and, once the cool-down has strictly elapsed, clears the
    open marker so that one trial call gets through (the half-open state).

    Instants are integers counting microseconds (the resolution of Python's
    `datetime`); the clock is an explicit parameter. */
module CircuitBreakers {

  const MicrosPerSecond: int := 1_000_000

  /** Constructor defaults of the dataclass. */
  const DefaultFailureThreshold: int := 5
  const DefaultTimeoutSeconds: int := 60

  /** The whole state of a breaker, as a value. */
  datatype Breaker = Breaker(threshold: int, timeoutSeconds: int,
                             failures: map<string, int>, openedAt: map<string, int>)

  /** `failures.get(s, 0)`. */
  function Count(b: Breaker, s: string): int
  {
    if s in b.failures then b.failures[s] else 0
  }

  /** The cool-down, in clock units. */
  function Cooldown(b: Breaker): int
  {
    b.timeoutSeconds * MicrosPerSecond
  }

  /** `record_success`. */
  function Succeeded(b: Breaker, s: string): Breaker
  {
    b.(failures := b.failures[s := 0], openedAt := b.openedAt - {s})
  }

  /** `record_failure` at instant `now`. */
  function Failed(b: Breaker, s: string, now: int): Breaker
  {
    var n := Count(b, s) + 1;
    b.(failures := b.failures[s := n],
       openedAt := if n >= b.threshold then b.openedAt[s := now] else b.openedAt)
  }

  /** `is_open` at instant `now`: the answer and the state afterwards. */
  function Probe(b: Breaker, s: string, now: int): (bool, Breaker)
  {
    if s !in b.openedAt then (false, b)
    else if now - b.openedAt[s] > Cooldown(b) then (false, b.(openedAt := b.openedAt - {s}))
    else (true, b)
  }

  /** A fresh breaker (empty maps). */
  function Fresh(threshold: int, timeoutSeconds: int): Breaker
  {
    Breaker(threshold, timeoutSeconds, map[], map[])
  }

  // ===========================================================================
  // The three operations, one service at a time
  // ===========================================================================

  /** `record_success` zeroes the count and closes the circuit of `s`; every
      other service keeps its count and open marker. */
  lemma SucceededSpec(b: Breaker, s: string, t: string)
    ensures Count(Succeeded(b, s), s) == 0 && s !in Succeeded(b, s).openedAt
    ensures t != s ==> Count(Succeeded(b, s), t) == Count(b, t)
    ensures t != s ==> (t in Succeeded(b, s).openedAt <==> t in b.openedAt)
    ensures t != s && t in b.openedAt ==> Succeeded(b, s).openedAt[t] == b.openedAt[t]
  {
  }

  /** `record_failure` adds exactly one to the count of `s`; it (re)stamps the
      open marker with `now` exactly when the new count reaches the
      threshold, and otherwise leaves the markers alone; other services keep
      their counts. */
  lemma FailedSpec(b: Breaker, s: string, now: int, t: string)
    ensures Count(Failed(b, s, now), s) == Count(b, s) + 1
    ensures Count(b, s) + 1 >= b.threshold ==>
              s in Failed(b, s, now).openedAt && Failed(b, s, now).openedAt[s] == now
    ensures Count(b, s) + 1 < b.threshold ==> Failed(b, s, now).openedAt == b.openedAt
    ensures t != s ==> Count(Failed(b, s, now), t) == Count(b, t)
    ensures t != s ==> (t in Failed(b, s, now).openedAt <==> t in b.openedAt)
    ensures t != s && t in b.openedAt ==> Failed(b, s, now).openedAt[t] == b.openedAt[t]
  {
  }

  /** `is_open` never changes a count; it answers true exactly while the
      marker is present and at most the cool-down old, and it removes the
      marker of `s` (only) when it has expired. */
  lemma ProbeSpec(b: Breaker, s: string, now: int)
    ensures Probe(b, s, now).0 <==> s in b.openedAt && now - b.openedAt[s] <= Cooldown(b)
    ensures Probe(b, s, now).1.failures == b.failures
    ensures Probe(b, s, now).1.threshold == b.threshold
    ensures Probe(b, s, now).1.timeoutSeconds == b.timeoutSeconds
    ensures Probe(b, s, now).0 ==> Probe(b, s, now).1 == b
    ensures s !in b.openedAt ==> Probe(b, s, now) == (false, b)
    ensures s in b.openedAt && !Probe(b, s, now).0 ==> Probe(b, s, now).1.openedAt == b.openedAt - {s}
  {
  }

  // ===========================================================================
  // The invariant: an open circuit has reached its threshold
  // ===========================================================================

  /** Every service whose circuit is marked open has at least `threshold`
      failures since its last success. */
  ghost predicate Tripped(b: Breaker)
  {
    forall s :: s in b.openedAt ==> Count(b, s) >= b.threshold
  }

  lemma FreshTripped(threshold: int, timeoutSeconds: int)
    ensures Tripped(Fresh(threshold, timeoutSeconds))
  {
  }

  /** All three operations keep `Tripped`. */
  lemma TrippedPreserved(b: Breaker, s: string, now: int)
    requires Tripped(b)
    ensures Tripped(Succeeded(b, s))
    ensures Tripped(Failed(b, s, now))
    ensures Tripped(Probe(b, s, now).1)
  {
    var f := Failed(b, s, now);
    forall t | t in f.openedAt ensures Count(f, t) >= f.threshold {
      if t != s {
        assert Count(f, t) == Count(b, t);
      }
    }
    var p := Probe(b, s, now).1;
    forall t | t in p.openedAt ensures Count(p, t) >= p.threshold {
      assert t in b.openedAt;
    }
  }

  /** Under the invariant, a service with fewer than `threshold` failures
      since its last success is closed, and asking does not change anything. */
  lemma ClosedBelowThreshold(b: Breaker, s: string, now: int)
    requires Tripped(b)
    requires Count(b, s) < b.threshold
    ensures Probe(b, s, now) == (false, b)
  {
  }

  // ===========================================================================
  // Opening, staying open, half-open, re-opening
  // ===========================================================================

  /** Failures at the instants `ts`, in order. */
  function FailAll(b: Breaker, s: string, ts: seq<int>): Breaker
    decreases |ts|
  {
    if ts == [] then b else FailAll(Failed(b, s, ts[0]), s, ts[1..])
  }

  /** A run of failures adds its length to the count; once the count has
      reached the threshold the marker carries the instant of the last one. */
  lemma {:induction false} FailAllSpec(b: Breaker, s: string, ts: seq<int>)
    ensures Count(FailAll(b, s, ts), s) == Count(b, s) + |ts|
    ensures FailAll(b, s, ts).threshold == b.threshold
    ensures FailAll(b, s, ts).timeoutSeconds == b.timeoutSeconds
    ensures |ts| > 0 && Count(b, s) + |ts| >= b.threshold ==>
              s in FailAll(b, s, ts).openedAt && FailAll(b, s, ts).openedAt[s] == ts[|ts| - 1]
    decreases |ts|
  {
    if ts != [] {
      var b1 := Failed(b, s, ts[0]);
      FailAllSpec(b1, s, ts[1..]);
      if |ts| == 1 {
        assert FailAll(b1, s, ts[1..]) == b1;
      }
    }
  }

  /** After `threshold` consecutive failures of a service starting from a
      zero count, the circuit is open for the whole cool-down after the last
      failure. */
  lemma {:induction false} OpenAfterThresholdFailures(b: Breaker, s: string, ts: seq<int>, now: int)
    requires Count(b, s) == 0 && b.threshold >= 1 && |ts| == b.threshold
    requires now - ts[|ts| - 1] <= Cooldown(b)
    ensures Probe(FailAll(b, s, ts), s, now).0
  {
    FailAllSpec(b, s, ts);
  }

  /** While the marker is at most the cool-down old, `is_open` answers true
      and changes nothing. */
  lemma StaysOpenWithinCooldown(b: Breaker, s: string, now: int)
    requires s in b.openedAt && now - b.openedAt[s] <= Cooldown(b)
    ensures Probe(b, s, now) == (true, b)
  {
  }

  /** The first check strictly after the cool-down answers false and clears
      the marker, so any later check answers false too and changes nothing. */
  lemma HalfOpenAfterCooldown(b: Breaker, s: string, now: int, later: int)
    requires s in b.openedAt && now - b.openedAt[s] > Cooldown(b)
    ensures var (open, b1) := Probe(b, s, now);
            !open && s !in b1.openedAt && Probe(b1, s, later) == (false, b1)
  {
  }

  /** Half-open keeps the count at or above the threshold, so a single failure
      of the trial call re-opens the circuit at once. */
  lemma ReopenOnTrialFailure(b: Breaker, s: string, now: int, failAt: int, later: int)
    requires Tripped(b)
    requires s in b.openedAt && now - b.openedAt[s] > Cooldown(b)
    requires later - failAt <= Cooldown(b)
    ensures var b1 := Probe(b, s, now).1;
            var b2 := Failed(b1, s, failAt);
            s in b2.openedAt && b2.openedAt[s] == failAt && Probe(b2, s, later) == (true, b2)
  {
    var b1 := Probe(b, s, now).1;
    assert Count(b1, s) == Count(b, s) >= b.threshold;
  }

  // ===========================================================================
  // Closed until the next failure
  // ===========================================================================

  /** One call on the breaker, as a value. */
  datatype Event = Success(service: string) | Failure(service: string, at: int) | Check(service: string, at: int)

  /** The answer of a call (false for the two record calls) and the state
      after it. */
  function Apply(b: Breaker, e: Event): (bool, Breaker)
  {
    match e
    case Success(t) => (false, Succeeded(b, t))
    case Failure(t, at) => (false, Failed(b, t, at))
    case Check(t, at) => Probe(b, t, at)
  }

  /** The state after a sequence of calls. */
  function Replay(b: Breaker, es: seq<Event>): Breaker
    decreases |es|
  {
    if es == [] then b else Replay(Apply(b, es[0]).1, es[1..])
  }

  /** The answers of a sequence of calls. */
  function Answers(b: Breaker, es: seq<Event>): (r: seq<bool>)
    ensures |r| == |es|
    decreases |es|
  {
    if es == [] then [] else [Apply(b, es[0]).0] + Answers(Apply(b, es[0]).1, es[1..])
  }

  predicate NoFailureOf(es: seq<Event>, s: string)
  {
    forall i :: 0 <= i < |es| ==> !(es[i].Failure? && es[i].service == s)
  }

  /** Once the marker of `s` is gone (after a success or a half-open check),
      every check of `s` answers false until a failure of `s` is recorded,
      whatever happens to other services meanwhile. */
  lemma {:induction false} ClosedUntilNextFailure(b: Breaker, es: seq<Event>, s: string)
    requires s !in b.openedAt
    requires NoFailureOf(es, s)
    ensures s !in Replay(b, es).openedAt
    ensures forall i :: 0 <= i < |es| && es[i].Check? && es[i].service == s ==> !Answers(b, es)[i]
    decreases |es|
  {
    if es != [] {
      var b1 := Apply(b, es[0]).1;
      assert s !in b1.openedAt;
      assert NoFailureOf(es[1..], s) by {
        forall i | 0 <= i < |es[1..]| ensures !(es[1..][i].Failure? && es[1..][i].service == s) {
          assert es[1..][i] == es[i + 1];
        }
      }
      ClosedUntilNextFailure(b1, es[1..], s);
      forall i | 0 <= i < |es| && es[i].Check? && es[i].service == s ensures !Answers(b, es)[i] {
        if i > 0 {
          assert es[1..][i - 1] == es[i];
        }
      }
    }
  }

  // ===========================================================================
  // A worked scenario
  // ===========================================================================

  /** Threshold 2, cool-down 60 s: one failure leaves the circuit closed; the
      second opens it; it is still open exactly 60 s later (the comparison is
      strict); one microsecond after that it answers false once, clearing the
      marker. */
  lemma ThresholdTwoScenario()
    ensures var b0 := Fresh(2, 60);
            var b1 := Failed(b0, "x", 0);
            var b2 := Failed(b1, "x", 0);
            !Probe(b1, "x", 0).0
            && Probe(b2, "x", 0) == (true, b2)
            && Probe(b2, "x", 60 * MicrosPerSecond) == (true, b2)
            && Probe(b2, "x", 60 * MicrosPerSecond + 1) == (false, b2.(openedAt := map[]))
  {
    var b2 := Failed(Failed(Fresh(2, 60), "x", 0), "x", 0);
    assert b2.openedAt == map["x" := 0];
    assert b2.openedAt - {"x"} == map[];
  }

  // ===========================================================================
  // The breaker object
  // ===========================================================================

  /** The `CircuitBreaker` dataclass: two maps updated in place. */
  class CircuitBreaker {
    const failureThreshold: int
    const timeoutSeconds: int
    var failures: map<string, int>
    var openedAt: map<string, int>

    function State(): Breaker
      reads this
    {
      Breaker(failureThreshold, timeoutSeconds, failures, openedAt)
    }

    constructor (failureThreshold: int, timeoutSeconds: int)
      ensures State() == Fresh(failureThreshold, timeoutSeconds)
      ensures Tripped(State())
    {
      this.failureThreshold := failureThreshold;
      this.timeoutSeconds := timeoutSeconds;
      failures := map[];
      openedAt := map[];
      FreshTripped(failureThreshold, timeoutSeconds);
    }

    /** `record_success`. */
    method RecordSuccess(service: string)
      modifies this
      ensures State() == Succeeded(old(State()), service)
    {
      failures := failures[service := 0];
      if service in openedAt {
        openedAt := openedAt - {service};
      }
    }

    /** `record_failure`, with the clock reading `now`. */
    method RecordFailure(service: string, now: int)
      modifies this
      ensures State() == Failed(old(State()), service, now)
    {
      var previous := if service in failures then failures[service] else 0;
      failures := failures[service := previous + 1];
      if failures[service] >= failureThreshold {
        openedAt := openedAt[service := now];
      }
    }

    /** `is_open`, with the clock reading `now`. */
    method IsOpen(service: string, now: int) returns (open: bool)
      modifies this
      ensures (open, State()) == Probe(old(State()), service, now)
    {
      if service !in openedAt {
        return false;
      }
      if now - openedAt[service] > timeoutSeconds * MicrosPerSecond {
        openedAt := openedAt - {service};
        return false;
      }
      return true;
    }
  }
}
