/**
 * The circuit breaker of the HTTP client: CLOSED lets requests through, OPEN fails them fast
 * until a deadline, HALF_OPEN lets requests through again after that deadline. Each transition
 * is a function of the breaker's three variables and the current time.
 */
module CircuitBreaker {

  datatype CbState = Closed | Open | HalfOpen

  /** `circuitState`, `failureCount`, `nextAttemptAllowedAt`. */
  datatype Circuit = Circuit(state: CbState, failureCount: nat, nextAttemptAllowedAt: int)

  /** `CB_MAX_FAILURES`. */
  const MaxFailures: nat := 5
  /** `CB_OPEN_INTERVAL_MS`. */
  const OpenIntervalMs: nat := 30000

  /** The breaker at start-up. */
  const Initial := Circuit(Closed, 0, 0)

  /** The answer of `isCircuitOpen()` at time `now`, and the breaker it leaves behind. */
  datatype GateResult = GateResult(open: bool, circuit: Circuit)

  /**
   * `isCircuitOpen()`: an OPEN breaker whose deadline has come turns HALF_OPEN and lets the
   * request through; before the deadline it refuses; CLOSED and HALF_OPEN always let through.
   */
  function Gate(c: Circuit, now: int): (r: GateResult)
    ensures c.state == Open && now < c.nextAttemptAllowedAt ==> r.open && r.circuit == c
    ensures c.state == Open && now >= c.nextAttemptAllowedAt ==>
              !r.open && r.circuit == c.(state := HalfOpen)
    ensures c.state != Open ==> !r.open && r.circuit == c
    ensures r.open <==> c.state == Open && now < c.nextAttemptAllowedAt
    ensures r.circuit.failureCount == c.failureCount && r.circuit.nextAttemptAllowedAt == c.nextAttemptAllowedAt
  {
    if c.state == Open then
      if now >= c.nextAttemptAllowedAt then GateResult(false, c.(state := HalfOpen))
      else GateResult(true, c)
    else GateResult(false, c)
  }

  /**
   * `recordFailureForCircuit(error)`, given whether the error counts (`retryable`): a counted
   * failure increments the count, and only a CLOSED breaker reaching the threshold opens.
   */
  function AfterFailure(c: Circuit, retryable: bool, now: int): (r: Circuit)
    ensures !retryable ==> r == c
    ensures retryable ==> r.failureCount == c.failureCount + 1
    ensures retryable && c.state == Closed && c.failureCount + 1 >= MaxFailures ==>
              r.state == Open && r.nextAttemptAllowedAt == now + OpenIntervalMs
    ensures retryable && (c.state != Closed || c.failureCount + 1 < MaxFailures) ==>
              r.state == c.state && r.nextAttemptAllowedAt == c.nextAttemptAllowedAt
  {
    if !retryable then c
    else
      var counted := c.(failureCount := c.failureCount + 1);
      if counted.failureCount >= MaxFailures && c.state == Closed then
        counted.(state := Open, nextAttemptAllowedAt := now + OpenIntervalMs)
      else counted
  }

  /** `recordSuccessForCircuit()`: always CLOSED with no failures; the deadline is left as it was. */
  function AfterSuccess(c: Circuit): (r: Circuit)
    ensures r.state == Closed && r.failureCount == 0
    ensures r.nextAttemptAllowedAt == c.nextAttemptAllowedAt
  {
    c.(state := Closed, failureCount := 0)
  }

  /** The breaker is CLOSED exactly while fewer than `MaxFailures` failures are counted. */
  predicate Consistent(c: Circuit) {
    c.state == Closed <==> c.failureCount < MaxFailures
  }

  /** Every transition keeps the breaker consistent. */
  lemma TransitionsKeepConsistent(c: Circuit, retryable: bool, now: int)
    requires Consistent(c)
    ensures Consistent(Gate(c, now).circuit)
    ensures Consistent(AfterFailure(c, retryable, now))
    ensures Consistent(AfterSuccess(c))
  {
  }

  /** A HALF_OPEN breaker is never re-opened by a failure: only a success changes its state. */
  lemma HalfOpenNeverReopens(c: Circuit, retryable: bool, now: int)
    requires c.state == HalfOpen
    ensures AfterFailure(c, retryable, now).state == HalfOpen
    ensures !Gate(c, now).open
  {
  }

  /** `n` counted failures in a row, each at time `now`. */
  function FailureStreak(c: Circuit, n: nat, now: int): Circuit
    decreases n
  {
    if n == 0 then c else FailureStreak(AfterFailure(c, true, now), n - 1, now)
  }

  /** From a CLOSED breaker with `k` failures, the breaker stays CLOSED for fewer than `MaxFailures - k` more. */
  lemma {:induction false} StreakBelowThresholdStaysClosed(c: Circuit, n: nat, now: int)
    requires c.state == Closed && c.failureCount + n < MaxFailures
    ensures FailureStreak(c, n, now) == Circuit(Closed, c.failureCount + n, c.nextAttemptAllowedAt)
    decreases n
  {
    if n > 0 {
      StreakBelowThresholdStaysClosed(AfterFailure(c, true, now), n - 1, now);
    }
  }

  /** Five counted failures in a row open a fresh breaker, for exactly `OpenIntervalMs`. */
  lemma FifthFailureOpens(now: int)
    ensures FailureStreak(Initial, 4, now).state == Closed
    ensures FailureStreak(Initial, 5, now) == Circuit(Open, 5, now + OpenIntervalMs)
  {
  }

  /** The last step of a streak can be taken last. */
  lemma {:induction false} StreakShift(c: Circuit, n: nat, now: int)
    ensures FailureStreak(c, n + 1, now) == AfterFailure(FailureStreak(c, n, now), true, now)
    decreases n
  {
    if n > 0 {
      StreakShift(AfterFailure(c, true, now), n - 1, now);
    }
  }

  /** An OPEN breaker stays OPEN while failures keep arriving: only time or a success moves it. */
  lemma {:induction false} OpenStaysOpen(c: Circuit, n: nat, now: int)
    requires c.state == Open
    ensures FailureStreak(c, n, now).state == Open
    ensures FailureStreak(c, n, now).nextAttemptAllowedAt == c.nextAttemptAllowedAt
    decreases n
  {
    if n > 0 {
      OpenStaysOpen(AfterFailure(c, true, now), n - 1, now);
    }
  }
}
