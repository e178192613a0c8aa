/**
 * The HTTP client's module-level state and the operations that change it: the circuit
 * breaker's variables, the retry loop around each request, the in-flight registry that lets
 * identical GET/HEAD requests share one call, the in-memory access token and the stored
 * refresh token, and the single-flight refresh that answers a 401.
 */
module ApiClient {
  import opened Wrappers
  import opened ApiPolicy
  import opened CircuitBreaker
  import Strings

  /** A response that made it through; only its existence matters to the policies. */
  datatype Response = Response(status: int)

  /**
   * What the world does during one attempt of the retry loop: whether the request's signal is
   * already aborted, what the transport returns, the clock when a failure is recorded, the
   * value `Math.random() * 100` of the jitter, and the clock when the backoff sleep ends.
   */
  datatype AttemptEnv = AttemptEnv(
    aborted: bool,
    result: Result<Response, HttpError>,
    failedAt: int,
    jitter: real,
    wokeAt: int)

  /** One environment per possible attempt, jitter in `[0, 100)`. */
  predicate ValidEnvs(envs: seq<AttemptEnv>) {
    && |envs| == MaxRetries + 1
    && forall k :: 0 <= k < |envs| ==> 0.0 <= envs[k].jitter < 100.0
  }

  const AbortedBeforeStart := CodedError("Request aborted before start", "ABORTED")
  const CircuitOpenError := CodedError("Circuit breaker is OPEN — backend temporarily unavailable", "CIRCUIT_OPEN")
  const CircuitOpenedDuringRetries := CodedError("Circuit breaker opened during retries", "CIRCUIT_OPEN")
  const OfflineError := CodedError("Device is offline", "OFFLINE")
  const NoRefreshToken := PlainError("No refresh token available")
  const NoAccessTokenInReply := PlainError("Refresh response does not contain access token")

  /** An explicit abort, or a cancellation axios recognises. */
  predicate IsCancellation(e: HttpError) {
    e.code == Some("ABORTED") || e.cancelled
  }

  /** The end of a request run: its result, the breaker it leaves and the backoff delays it slept. */
  datatype Run = Run(result: Result<Response, HttpError>, circuit: Circuit, delays: seq<real>)

  // ---------------------------------------------------------------------------
  // `executeWithRetryAndCircuit(config)`, as functions of the breaker and the world
  // ---------------------------------------------------------------------------

  /** How one attempt of the loop ends: the call is over, or the loop goes on after sleeping `delay`. */
  datatype Step = Stop(result: Result<Response, HttpError>, circuit: Circuit, delays: seq<real>)
                | Continue(delay: real, circuit: Circuit)

  /**
   * One pass of the `while (true)` loop with attempt number `attempt`: an aborted signal or a
   * cancellation ends the call and records nothing; a success closes the breaker; an error
   * that may not be retried records one failure; otherwise the loop sleeps the backoff and
   * ends only if the breaker is still OPEN when it wakes.
   */
  function AttemptStep(c: Circuit, config: RequestConfig, env: AttemptEnv, attempt: nat): (r: Step)
    requires 0.0 <= env.jitter < 100.0
    ensures r.Continue? ==> attempt < MaxRetries && r.delay == RetryDelay(attempt, env.jitter)
    ensures r.Continue? ==> r.circuit.failureCount == c.failureCount
    ensures r.Stop? ==> r.delays == [] || (attempt < MaxRetries && r.delays == [RetryDelay(attempt, env.jitter)])
    ensures r.Stop? && r.result.Ok? ==> r.circuit == AfterSuccess(c)
    ensures r.Stop? && r.result.Err? && IsCancellation(r.result.error) ==> r.circuit == c && r.delays == []
    ensures r.Stop? && r.result.Err? ==> c.failureCount <= r.circuit.failureCount <= c.failureCount + 1
    ensures env.aborted || (env.result.Err? && IsCancellation(env.result.error)) ==> r.Stop? && r.delays == [] && r.circuit == c
    ensures !env.aborted && env.result.Ok? ==> r == Stop(env.result, AfterSuccess(c), [])
    ensures !env.aborted && env.result.Err? && !IsCancellation(env.result.error) &&
            !(IsRetryableError(env.result.error, Some(config)) && attempt < MaxRetries) ==>
              r == Stop(env.result, AfterFailure(c, IsRetryableError(env.result.error, None), env.failedAt), [])
    ensures !env.aborted && env.result.Err? && !IsCancellation(env.result.error) &&
            IsRetryableError(env.result.error, Some(config)) && attempt < MaxRetries ==>
              && (r.Continue? <==> !Gate(c, env.wokeAt).open)
              && r.circuit == Gate(c, env.wokeAt).circuit
              && (r.Stop? ==> r.result == Err(CircuitOpenedDuringRetries))
  {
    if env.aborted then Stop(Err(AbortedBeforeStart), c, [])
    else match env.result
      case Ok(response) => Stop(Ok(response), AfterSuccess(c), [])
      case Err(e) =>
        if IsCancellation(e) then Stop(Err(e), c, [])
        else if !(IsRetryableError(e, Some(config)) && attempt < MaxRetries) then
          Stop(Err(e), AfterFailure(c, IsRetryableError(e, None), env.failedAt), [])
        else
          var delay := RetryDelay(attempt, env.jitter);
          var gate := Gate(c, env.wokeAt);
          if gate.open then Stop(Err(CircuitOpenedDuringRetries), gate.circuit, [delay])
          else Continue(delay, gate.circuit)
  }

  /** The `while (true)` loop from attempt number `attempt` on. */
  function RetryLoop(c: Circuit, config: RequestConfig, envs: seq<AttemptEnv>, attempt: nat): (r: Run)
    requires ValidEnvs(envs) && attempt <= MaxRetries
    ensures |r.delays| <= MaxRetries - attempt
    decreases MaxRetries - attempt
  {
    match AttemptStep(c, config, envs[attempt], attempt)
    case Stop(result, circuit, delays) => Run(result, circuit, delays)
    case Continue(delay, circuit) =>
      var rest := RetryLoop(circuit, config, envs, attempt + 1);
      Run(rest.result, rest.circuit, [delay] + rest.delays)
  }

  /** The loop as the method runs it: `acc` holds the delays slept so far. */
  function LoopFrom(c: Circuit, config: RequestConfig, envs: seq<AttemptEnv>, attempt: nat, acc: seq<real>): Run
    requires ValidEnvs(envs) && attempt <= MaxRetries
    decreases MaxRetries - attempt
  {
    match AttemptStep(c, config, envs[attempt], attempt)
    case Stop(result, circuit, delays) => Run(result, circuit, acc + delays)
    case Continue(delay, circuit) => LoopFrom(circuit, config, envs, attempt + 1, acc + [delay])
  }

  /** Running the loop with delays already slept only puts those delays first. */
  lemma {:induction false} LoopFromIsRetryLoop(c: Circuit, config: RequestConfig, envs: seq<AttemptEnv>, attempt: nat, acc: seq<real>)
    requires ValidEnvs(envs) && attempt <= MaxRetries
    ensures var r := RetryLoop(c, config, envs, attempt);
            LoopFrom(c, config, envs, attempt, acc) == Run(r.result, r.circuit, acc + r.delays)
    decreases MaxRetries - attempt
  {
    match AttemptStep(c, config, envs[attempt], attempt)
    case Stop(_, _, _) =>
    case Continue(delay, circuit) =>
      LoopFromIsRetryLoop(circuit, config, envs, attempt + 1, acc + [delay]);
      var rest := RetryLoop(circuit, config, envs, attempt + 1);
      assert (acc + [delay]) + rest.delays == acc + ([delay] + rest.delays);
  }

  /** The whole call: fail fast on an open breaker, otherwise run the loop. At most three retries. */
  function Execute(c: Circuit, config: RequestConfig, now: int, envs: seq<AttemptEnv>): (r: Run)
    requires ValidEnvs(envs)
    ensures |r.delays| <= MaxRetries
    ensures Gate(c, now).open ==> r == Run(Err(CircuitOpenError), c, [])
  {
    var gate := Gate(c, now);
    if gate.open then Run(Err(CircuitOpenError), gate.circuit, [])
    else RetryLoop(gate.circuit, config, envs, 0)
  }

  /** The jittered backoffs of `n` consecutive attempts from attempt number `attempt` on. */
  function Backoffs(envs: seq<AttemptEnv>, attempt: nat, n: nat): (r: seq<real>)
    requires ValidEnvs(envs) && attempt + n <= MaxRetries
    ensures |r| == n
    decreases n
  {
    if n == 0 then [] else [RetryDelay(attempt, envs[attempt].jitter)] + Backoffs(envs, attempt + 1, n - 1)
  }

  /** The delays the loop sleeps from attempt `attempt` on are those attempts' own backoffs, in order, all below `MaxRetries`. */
  lemma {:induction false} DelaysAreRetryDelays(c: Circuit, config: RequestConfig, envs: seq<AttemptEnv>, attempt: nat)
    requires ValidEnvs(envs) && attempt <= MaxRetries
    ensures var ds := RetryLoop(c, config, envs, attempt).delays;
            attempt + |ds| <= MaxRetries && ds == Backoffs(envs, attempt, |ds|)
    decreases MaxRetries - attempt
  {
    var ds := RetryLoop(c, config, envs, attempt).delays;
    match AttemptStep(c, config, envs[attempt], attempt)
    case Stop(_, _, delays) =>
      assert ds == delays;
      if delays != [] {
        assert Backoffs(envs, attempt + 1, 0) == [];
        assert delays == [RetryDelay(attempt, envs[attempt].jitter)] + [];
      }
    case Continue(delay, circuit) =>
      DelaysAreRetryDelays(circuit, config, envs, attempt + 1);
      LoopDelaysCons(c, config, envs, attempt);
  }

  /** An attempt that goes on puts its own delay in front of the rest of the loop's. */
  lemma LoopDelaysCons(c: Circuit, config: RequestConfig, envs: seq<AttemptEnv>, attempt: nat)
    requires ValidEnvs(envs) && attempt <= MaxRetries && AttemptStep(c, config, envs[attempt], attempt).Continue?
    ensures var step := AttemptStep(c, config, envs[attempt], attempt);
            && attempt < MaxRetries && step.delay == RetryDelay(attempt, envs[attempt].jitter)
            && RetryLoop(c, config, envs, attempt).delays == [step.delay] + RetryLoop(step.circuit, config, envs, attempt + 1).delays
  {
  }

  /**
   * The breaker records at most one failure per call, on the final give-up; a success always
   * leaves it CLOSED with no failures.
   */
  lemma {:induction false} LoopRecordsAtMostOneFailure(c: Circuit, config: RequestConfig, envs: seq<AttemptEnv>, attempt: nat)
    requires ValidEnvs(envs) && attempt <= MaxRetries
    ensures var r := RetryLoop(c, config, envs, attempt);
            && (r.result.Ok? ==> r.circuit.state == Closed && r.circuit.failureCount == 0)
            && (r.result.Err? ==> c.failureCount <= r.circuit.failureCount <= c.failureCount + 1)
    decreases MaxRetries - attempt
  {
    var step := AttemptStep(c, config, envs[attempt], attempt);
    if step.Continue? {
      LoopRecordsAtMostOneFailure(step.circuit, config, envs, attempt + 1);
    }
  }

  /**
   * From a breaker that is not OPEN, the loop ends at attempt `j`, the number of delays slept:
   * every earlier attempt failed with an error that may be retried, and the call's result is
   * attempt `j`'s own outcome. A success closes the breaker, a cancellation leaves it alone, and
   * any other error is the give-up, which no retry was left for and which records exactly one
   * failure when it counts. In particular the loop never ends with "opened during retries".
   */
  lemma RetryLoopOutcome(c: Circuit, config: RequestConfig, envs: seq<AttemptEnv>, attempt: nat)
    requires ValidEnvs(envs) && attempt <= MaxRetries && c.state != Open
    ensures var r := RetryLoop(c, config, envs, attempt);
            var j := attempt + |r.delays|;
            && j <= MaxRetries
            && (forall k :: attempt <= k < j ==>
                  && !envs[k].aborted && envs[k].result.Err? && !IsCancellation(envs[k].result.error)
                  && IsRetryableError(envs[k].result.error, Some(config)))
            && r.result == (if envs[j].aborted then Err(AbortedBeforeStart) else envs[j].result)
            && (r.result.Ok? ==> r.circuit == AfterSuccess(c))
            && (r.result.Err? && IsCancellation(r.result.error) ==> r.circuit == c)
            && (r.result.Err? && !IsCancellation(r.result.error) ==>
                  && !(IsRetryableError(r.result.error, Some(config)) && j < MaxRetries)
                  && r.circuit == AfterFailure(c, IsRetryableError(r.result.error, None), envs[j].failedAt))
  {
    RetryLoopRetried(c, config, envs, attempt);
    RetryLoopLast(c, config, envs, attempt);
  }

  /** Every attempt before the last failed with an error that may be retried. */
  lemma {:induction false} RetryLoopRetried(c: Circuit, config: RequestConfig, envs: seq<AttemptEnv>, attempt: nat)
    requires ValidEnvs(envs) && attempt <= MaxRetries && c.state != Open
    ensures RetriedThrough(config, envs, attempt, attempt + |RetryLoop(c, config, envs, attempt).delays|)
    decreases MaxRetries - attempt
  {
    if AttemptStep(c, config, envs[attempt], attempt).Continue? {
      ContinueStep(c, config, envs[attempt], attempt);
      ContinueRuns(c, config, envs, attempt);
      RetryLoopRetried(c, config, envs, attempt + 1);
      RetriedCons(config, envs, attempt, attempt + |RetryLoop(c, config, envs, attempt).delays|);
    } else {
      StopEnds(c, config, envs, attempt);
    }
  }

  /** The attempt failed with an error that may be retried: not aborted, not cancelled, retryable under the call's config. */
  predicate RetriedAt(config: RequestConfig, env: AttemptEnv)
  {
    && !env.aborted && env.result.Err? && !IsCancellation(env.result.error)
    && IsRetryableError(env.result.error, Some(config))
  }

  /** Attempts `from` up to, but not including, `to` all failed with an error that may be retried. */
  predicate RetriedThrough(config: RequestConfig, envs: seq<AttemptEnv>, from: nat, to: nat)
  {
    to <= |envs| && forall k :: from <= k < to ==> RetriedAt(config, envs[k])
  }

  lemma RetriedCons(config: RequestConfig, envs: seq<AttemptEnv>, from: nat, to: nat)
    requires from < to <= |envs| && RetriedAt(config, envs[from]) && RetriedThrough(config, envs, from + 1, to)
    ensures RetriedThrough(config, envs, from, to)
  {
  }

  /**
   * `result` and `circuit` are what attempt `j` leaves when it ends the loop from breaker `c`:
   * its own outcome, the breaker closed on success, untouched on a cancellation, and one
   * recorded failure on a give-up that no retry was left for.
   */
  predicate EndsAt(c: Circuit, config: RequestConfig, envs: seq<AttemptEnv>, j: nat,
                   result: Result<Response, HttpError>, circuit: Circuit)
  {
    && j <= MaxRetries && |envs| == MaxRetries + 1
    && result == (if envs[j].aborted then Err(AbortedBeforeStart) else envs[j].result)
    && (result.Ok? ==> circuit == AfterSuccess(c))
    && (result.Err? && IsCancellation(result.error) ==> circuit == c)
    && (result.Err? && !IsCancellation(result.error) ==>
          && !(IsRetryableError(result.error, Some(config)) && j < MaxRetries)
          && circuit == AfterFailure(c, IsRetryableError(result.error, None), envs[j].failedAt))
  }

  /** The loop's result and breaker are those of its last attempt. */
  lemma {:induction false} RetryLoopLast(c: Circuit, config: RequestConfig, envs: seq<AttemptEnv>, attempt: nat)
    requires ValidEnvs(envs) && attempt <= MaxRetries && c.state != Open
    ensures var r := RetryLoop(c, config, envs, attempt);
            EndsAt(c, config, envs, attempt + |r.delays|, r.result, r.circuit)
    decreases MaxRetries - attempt
  {
    if GoesOn(c, config, envs, attempt) {
      RetryLoopLast(c, config, envs, attempt + 1);
      LastCons(c, config, envs, attempt);
    } else {
      StopEnds(c, config, envs, attempt);
    }
  }

  /** The attempt numbered `attempt` goes on to the next one. */
  predicate GoesOn(c: Circuit, config: RequestConfig, envs: seq<AttemptEnv>, attempt: nat)
    requires ValidEnvs(envs) && attempt <= MaxRetries
  {
    AttemptStep(c, config, envs[attempt], attempt).Continue?
  }

  /** Where the rest of the loop ends is where the whole loop ends, once an attempt has gone on. */
  lemma LastCons(c: Circuit, config: RequestConfig, envs: seq<AttemptEnv>, attempt: nat)
    requires ValidEnvs(envs) && attempt <= MaxRetries && c.state != Open && GoesOn(c, config, envs, attempt)
    requires attempt < MaxRetries
    requires var rest := RetryLoop(c, config, envs, attempt + 1);
             EndsAt(c, config, envs, attempt + 1 + |rest.delays|, rest.result, rest.circuit)
    ensures var r := RetryLoop(c, config, envs, attempt);
            EndsAt(c, config, envs, attempt + |r.delays|, r.result, r.circuit)
  {
    ContinueRuns(c, config, envs, attempt);
  }

  /** An attempt that goes on adds one delay in front of the rest of the loop, from the same breaker. */
  lemma ContinueRuns(c: Circuit, config: RequestConfig, envs: seq<AttemptEnv>, attempt: nat)
    requires ValidEnvs(envs) && attempt <= MaxRetries && c.state != Open
    requires AttemptStep(c, config, envs[attempt], attempt).Continue?
    ensures attempt < MaxRetries
    ensures var r, rest := RetryLoop(c, config, envs, attempt), RetryLoop(c, config, envs, attempt + 1);
            r.result == rest.result && r.circuit == rest.circuit && |r.delays| == 1 + |rest.delays|
  {
    ContinueStep(c, config, envs[attempt], attempt);
  }

  /** An attempt that ends the loop ends it as `EndsAt` says. */
  lemma StopEnds(c: Circuit, config: RequestConfig, envs: seq<AttemptEnv>, attempt: nat)
    requires ValidEnvs(envs) && attempt <= MaxRetries && c.state != Open
    requires AttemptStep(c, config, envs[attempt], attempt).Stop?
    ensures var r := RetryLoop(c, config, envs, attempt);
            r.delays == [] && EndsAt(c, config, envs, attempt, r.result, r.circuit)
  {
    StopStep(c, config, envs[attempt], attempt);
  }

  /** From a breaker that is not OPEN, an attempt goes on only after an error that may be retried, and leaves the breaker alone. */
  lemma ContinueStep(c: Circuit, config: RequestConfig, env: AttemptEnv, attempt: nat)
    requires 0.0 <= env.jitter < 100.0 && c.state != Open && AttemptStep(c, config, env, attempt).Continue?
    ensures AttemptStep(c, config, env, attempt).circuit == c
    ensures RetriedAt(config, env) && attempt < MaxRetries
  {
  }

  /** From a breaker that is not OPEN, an attempt that ends the loop ends it with its own outcome and sleeps no more. */
  lemma StopStep(c: Circuit, config: RequestConfig, env: AttemptEnv, attempt: nat)
    requires 0.0 <= env.jitter < 100.0 && c.state != Open && AttemptStep(c, config, env, attempt).Stop?
    ensures var st := AttemptStep(c, config, env, attempt);
            && st.delays == []
            && st.result == (if env.aborted then Err(AbortedBeforeStart) else env.result)
            && (st.result.Ok? ==> st.circuit == AfterSuccess(c))
            && (st.result.Err? && IsCancellation(st.result.error) ==> st.circuit == c)
            && (st.result.Err? && !IsCancellation(st.result.error) ==>
                  && !(IsRetryableError(st.result.error, Some(config)) && attempt < MaxRetries)
                  && st.circuit == AfterFailure(c, IsRetryableError(st.result.error, None), env.failedAt))
  {
  }

  /** The same for the whole call once the breaker lets it through. */
  lemma ExecuteOutcome(c: Circuit, config: RequestConfig, now: int, envs: seq<AttemptEnv>)
    requires ValidEnvs(envs)
    ensures var g := Gate(c, now);
            var r := Execute(c, config, now, envs);
            var j := |r.delays|;
            !g.open ==>
              && j <= MaxRetries
              && (forall k :: 0 <= k < j ==>
                    && !envs[k].aborted && envs[k].result.Err? && !IsCancellation(envs[k].result.error)
                    && IsRetryableError(envs[k].result.error, Some(config)))
              && r.result == (if envs[j].aborted then Err(AbortedBeforeStart) else envs[j].result)
              && (r.result.Ok? ==> r.circuit == AfterSuccess(g.circuit))
              && (r.result.Err? && IsCancellation(r.result.error) ==> r.circuit == g.circuit)
              && (r.result.Err? && !IsCancellation(r.result.error) ==>
                    && !(IsRetryableError(r.result.error, Some(config)) && j < MaxRetries)
                    && r.circuit == AfterFailure(g.circuit, IsRetryableError(r.result.error, None), envs[j].failedAt))
  {
    if !Gate(c, now).open {
      RetryLoopOutcome(Gate(c, now).circuit, config, envs, 0);
    }
  }

  /** An aborted or cancelled request is never retried and records no failure. */
  lemma {:induction false} CancellationRecordsNoFailure(c: Circuit, config: RequestConfig, envs: seq<AttemptEnv>, attempt: nat)
    requires ValidEnvs(envs) && attempt <= MaxRetries
    ensures var r := RetryLoop(c, config, envs, attempt);
            r.result.Err? && IsCancellation(r.result.error) ==> r.circuit.failureCount == c.failureCount
    ensures envs[attempt].aborted || (envs[attempt].result.Err? && IsCancellation(envs[attempt].result.error)) ==>
              RetryLoop(c, config, envs, attempt).delays == []
    decreases MaxRetries - attempt
  {
    var step := AttemptStep(c, config, envs[attempt], attempt);
    if step.Continue? {
      CancellationRecordsNoFailure(step.circuit, config, envs, attempt + 1);
    }
  }

  /** Two configs the retry classification cannot tell apart. */
  predicate SameRetryPolicy(a: RequestConfig, b: RequestConfig) {
    MethodOf(a) == MethodOf(b) && (a.retry == Some(false) <==> b.retry == Some(false))
  }

  /** Every failure the transport reports belongs to this request (or carries no config at all). */
  predicate FailuresOf(config: RequestConfig, envs: seq<AttemptEnv>) {
    forall k :: 0 <= k < |envs| && envs[k].result.Err? && envs[k].result.error.config.Some? ==>
      SameRetryPolicy(envs[k].result.error.config.value, config)
  }

  /** Only GET and HEAD requests are retried, and never with `retry: false`: POST uploads and PUT saves get one attempt. */
  lemma OnlyIdempotentRequestsRetry(c: Circuit, config: RequestConfig, now: int, envs: seq<AttemptEnv>)
    requires ValidEnvs(envs) && FailuresOf(config, envs)
    requires !IsIdempotent(MethodOf(config)) || config.retry == Some(false)
    ensures Execute(c, config, now, envs).delays == []
  {
    var gate := Gate(c, now);
    if !gate.open {
      var env := envs[0];
      if env.result.Err? {
        assert !IsRetryableError(env.result.error, Some(config));
      }
    }
  }

  // ---------------------------------------------------------------------------
  // The response interceptor: 401, 403 and the single-flight refresh
  // ---------------------------------------------------------------------------

  /** A 403 on a non-auth request signals that the session is gone. */
  predicate Forbidden(error: HttpError) {
    error.status == Some(403) && error.config.Some? && !IsAuthUrl(error.config.value.url)
  }

  /** A 401 on a request that was never refreshed and is not itself an auth call. */
  predicate Refreshable(error: HttpError) {
    error.status == Some(401) && error.config.Some? && !error.config.value.retried && !IsAuthUrl(error.config.value.url)
  }

  /** Rejected as it is; queued behind the running refresh; or the refresh this request starts. */
  datatype Decision = Reject(error: HttpError) | Wait(request: RequestConfig) | StartRefresh(request: RequestConfig)

  /**
   * What the response interceptor does with an error. Only a refreshable 401 is not rejected;
   * its request is marked `_retry` and either waits for the refresh running or starts one.
   */
  function ResponseDecision(error: HttpError, isRefreshing: bool): (d: Decision)
    ensures d.Reject? <==> !Refreshable(error)
    ensures d.Reject? ==> d.error == error
    ensures !d.Reject? ==> d.request == error.config.value.(retried := true)
    ensures d.Wait? <==> Refreshable(error) && isRefreshing
  {
    if error.status.None? then Reject(error)
    else if Forbidden(error) then Reject(error)
    else if !Refreshable(error) then Reject(error)
    else
      var marked := error.config.value.(retried := true);
      if isRefreshing then Wait(marked) else StartRefresh(marked)
  }

  /** The `_retry` mark allows at most one refresh per request: any later error on it is rejected. */
  lemma AtMostOneRefreshPerRequest(error: HttpError, isRefreshing: bool, later: HttpError, isRefreshingLater: bool)
    requires !ResponseDecision(error, isRefreshing).Reject?
    requires later.config == Some(ResponseDecision(error, isRefreshing).request)
    ensures ResponseDecision(later, isRefreshingLater) == Reject(later)
  {
  }

  /** How a refresh ends for everyone waiting on it. */
  datatype RefreshOutcome = RefreshFailed(error: HttpError) | Refreshed(token: string)

  /** What a waiting request gets: the refresh error, or the request sent again. */
  datatype Settlement = Rejected(error: HttpError) | Resend(request: RequestConfig)

  /** One waiter of `processRefreshQueue(error, newToken)`: reject, or resend with the new token. */
  function Settle(request: RequestConfig, outcome: RefreshOutcome): (s: Settlement)
    ensures outcome.RefreshFailed? <==> s.Rejected?
    ensures outcome.RefreshFailed? ==> s.error == outcome.error
    ensures outcome.Refreshed? && outcome.token != "" ==>
              s.request == request.(authorization := Some(BearerHeader(outcome.token)))
    ensures outcome.Refreshed? && outcome.token == "" ==> s.request == request
  {
    match outcome
    case RefreshFailed(e) => Rejected(e)
    case Refreshed(t) => Resend(if t != "" then request.(authorization := Some(BearerHeader(t))) else request)
  }

  /** Every waiter settled with the same outcome, in queue order. */
  function SettleAll(queue: seq<RequestConfig>, outcome: RefreshOutcome): (r: seq<Settlement>)
    ensures |r| == |queue|
    ensures forall i :: 0 <= i < |r| ==> r[i] == Settle(queue[i], outcome)
  {
    seq(|queue|, i requires 0 <= i < |queue| => Settle(queue[i], outcome))
  }

  /** The queue is drained uniformly: all waiters are rejected with the one error, or all are resent. */
  lemma SettleAllUniform(queue: seq<RequestConfig>, outcome: RefreshOutcome)
    ensures outcome.RefreshFailed? ==> forall i :: 0 <= i < |queue| ==> SettleAll(queue, outcome)[i] == Rejected(outcome.error)
    ensures outcome.Refreshed? ==> forall i :: 0 <= i < |queue| ==>
              SettleAll(queue, outcome)[i].Resend? && SettleAll(queue, outcome)[i].request.retried == queue[i].retried
  {
  }

  /** The reply body of the refresh call: `token` and `refreshToken`, either possibly missing. */
  datatype RefreshReply = RefreshReply(token: Option<string>, refreshToken: Option<string>)

  /**
   * How the refresh ends: a failed storage read, a missing refresh token, a failed refresh call
   * and a reply without an access token all fail it; otherwise the new access token wins.
   */
  function RefreshOutcomeOf(stored: Option<string>, readError: Option<HttpError>, reply: Result<RefreshReply, HttpError>): (o: RefreshOutcome)
    ensures o.Refreshed? <==>
              readError.None? && TruthyText(stored) && reply.Ok? && TruthyText(reply.value.token)
    ensures o.Refreshed? ==> o.token == reply.value.token.value && o.token != ""
    ensures readError.Some? ==> o == RefreshFailed(readError.value)
    ensures readError.None? && !TruthyText(stored) ==> o == RefreshFailed(NoRefreshToken)
  {
    if readError.Some? then RefreshFailed(readError.value)
    else if !TruthyText(stored) then RefreshFailed(NoRefreshToken)
    else if reply.Err? then RefreshFailed(reply.error)
    else if !TruthyText(reply.value.token) then RefreshFailed(NoAccessTokenInReply)
    else Refreshed(reply.value.token.value)
  }

  /**
   * The error for a missing refresh token carries no config, so a GET that meets it is retried
   * by the loop, and the give-up counts as a breaker failure whatever the request's method.
   */
  lemma NoRefreshTokenIsRetryable(get: RequestConfig)
    requires get.httpMethod == Some("get") && get.retry != Some(false)
    ensures IsRetryableError(NoRefreshToken, Some(get))
    ensures IsRetryableError(NoRefreshToken, None)
  {
    assert Strings.Lower("get") == "get";
  }

  /** The request registered under a dedupe key: its id and how it ended. */
  datatype Pending = Pending(id: nat, result: Result<Response, HttpError>)

  /** What `requestWithPolicies` hands back. */
  datatype RequestOutcome =
    | FailedOffline(error: HttpError)
    | Shared(pending: Pending)
    | Started(pending: Pending, delays: seq<real>)

  /** The client's variables other than the breaker's, as a value. */
  datatype SessionState = SessionState(
    accessToken: Option<string>,
    storedRefreshToken: Option<string>,
    isRefreshing: bool,
    refreshQueue: seq<RequestConfig>,
    unauthorizedSignals: nat,
    inFlightRequests: map<string, Pending>,
    isOffline: bool,
    nextRequestId: nat)

  class Client {
    var accessToken: Option<string>
    /** `EncryptedStorage` under `REFRESH_TOKEN_KEY`. */
    var storedRefreshToken: Option<string>
    var isRefreshing: bool
    /** The requests waiting for the running refresh. */
    var refreshQueue: seq<RequestConfig>
    /** How often the unauthorized handler was signalled. */
    var unauthorizedSignals: nat
    var circuitState: CbState
    var failureCount: nat
    var nextAttemptAllowedAt: int
    var inFlightRequests: map<string, Pending>
    var isOffline: bool
    var nextRequestId: nat

    function Breaker(): Circuit
      reads this
    {
      Circuit(circuitState, failureCount, nextAttemptAllowedAt)
    }

    /** Everything but the breaker: what the breaker's own methods leave alone. */
    function Session(): SessionState
      reads this
    {
      SessionState(accessToken, storedRefreshToken, isRefreshing, refreshQueue, unauthorizedSignals,
                   inFlightRequests, isOffline, nextRequestId)
    }

    /**
     * The breaker is CLOSED exactly below the failure threshold, requests wait only while a
     * refresh runs, and every registered request has an id already handed out.
     */
    predicate Valid()
      reads this
    {
      && Consistent(Breaker())
      && (refreshQueue != [] ==> isRefreshing)
      && (forall k :: k in inFlightRequests ==> inFlightRequests[k].id < nextRequestId)
    }

    /** The state at module load. */
    constructor()
      ensures Valid()
      ensures accessToken == None && !isRefreshing && refreshQueue == [] && unauthorizedSignals == 0
      ensures Breaker() == Initial && inFlightRequests == map[] && !isOffline
    {
      accessToken := None;
      storedRefreshToken := None;
      isRefreshing := false;
      refreshQueue := [];
      unauthorizedSignals := 0;
      circuitState := Closed;
      failureCount := 0;
      nextAttemptAllowedAt := 0;
      inFlightRequests := map[];
      isOffline := false;
      nextRequestId := 0;
    }

    // -------------------------------------------------------------------------
    // Tokens
    // -------------------------------------------------------------------------

    /** `setAuthTokens({ token, refreshToken })`; a failed storage write is logged and swallowed. */
    method SetAuthTokens(token: Option<string>, refreshToken: Option<string>, writeFails: bool)
      modifies this
      ensures accessToken == (if TruthyText(token) then token else None)
      ensures storedRefreshToken == (if TruthyText(refreshToken) && !writeFails then refreshToken else old(storedRefreshToken))
      ensures isRefreshing == old(isRefreshing) && refreshQueue == old(refreshQueue)
      ensures unauthorizedSignals == old(unauthorizedSignals) && Breaker() == old(Breaker())
      ensures inFlightRequests == old(inFlightRequests) && nextRequestId == old(nextRequestId)
      ensures isOffline == old(isOffline)
    {
      accessToken := if TruthyText(token) then token else None;
      if TruthyText(refreshToken) && !writeFails {
        storedRefreshToken := refreshToken;
      }
    }

    /** `clearAuthTokens()`; a failed storage removal is logged and swallowed. */
    method ClearAuthTokens(removeFails: bool)
      modifies this
      ensures accessToken == None
      ensures storedRefreshToken == (if removeFails then old(storedRefreshToken) else None)
      ensures isRefreshing == old(isRefreshing) && refreshQueue == old(refreshQueue)
      ensures unauthorizedSignals == old(unauthorizedSignals) && Breaker() == old(Breaker())
      ensures inFlightRequests == old(inFlightRequests) && nextRequestId == old(nextRequestId)
      ensures isOffline == old(isOffline)
    {
      accessToken := None;
      if !removeFails {
        storedRefreshToken := None;
      }
    }

    /** `getStoredRefreshToken()`: a failed read yields null. */
    method GetStoredRefreshToken(readFails: bool) returns (t: Option<string>)
      ensures readFails ==> t == None
      ensures !readFails ==> t == storedRefreshToken
    {
      t := if readFails then None else storedRefreshToken;
    }

    // -------------------------------------------------------------------------
    // Circuit breaker
    // -------------------------------------------------------------------------

    /** `isCircuitOpen()` at time `now`. */
    method IsCircuitOpen(now: int) returns (open: bool)
      requires Valid()
      modifies this
      ensures Valid()
      ensures GateResult(open, Breaker()) == Gate(old(Breaker()), now)
      ensures Session() == old(Session())
    {
      TransitionsKeepConsistent(Breaker(), false, now);
      if circuitState == Open {
        if now >= nextAttemptAllowedAt {
          circuitState := HalfOpen;
          return false;
        }
        return true;
      }
      return false;
    }

    /** `recordFailureForCircuit(error)` at time `now`: the error is judged without an override. */
    method RecordFailureForCircuit(error: HttpError, now: int)
      requires Valid()
      modifies this
      ensures Valid()
      ensures Breaker() == AfterFailure(old(Breaker()), IsRetryableError(error, None), now)
      ensures Session() == old(Session())
    {
      TransitionsKeepConsistent(Breaker(), IsRetryableError(error, None), now);
      if !IsRetryableError(error, None) {
        return;
      }
      failureCount := failureCount + 1;
      if failureCount >= MaxFailures && circuitState == Closed {
        circuitState := Open;
        nextAttemptAllowedAt := now + OpenIntervalMs;
      }
    }

    /** `recordSuccessForCircuit()`. */
    method RecordSuccessForCircuit()
      requires Valid()
      modifies this
      ensures Valid()
      ensures Breaker() == AfterSuccess(old(Breaker()))
      ensures Session() == old(Session())
    {
      circuitState := Closed;
      failureCount := 0;
    }

    // -------------------------------------------------------------------------
    // Requests
    // -------------------------------------------------------------------------

    /** One pass of the loop in `executeWithRetryAndCircuit`, with attempt number `attempt`. */
    method AttemptOnce(config: RequestConfig, env: AttemptEnv, attempt: nat) returns (step: Step)
      requires Valid() && 0.0 <= env.jitter < 100.0
      modifies this
      ensures Valid()
      ensures step == AttemptStep(old(Breaker()), config, env, attempt) && Breaker() == step.circuit
      ensures Session() == old(Session())
    {
      if env.aborted {
        return Stop(Err(AbortedBeforeStart), Breaker(), []);
      }
      match env.result {
        case Ok(response) =>
          RecordSuccessForCircuit();
          return Stop(Ok(response), Breaker(), []);
        case Err(e) =>
          if IsCancellation(e) {
            return Stop(Err(e), Breaker(), []);
          }
          var canRetry := IsRetryableError(e, Some(config)) && attempt < MaxRetries;
          if !canRetry {
            RecordFailureForCircuit(e, env.failedAt);
            return Stop(Err(e), Breaker(), []);
          }
          var delay := RetryDelay(attempt, env.jitter);
          var reopened := IsCircuitOpen(env.wokeAt);
          if reopened {
            return Stop(Err(CircuitOpenedDuringRetries), Breaker(), [delay]);
          }
          return Continue(delay, Breaker());
      }
    }

    /** `executeWithRetryAndCircuit(config)`, started at `now`, in the world `envs`. */
    method ExecuteWithRetryAndCircuit(config: RequestConfig, now: int, envs: seq<AttemptEnv>)
      returns (r: Result<Response, HttpError>, delays: seq<real>)
      requires Valid() && ValidEnvs(envs)
      modifies this
      ensures Valid()
      ensures Run(r, Breaker(), delays) == Execute(old(Breaker()), config, now, envs)
      ensures Session() == old(Session())
    {
      var open := IsCircuitOpen(now);
      if open {
        return Err(CircuitOpenError), [];
      }
      r, delays := LoopAttempts(config, envs);
    }

    /** The `while (true)` loop of `executeWithRetryAndCircuit`, from the first attempt on. */
    method LoopAttempts(config: RequestConfig, envs: seq<AttemptEnv>) returns (r: Result<Response, HttpError>, delays: seq<real>)
      requires Valid() && ValidEnvs(envs)
      modifies this
      ensures Valid()
      ensures Run(r, Breaker(), delays) == RetryLoop(old(Breaker()), config, envs, 0)
      ensures Session() == old(Session())
    {
      delays := [];
      var attempt: nat := 0;
      LoopFromIsRetryLoop(Breaker(), config, envs, 0, []);
      assert [] + RetryLoop(Breaker(), config, envs, 0).delays == RetryLoop(Breaker(), config, envs, 0).delays;
      while true
        invariant Valid()
        invariant attempt <= MaxRetries
        invariant LoopFrom(Breaker(), config, envs, attempt, delays) == RetryLoop(old(Breaker()), config, envs, 0)
        invariant Session() == old(Session())
        decreases MaxRetries - attempt
      {
        var step := AttemptOnce(config, envs[attempt], attempt);
        match step {
          case Stop(result, _, tail) =>
            return result, delays + tail;
          case Continue(delay, _) =>
            delays := delays + [delay];
            attempt := attempt + 1;
        }
      }
    }

    /**
     * `requestWithPolicies(config)`: offline fails fast before anything else; a request whose
     * dedupe key is registered shares that entry and starts nothing; otherwise the request runs
     * and, when it has a key, is registered under it.
     */
    method RequestWithPolicies(config: RequestConfig, now: int, envs: seq<AttemptEnv>) returns (outcome: RequestOutcome)
      requires Valid() && ValidEnvs(envs)
      modifies this
      ensures Valid()
      ensures isOffline && config.allowWhileOffline != Some(true) ==>
                outcome == FailedOffline(OfflineError) && Breaker() == old(Breaker())
                && inFlightRequests == old(inFlightRequests) && nextRequestId == old(nextRequestId)
      ensures var key := GetDedupeKey(config);
              !(isOffline && config.allowWhileOffline != Some(true)) && key.Some? && key.value in old(inFlightRequests) ==>
                outcome == Shared(old(inFlightRequests)[key.value]) && Breaker() == old(Breaker())
                && inFlightRequests == old(inFlightRequests) && nextRequestId == old(nextRequestId)
      ensures var key := GetDedupeKey(config);
              !(isOffline && config.allowWhileOffline != Some(true)) && !(key.Some? && key.value in old(inFlightRequests)) ==>
                var run := Execute(old(Breaker()), config, now, envs);
                && outcome == Started(Pending(old(nextRequestId), run.result), run.delays)
                && Breaker() == run.circuit
                && nextRequestId == old(nextRequestId) + 1
                && inFlightRequests == (if key.Some? then old(inFlightRequests)[key.value := outcome.pending] else old(inFlightRequests))
      ensures accessToken == old(accessToken) && storedRefreshToken == old(storedRefreshToken)
      ensures isRefreshing == old(isRefreshing) && refreshQueue == old(refreshQueue)
      ensures unauthorizedSignals == old(unauthorizedSignals) && isOffline == old(isOffline)
    {
      if isOffline && config.allowWhileOffline != Some(true) {
        return FailedOffline(OfflineError);
      }
      var dedupeKey := GetDedupeKey(config);
      if dedupeKey.Some? && dedupeKey.value in inFlightRequests {
        return Shared(inFlightRequests[dedupeKey.value]);
      }
      var r, delays := ExecuteWithRetryAndCircuit(config, now, envs);
      var pending := Pending(nextRequestId, r);
      nextRequestId := nextRequestId + 1;
      if dedupeKey.Some? {
        inFlightRequests := inFlightRequests[dedupeKey.value := pending];
      }
      outcome := Started(pending, delays);
    }

    /** The `finally` of a registered request: its key is free again. */
    method SettleInFlight(dedupeKey: string)
      requires Valid()
      modifies this
      ensures Valid()
      ensures dedupeKey !in inFlightRequests
      ensures inFlightRequests == old(inFlightRequests) - {dedupeKey}
      ensures accessToken == old(accessToken) && storedRefreshToken == old(storedRefreshToken)
      ensures isRefreshing == old(isRefreshing) && refreshQueue == old(refreshQueue)
      ensures unauthorizedSignals == old(unauthorizedSignals) && Breaker() == old(Breaker())
      ensures nextRequestId == old(nextRequestId) && isOffline == old(isOffline)
    {
      inFlightRequests := inFlightRequests - {dedupeKey};
    }

    // -------------------------------------------------------------------------
    // Interceptors
    // -------------------------------------------------------------------------

    /** The request interceptor on `config`. */
    method AuthorizeRequest(config: RequestConfig) returns (r: RequestConfig)
      ensures r == AttachBearer(config, accessToken)
    {
      r := AttachBearer(config, accessToken);
    }

    /** `processRefreshQueue(error, newToken)`: settle every waiter the same way, then empty the queue. */
    method ProcessRefreshQueue(outcome: RefreshOutcome) returns (settled: seq<Settlement>)
      modifies this
      ensures settled == SettleAll(old(refreshQueue), outcome)
      ensures refreshQueue == []
      ensures accessToken == old(accessToken) && storedRefreshToken == old(storedRefreshToken)
      ensures isRefreshing == old(isRefreshing) && unauthorizedSignals == old(unauthorizedSignals)
      ensures Breaker() == old(Breaker()) && inFlightRequests == old(inFlightRequests)
      ensures nextRequestId == old(nextRequestId) && isOffline == old(isOffline)
    {
      settled := [];
      var i := 0;
      while i < |refreshQueue|
        invariant 0 <= i <= |refreshQueue|
        invariant |settled| == i
        invariant forall k :: 0 <= k < i ==> settled[k] == Settle(refreshQueue[k], outcome)
      {
        settled := settled + [Settle(refreshQueue[i], outcome)];
        i := i + 1;
      }
      refreshQueue := [];
    }

    /**
     * The response interceptor's decision on `error`: a 403 on a non-auth request signals the
     * unauthorized handler; a refreshable 401 queues behind the running refresh or starts one.
     */
    method OnResponseError(error: HttpError) returns (d: Decision)
      requires Valid()
      modifies this
      ensures Valid()
      ensures d == ResponseDecision(error, old(isRefreshing))
      ensures unauthorizedSignals == old(unauthorizedSignals) + (if Forbidden(error) then 1 else 0)
      ensures refreshQueue == (if d.Wait? then old(refreshQueue) + [d.request] else old(refreshQueue))
      ensures isRefreshing == (old(isRefreshing) || d.StartRefresh?)
      ensures accessToken == old(accessToken) && storedRefreshToken == old(storedRefreshToken)
      ensures Breaker() == old(Breaker()) && inFlightRequests == old(inFlightRequests)
      ensures nextRequestId == old(nextRequestId) && isOffline == old(isOffline)
    {
      d := ResponseDecision(error, isRefreshing);
      if Forbidden(error) {
        unauthorizedSignals := unauthorizedSignals + 1;
      }
      match d {
        case Reject(_) =>
        case Wait(marked) =>
          refreshQueue := refreshQueue + [marked];
        case StartRefresh(_) =>
          isRefreshing := true;
      }
    }

    /**
     * The refresher's continuation for `request`: read the stored refresh token, call the
     * refresh endpoint, store the new tokens, settle the waiters. Every exit clears
     * `isRefreshing` and empties the queue; every failure clears the tokens and signals the
     * unauthorized handler. The refresher's own request is settled like the waiters'.
     */
    method CompleteRefresh(request: RequestConfig, readError: Option<HttpError>,
                           reply: Result<RefreshReply, HttpError>, writeFails: bool, removeFails: bool)
      returns (own: Settlement, settled: seq<Settlement>)
      requires Valid()
      modifies this
      ensures Valid()
      ensures var outcome := RefreshOutcomeOf(old(storedRefreshToken), readError, reply);
              && own == Settle(request, outcome)
              && settled == SettleAll(old(refreshQueue), outcome)
      ensures !isRefreshing && refreshQueue == []
      ensures var outcome := RefreshOutcomeOf(old(storedRefreshToken), readError, reply);
              match outcome
              case RefreshFailed(_) =>
                && accessToken == None
                && storedRefreshToken == (if removeFails then old(storedRefreshToken) else None)
                && unauthorizedSignals == old(unauthorizedSignals) + 1
              case Refreshed(token) =>
                && accessToken == Some(token)
                && storedRefreshToken == (if TruthyText(reply.value.refreshToken) && !writeFails
                                          then reply.value.refreshToken else old(storedRefreshToken))
                && unauthorizedSignals == old(unauthorizedSignals)
      ensures Breaker() == old(Breaker()) && inFlightRequests == old(inFlightRequests)
      ensures nextRequestId == old(nextRequestId) && isOffline == old(isOffline)
    {
      var outcome := RefreshOutcomeOf(storedRefreshToken, readError, reply);
      if outcome.RefreshFailed? {
        if readError.None? && !TruthyText(storedRefreshToken) {
          ClearAuthTokens(removeFails);
          settled := ProcessRefreshQueue(outcome);
          isRefreshing := false;
        } else {
          isRefreshing := false;
          ClearAuthTokens(removeFails);
          settled := ProcessRefreshQueue(outcome);
        }
        unauthorizedSignals := unauthorizedSignals + 1;
        own := Rejected(outcome.error);
      } else {
        SetAuthTokens(reply.value.token, reply.value.refreshToken, writeFails);
        isRefreshing := false;
        settled := ProcessRefreshQueue(outcome);
        own := Resend(request.(authorization := Some(BearerHeader(outcome.token))));
      }
    }
  }
}
