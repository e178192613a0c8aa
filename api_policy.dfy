/**
 * The pure decisions of the HTTP client: which URLs are auth endpoints, how long to wait
 * before a retry, which requests may share one in-flight call, which errors are worth a retry,
 * and how the access token is attached to a request.
 */
module ApiPolicy {
  import opened Wrappers
  import opened Strings

  /**
   * The parts of an axios request config the policies look at. `params` is the text
   * `JSON.stringify` makes of the params object (None when there is none); `retried` is the
   * `_retry` mark; `authorization` is `headers.Authorization`.
   */
  datatype RequestConfig = RequestConfig(
    httpMethod: Option<string>,
    url: Option<string>,
    params: Option<string>,
    retry: Option<bool>,
    dedupe: Option<bool>,
    allowWhileOffline: Option<bool>,
    retried: bool,
    authorization: Option<string>)

  /** An error as the client sees it: `status` is present exactly when there was a response. */
  datatype HttpError = HttpError(
    message: string,
    code: Option<string>,
    status: Option<int>,
    config: Option<RequestConfig>,
    cancelled: bool)

  /** An error the client creates itself: no code, no response, no config. */
  function PlainError(message: string): HttpError {
    HttpError(message, None, None, None, false)
  }

  /** An error with a `code` the client creates itself. */
  function CodedError(message: string, code: string): HttpError {
    HttpError(message, Some(code), None, None, false)
  }

  /** A non-empty string, the only truthy string. */
  predicate TruthyText(s: Option<string>) {
    s.Some? && s.value != ""
  }

  // ---------------------------------------------------------------------------
  // `isAuthUrl(url)`
  // ---------------------------------------------------------------------------

  const LoginPath := "/api/auth/login"
  const RegisterPath := "/api/auth/register"
  const RefreshPath := "/api/auth/refresh"

  /** A falsy URL is not an auth URL; otherwise one of the three auth paths must occur in it. */
  function IsAuthUrl(url: Option<string>): (r: bool)
    ensures !TruthyText(url) ==> !r
    ensures TruthyText(url) ==>
              (r <==> Contains(url.value, LoginPath) || Contains(url.value, RegisterPath) || Contains(url.value, RefreshPath))
  {
    TruthyText(url) && (Contains(url.value, LoginPath) || Contains(url.value, RegisterPath) || Contains(url.value, RefreshPath))
  }

  /** Every URL naming an auth path, wherever it occurs, is an auth URL. */
  lemma AuthPathsAreAuthUrls(prefix: string, suffix: string)
    ensures IsAuthUrl(Some(prefix + LoginPath + suffix))
    ensures IsAuthUrl(Some(prefix + RegisterPath + suffix))
    ensures IsAuthUrl(Some(prefix + RefreshPath + suffix))
  {
    var paths := [LoginPath, RegisterPath, RefreshPath];
    forall k | 0 <= k < 3
      ensures Contains(prefix + paths[k] + suffix, paths[k])
    {
      var s := prefix + paths[k] + suffix;
      assert s[|prefix|..|prefix| + |paths[k]|] == paths[k];
      assert OccursAt(s, paths[k], |prefix|);
      ContainsIff(s, paths[k]);
    }
    assert paths[0] == LoginPath && paths[1] == RegisterPath && paths[2] == RefreshPath;
  }

  // ---------------------------------------------------------------------------
  // Backoff: `withJitter(RETRY_BASE_DELAY_MS * 2 ** attempt)`
  // ---------------------------------------------------------------------------

  /** `MAX_RETRIES`. */
  const MaxRetries: nat := 3
  /** `RETRY_BASE_DELAY_MS`. */
  const RetryBaseDelayMs: nat := 200
  /** `RETRY_MAX_DELAY_MS`. */
  const RetryMaxDelayMs: nat := 5000

  function Pow2(k: nat): (r: nat)
    ensures r >= 1
  {
    if k == 0 then 1 else 2 * Pow2(k - 1)
  }

  /**
   * `withJitter(baseDelay)` for the value `jitter = Math.random() * 100`: the delay with the
   * jitter added, capped at `RETRY_MAX_DELAY_MS`.
   */
  function WithJitter(baseDelay: nat, jitter: real): (r: real)
    requires 0.0 <= jitter < 100.0
    ensures r <= RetryMaxDelayMs as real
    ensures baseDelay as real + jitter <= RetryMaxDelayMs as real ==> r == baseDelay as real + jitter
    ensures baseDelay as real + jitter > RetryMaxDelayMs as real ==> r == RetryMaxDelayMs as real
  {
    var d := baseDelay as real + jitter;
    if d < RetryMaxDelayMs as real then d else RetryMaxDelayMs as real
  }

  /** The delay before the retry that follows attempt `attempt`. */
  function RetryDelay(attempt: nat, jitter: real): (r: real)
    requires 0.0 <= jitter < 100.0
    ensures r <= RetryMaxDelayMs as real
    ensures r < (RetryBaseDelayMs * Pow2(attempt)) as real + 100.0
    ensures (RetryBaseDelayMs * Pow2(attempt)) as real <= r || r == RetryMaxDelayMs as real
  {
    WithJitter(RetryBaseDelayMs * Pow2(attempt), jitter)
  }

  /** For the three retries the loop allows the cap never binds: the delay is 200·2^k plus at most 100 ms. */
  lemma RetryDelayUncapped(attempt: nat, jitter: real)
    requires attempt < MaxRetries && 0.0 <= jitter < 100.0
    ensures (RetryBaseDelayMs * Pow2(attempt)) as real <= RetryDelay(attempt, jitter)
    ensures RetryDelay(attempt, jitter) < (RetryBaseDelayMs * Pow2(attempt)) as real + 100.0
  {
  }

  // ---------------------------------------------------------------------------
  // Methods, dedupe keys, retry classification
  // ---------------------------------------------------------------------------

  /** `(config.method || 'get').toLowerCase()`. */
  function MethodOf(config: RequestConfig): (r: string)
    ensures !TruthyText(config.httpMethod) ==> r == "get"
    ensures TruthyText(config.httpMethod) ==> r == Lower(config.httpMethod.value)
  {
    if TruthyText(config.httpMethod) then Lower(config.httpMethod.value) else "get"
  }

  /** Only GET and HEAD are idempotent enough to share or retry. */
  predicate IsIdempotent(verb: string) {
    verb == "get" || verb == "head"
  }

  /**
   * `getDedupeKey(config)`: no key when dedupe is switched off or the method is not GET/HEAD;
   * otherwise `method|url|params`, a missing URL or params counting as empty.
   */
  function GetDedupeKey(config: RequestConfig): (r: Option<string>)
    ensures r.Some? <==> config.dedupe != Some(false) && IsIdempotent(MethodOf(config))
    ensures r.Some? ==> StartsWith(r.value, MethodOf(config) + "|")
    ensures r.Some? ==> r.value == MethodOf(config) + "|" + OrEmpty(config.url) + "|" + OrEmpty(config.params)
  {
    if config.dedupe == Some(false) then None
    else
      var verb := MethodOf(config);
      if !IsIdempotent(verb) then None
      else
        var url := if TruthyText(config.url) then config.url.value else "";
        var params := if TruthyText(config.params) then config.params.value else "";
        assert (verb + "|" + url + "|" + params)[..|verb + "|"|] == verb + "|";
        Some(verb + "|" + url + "|" + params)
  }

  /** `s || ''` for an optional string: a falsy value reads as empty. */
  function OrEmpty(s: Option<string>): (r: string)
    ensures TruthyText(s) ==> r == s.value
    ensures !TruthyText(s) ==> r == ""
  {
    if TruthyText(s) then s.value else ""
  }

  /** A GET and a HEAD request never share a key, whatever their URLs and params. */
  lemma DedupeKeySeparatesMethods(a: RequestConfig, b: RequestConfig)
    requires GetDedupeKey(a).Some? && GetDedupeKey(b).Some?
    requires GetDedupeKey(a) == GetDedupeKey(b)
    ensures MethodOf(a) == MethodOf(b)
  {
    var ka := GetDedupeKey(a).value;
    assert ka[0] == MethodOf(a)[0] && ka[0] == MethodOf(b)[0];
  }

  /** Requests that agree on method, URL and params share a key, whatever else differs. */
  lemma DedupeKeyIgnoresOtherFields(a: RequestConfig, b: RequestConfig)
    requires a.dedupe != Some(false) && b.dedupe != Some(false)
    requires a.httpMethod == b.httpMethod && a.url == b.url && a.params == b.params
    ensures GetDedupeKey(a) == GetDedupeKey(b)
  {
  }

  /**
   * The client's `isRetryableError(error, configOverride)`: the error's own config wins over the
   * override. Never when `retry === false` or the method is not GET/HEAD; always when there was
   * no response; otherwise exactly for 5xx statuses.
   */
  function IsRetryableError(error: HttpError, configOverride: Option<RequestConfig>): (r: bool)
    ensures r ==> error.status.None? || 500 <= error.status.value < 600
    ensures var config := if error.config.Some? then error.config else configOverride;
            config.Some? && (config.value.retry == Some(false) || !IsIdempotent(MethodOf(config.value))) ==> !r
    ensures var config := if error.config.Some? then error.config else configOverride;
            !(config.Some? && (config.value.retry == Some(false) || !IsIdempotent(MethodOf(config.value)))) ==>
              (r <==> error.status.None? || 500 <= error.status.value < 600)
  {
    var config := if error.config.Some? then error.config else configOverride;
    if config.Some? && config.value.retry == Some(false) then false
    else
      var verb := if config.Some? then MethodOf(config.value) else "get";
      if !IsIdempotent(verb) then false
      else if error.status.None? then true
      else 500 <= error.status.value < 600
  }

  /**
   * An error that carries no config of its own is judged as a GET when no override is given,
   * so the same error can count as a circuit failure although the POST it came from would not
   * have been retried.
   */
  lemma ConfiglessErrorCountsAsGet(message: string, post: RequestConfig)
    requires post.httpMethod == Some("post")
    ensures !IsRetryableError(PlainError(message), Some(post))
    ensures IsRetryableError(PlainError(message), None)
  {
    assert Lower("post") == "post";
  }

  // ---------------------------------------------------------------------------
  // Request interceptor: the `Authorization: Bearer` header
  // ---------------------------------------------------------------------------

  /** `Bearer <token>`, the header form of section 2.1 of RFC 6750. */
  function BearerHeader(token: string): (r: string)
    ensures StartsWith(r, "Bearer ") && r[7..] == token
  {
    "Bearer " + token
  }

  /**
   * The request interceptor: a request to anything but an auth URL gets the in-memory access
   * token, when there is one; every other request goes out as it came.
   */
  function AttachBearer(config: RequestConfig, accessToken: Option<string>): (r: RequestConfig)
    ensures !IsAuthUrl(config.url) && TruthyText(accessToken) ==>
              r == config.(authorization := Some(BearerHeader(accessToken.value)))
    ensures IsAuthUrl(config.url) || !TruthyText(accessToken) ==> r == config
  {
    if !IsAuthUrl(config.url) && TruthyText(accessToken) then
      config.(authorization := Some(BearerHeader(accessToken.value)))
    else config
  }

  /** Auth endpoints never carry the access token. */
  lemma AuthUrlsCarryNoToken(config: RequestConfig, accessToken: Option<string>)
    requires IsAuthUrl(config.url)
    ensures AttachBearer(config, accessToken).authorization == config.authorization
  {
  }

  /** Attaching is idempotent. */
  lemma AttachBearerIdempotent(config: RequestConfig, accessToken: Option<string>)
    ensures AttachBearer(AttachBearer(config, accessToken), accessToken) == AttachBearer(config, accessToken)
  {
  }
}
