# Receipt capture client: a verified model of its core

This project models, in Dafny, the client-side core of a React Native app for capturing receipts.

- **Receipt parser.** It extracts a merchant name, a total and a currency from the text that on-device OCR returns.
- **Tag helpers.** These belong to the receipt editor.
- **Draft file store.** It normalises the local image path and checks for or deletes the file.
- **Draft session store.** An in-memory list of unsent receipt drafts.
- **Offline upload manager.** Each draft gets one upload job with a retry budget of three attempts. A fixed schedule of 3 s, 10 s and 30 s governs its timers.
- **HTTP client.** It holds a circuit breaker, a retry loop with jittered exponential backoff, a registry that lets identical GET/HEAD requests share one call, and the access and refresh tokens. It answers a 401 with a single-flight refresh.

Code that only computes is modelled as functions, with lemmas about them:

- the parser;
- the tag helpers;
- the path and filesystem rules;
- the retry classifications;
- the breaker's transitions;
- the dedupe key;
- the header rule;
- the interceptor's decision.

State that the source keeps at module level and updates in place is modelled as a class, one per module:

- `DraftSessionStore.SessionStore` for the list of drafts;
- `OfflineSync.UploadJobs` for the `jobs` map, the job objects it refers to, and the timers the runtime holds;
- `ApiClient.Client` for the tokens, the breaker's variables, the refresh queue and the in-flight registry.

Each method of these classes is proved against a specification function: the new state and the result are tied to that function, and the function's properties are proved as lemmas. The retry loop of `executeWithRetryAndCircuit` is a `while` loop. Its invariant ties the state reached so far to the recursive specification `RetryLoop`.

The environment enters as parameters:

- the clock (`now`, `failedAt`, `wokeAt`);
- `Math.random`, as the jitter in `[0, 100)`;
- the transport's replies;
- `NetInfo.fetch`'s answer;
- the filesystem (which files exist, and where `exists` or `unlink` throws);
- whether encrypted storage reads and writes fail.

Amounts are integer cents. The money pattern always ends with exactly two decimals, so the amount `Number` yields is that many cents.

Where the code and its own comments disagree, the model follows the code. Lemmas make each of the following facts about the code explicit. Where a comment in the code says otherwise, the item cites that comment:

- **A HALF_OPEN breaker is never reopened by a failure.** Only a CLOSED breaker opens (`CircuitBreaker.HalfOpenNeverReopens`). A failed request in HALF_OPEN leaves the breaker HALF_OPEN, so it starts no fresh cooldown.
- **A HALF_OPEN breaker lets every request through** (`CircuitBreaker.Gate`). The comments at src/api/apiClient.js:51 and :250 speak of a limited number of requests and of one trial attempt.
- **The delays armed after failed upload attempts are 10 s and then 30 s.** The job's counter is bumped before `getBackoffMs` reads it, and the third failure gives up without arming a timer (`OfflineSync.RetryDelaysAfterFailures`, `OfflineSync.ThirdRetryableFailureGivesUp`). The 3 s entry is used only when the device is offline before any attempt has been consumed. The comment at src/services/retryPolicy.js:25 maps attempt indexes 0, 1 and 2 to 3 s, 10 s and 30 s.
- **A retry timer can stay armed while an attempt is in flight.** Suppose an enqueue runs the job while its timer is armed. `runJob` does not clear that timer, so the attempt goes in flight with it still armed (`OfflineSync.UploadJobs.ResumeRun` leaves `timers` unchanged when online). When that timer fires during the attempt, its run does nothing, because the job is in flight.
- **A job that gives up is deleted,** just as a successful or broken job is. The draft itself lives in the separate session store and is not touched.

Other behaviour of the code that the lemmas make explicit:

- **An error with no config of its own is judged as a GET.** The client's `isRetryableError` falls back to the override config and then to `{}`. So an error such as "No refresh token available" is retried by the loop for a GET, and it counts as a breaker failure whatever the request's method (`ApiPolicy.ConfiglessErrorCountsAsGet`, `ApiClient.NoRefreshTokenIsRetryable`).
- **An upload reply without a receipt id is retried.** The error carries no status, and the upload retry policy retries every error without one (`OfflineSync.UploadNoIdIsRetryable`).
- **A four-digit amount without a thousands separator loses its first digit.** The pattern takes at most three leading digits, so the leftmost match in "1234.56" starts at the second character and the value is 234.56 (`ReceiptParser.UngroupedThousands`).
- **Two runs of one job can upload at the same time.** `runJob` tests `inFlight` before it awaits `NetInfo.fetch()` and sets it only afterwards. Two enqueues of an idle job, or an enqueue and a timer, can both pass the test, and both then upload (`OfflineSync.UploadJobs.ResumeRun` does not look at the flag again).
- **An attempt whose job was dropped counts on its own job object.** Suppose the upload is cancelled and enqueued again while an attempt runs. That attempt still bumps and tests the counter of the object it started with, but it deletes, re-arms or clears the in-flight flag of the new object filed under the draft (`OfflineSync.UploadJobs.CompleteAttempt`).
- **A bare `file://` normalises to the empty path,** not to null. The later `!path` guards treat it as missing (`DraftFileStore.BareSchemeGivesEmptyPath`).

## Model

| member | source | states |
|---|---|---|
| Strings.IndexOf | src/utils/receiptParser.ts:17-19 | the index found is the first occurrence at or after the start position; none means the needle occurs nowhere from there |
| Strings.ContainsIff | src/utils/receiptParser.ts:17-19 | `includes` holds exactly when the needle occurs at some index |
| Strings.ReplaceFirstOfPrefix | src/services/draftFileStore.js:10 | replacing the first occurrence of a pattern the string starts with replaces that prefix and nothing else |
| Strings.ReplaceFirstChar | src/utils/receiptParser.ts:10 | replacing a one-character pattern changes exactly its first occurrence, in place, and keeps the length |
| Strings.Upper | src/utils/receiptParser.ts:16 | upper-casing keeps the length and maps every character on its own: ASCII small letters to capitals, everything else to itself |
| Strings.Lower | src/api/apiClient.js:233 | lower-casing keeps the length and maps every character on its own: ASCII capitals to small letters, everything else to itself |
| RetryPolicy.IsRetryableError | src/services/retryPolicy.js:6-22 | a message naming "Network" or "timeout" is retryable; otherwise a truthy status is retryable exactly for 5xx and 429; an error without one is retryable; a refusal always has a non-429, non-5xx status |
| RetryPolicy.GetBackoffMs | src/services/retryPolicy.js:24-28 | index 0 gives 3000 ms, 1 gives 10000 ms, every later index 30000 ms, always an entry of the schedule |
| RetryPolicy.BackoffMonotonic | src/services/retryPolicy.js:24-28 | the schedule never shortens as the index grows |
| TagUtils.AddTag | src/utils/tagUtils.js:2-5 | the old list is a prefix of the result; the result holds exactly the old tags plus the new one when that is non-empty; an empty or present tag leaves the list as it is |
| TagUtils.AddTagKeepsDistinct | src/utils/tagUtils.js:2-5 | adding never creates a duplicate |
| TagUtils.RemoveTag | src/utils/tagUtils.js:6-8 | the removed tag no longer occurs, and every other tag keeps its multiplicity |
| TagUtils.RemoveTagAppend | src/utils/tagUtils.js:6-8 | removal keeps order: it distributes over concatenation |
| TagUtils.RemoveAbsentTag | src/utils/tagUtils.js:6-8 | removing an absent tag returns the list unchanged |
| TagUtils.RemoveTagIdempotent | src/utils/tagUtils.js:6-8 | removing twice equals removing once |
| TagUtils.RemoveUndoesAdd | src/utils/tagUtils.js:2-8 | removing a tag just added restores the original list |
| TagUtils.AllTagChars | src/utils/tagUtils.js:11 | true exactly when every character is in `[a-zA-Z0-9-_ ]` |
| TagUtils.ValidateTag | src/utils/tagUtils.js:9-12 | valid exactly for 1 to 20 characters, all from the tag character class |
| DraftFileStore.NormalizeFilePath | src/services/draftFileStore.js:8-11 | a missing or empty path gives null; a leading `file://` is dropped; any other path is returned unchanged |
| DraftFileStore.BareSchemeGivesEmptyPath | src/services/draftFileStore.js:8-11 | a bare `file://` normalises to the empty string, not to null |
| DraftFileStore.FileExists | src/services/draftFileStore.js:13-22 | false for a falsy normalised path; otherwise true exactly when the file is present and `exists` does not throw |
| DraftFileStore.DeleteFileIfExists | src/services/draftFileStore.js:24-37 | never touches a file other than the normalised path; removes it exactly when it exists and neither call throws; a falsy path changes nothing |
| DraftFileStore.DeletedFileIsGone | src/services/draftFileStore.js:24-37 | after a delete whose unlink does not fail, `fileExists` reports false |
| DraftFileStore.DeleteIdempotent | src/services/draftFileStore.js:24-37 | deleting twice equals deleting once |
| DraftSessionStore.Merge | src/services/draftSessionStore.js:27 | for each of the eight properties, one present in the patch, even as null, overrides, and one missing from it is kept |
| DraftSessionStore.MergeIdempotent | src/services/draftSessionStore.js:27 | merging the same patch twice equals merging it once, and the empty patch changes nothing |
| DraftSessionStore.FindIndex | src/services/draftSessionStore.js:25 | the index found is the first entry with that id; none means no entry has it |
| DraftSessionStore.Upsert | src/services/draftSessionStore.js:20-35 | fails with the fixed message exactly when the id or the image URI is falsy |
| DraftSessionStore.UpsertNewPrepends | src/services/draftSessionStore.js:29-31 | a new id puts the draft first, and the old list follows unchanged |
| DraftSessionStore.UpsertExistingMerges | src/services/draftSessionStore.js:25-28 | a known id is merged where it stands, keeping its id; the length and every other entry are unchanged |
| DraftSessionStore.UpsertKeepsUnique | src/services/draftSessionStore.js:20-35 | upserting keeps every id truthy and distinct |
| DraftSessionStore.DropId | src/services/draftSessionStore.js:39 | no remaining entry has the id; every remaining entry came from the list |
| DraftSessionStore.DropIdCounts | src/services/draftSessionStore.js:39 | every draft with another id keeps its number of occurrences |
| DraftSessionStore.DropIdAppend | src/services/draftSessionStore.js:39 | filtering keeps order: it distributes over concatenation |
| DraftSessionStore.DropIdKeepsUnique | src/services/draftSessionStore.js:39 | filtering keeps ids distinct |
| DraftSessionStore.DropIdNoop | src/services/draftSessionStore.js:39 | filtering an id nobody has changes nothing |
| DraftSessionStore.Remove | src/services/draftSessionStore.js:37-42 | a falsy id changes nothing; otherwise no entry with that id remains, and every remaining entry was there before |
| DraftSessionStore.RemoveKeepsOthers | src/services/draftSessionStore.js:37-42 | every draft with another id keeps its number of occurrences |
| DraftSessionStore.RemoveIdempotent | src/services/draftSessionStore.js:37-42 | removing twice equals removing once |
| DraftSessionStore.RemoveUndoesInsert | src/services/draftSessionStore.js:20-42 | removing a draft just inserted under a new id restores the list |
| DraftSessionStore.SessionStore.constructor | src/services/draftSessionStore.js:7 | the session starts with no drafts |
| DraftSessionStore.SessionStore.GetDrafts | src/services/draftSessionStore.js:16-18 | returns the current list, whose ids are truthy and distinct |
| DraftSessionStore.SessionStore.UpsertDraft | src/services/draftSessionStore.js:20-35 | the result is `Upsert` of the old list; an error leaves the store untouched, a success stores the returned list; ids stay truthy and distinct |
| DraftSessionStore.SessionStore.RemoveDraft | src/services/draftSessionStore.js:37-42 | the store becomes `Remove` of the old list and is returned; ids stay distinct |
| DraftSessionStore.SessionStore.ClearAllDrafts | src/services/draftSessionStore.js:44-48 | the store and the result are empty |
| CircuitBreaker.Gate | src/api/apiClient.js:246-257 | refuses exactly when OPEN before the deadline; an OPEN breaker past the deadline turns HALF_OPEN and admits; CLOSED and HALF_OPEN admit unchanged; count and deadline are never touched |
| CircuitBreaker.AfterFailure | src/api/apiClient.js:263-280 | an uncounted error changes nothing; a counted one adds one failure; only a CLOSED breaker reaching five opens, with the deadline 30 s after now |
| CircuitBreaker.AfterSuccess | src/api/apiClient.js:282-288 | the breaker is CLOSED with no failures, and the deadline is kept |
| CircuitBreaker.TransitionsKeepConsistent | src/api/apiClient.js:246-288 | every transition keeps the breaker CLOSED exactly while fewer than five failures are counted |
| CircuitBreaker.HalfOpenNeverReopens | src/api/apiClient.js:270 | a failure leaves a HALF_OPEN breaker HALF_OPEN, and it admits every request |
| CircuitBreaker.StreakBelowThresholdStaysClosed | src/api/apiClient.js:263-280 | a CLOSED breaker stays CLOSED while the streak keeps it below five, counting each failure |
| CircuitBreaker.FifthFailureOpens | src/api/apiClient.js:263-280 | from the initial breaker, four failures leave it CLOSED and the fifth opens it until 30 s later |
| CircuitBreaker.StreakShift | src/api/apiClient.js:263-280 | the last failure of a streak can be taken last |
| CircuitBreaker.OpenStaysOpen | src/api/apiClient.js:263-280 | failures never move an OPEN breaker or its deadline |
| ApiPolicy.IsAuthUrl | src/api/apiClient.js:203-210 | a falsy URL is not an auth URL; any other URL is one exactly when it contains one of the three auth paths |
| ApiPolicy.AuthPathsAreAuthUrls | src/api/apiClient.js:203-210 | any URL containing one of the auth paths, anywhere in it, is an auth URL |
| ApiPolicy.WithJitter | src/api/apiClient.js:221-224 | never more than 5000 ms; the delay plus jitter when that is within the cap, otherwise the cap |
| ApiPolicy.RetryDelay | src/api/apiClient.js:377 | never more than 5000 ms; at least 200·2^attempt ms unless capped at 5000 ms; below 200·2^attempt + 100 ms |
| ApiPolicy.RetryDelayUncapped | src/api/apiClient.js:377 | for the three retries allowed, the delay is at least 200·2^attempt ms and below that plus 100 ms |
| ApiPolicy.MethodOf | src/api/apiClient.js:233 | a missing or empty method is "get"; any other is lower-cased |
| ApiPolicy.GetDedupeKey | src/api/apiClient.js:230-240 | a key exists exactly when dedupe is not switched off and the method is GET or HEAD; it is the method, the URL (or "" when falsy) and the params text (or ""), joined by bars |
| ApiPolicy.DedupeKeySeparatesMethods | src/api/apiClient.js:230-240 | two requests sharing a key have the same method |
| ApiPolicy.DedupeKeyIgnoresOtherFields | src/api/apiClient.js:230-240 | requests agreeing on method, URL and params share a key |
| ApiPolicy.IsRetryableError | src/api/apiClient.js:303-318 | never when the effective config (the error's own, else the override) says `retry: false` or uses a method other than GET/HEAD; otherwise, including when there is no config at all, retryable exactly without a response or with a 5xx |
| ApiPolicy.ConfiglessErrorCountsAsGet | src/api/apiClient.js:303-307 | a config-less error is refused for a POST override but counts as retryable with no override |
| ApiPolicy.BearerHeader | src/api/apiClient.js:454 | the header is "Bearer " followed by the token |
| ApiPolicy.AttachBearer | src/api/apiClient.js:452-455 | a non-auth request with a truthy token gets the bearer header; any other request is unchanged |
| ApiPolicy.AuthUrlsCarryNoToken | src/api/apiClient.js:452-455 | a request to an auth URL keeps its authorization as it was |
| ApiPolicy.AttachBearerIdempotent | src/api/apiClient.js:452-455 | attaching twice equals attaching once |
| ApiClient.AttemptStep | src/api/apiClient.js:338-389 | an abort or cancellation stops with no failure and no sleep; a success stops with the response and `AfterSuccess`; an error that may not be retried, or that comes with no retry left, stops with that error and one `AfterFailure`; a retryable error below three retries sleeps the jittered backoff and goes on exactly when the breaker admits at wake-up, otherwise stops with "opened during retries" |
| ApiClient.RetryLoop | src/api/apiClient.js:337-390 | the loop sleeps at most as often as retries remain |
| ApiClient.LoopFromIsRetryLoop | src/api/apiClient.js:337-390 | running the loop after delays already slept only puts those delays first |
| ApiClient.Execute | src/api/apiClient.js:325-391 | an OPEN breaker before its deadline fails fast with CIRCUIT_OPEN and no change; at most three backoff sleeps |
| ApiClient.DelaysAreRetryDelays | src/api/apiClient.js:376-380 | the delays slept are exactly `Backoffs`: the jittered backoff of each attempt in turn, the k-th sleep for attempt k, and only attempts below three sleep |
| ApiClient.RetryLoopRetried | src/api/apiClient.js:362-380 | every attempt that the loop went on from was not aborted, not cancelled and failed with an error retryable under the call's config |
| ApiClient.RetryLoopLast | src/api/apiClient.js:337-373 | the loop's result and breaker are those its last attempt ends with (`EndsAt`) |
| ApiClient.LoopRecordsAtMostOneFailure | src/api/apiClient.js:337-390 | a success leaves the breaker CLOSED with no failures; a failed call records at most one failure |
| ApiClient.RetryLoopOutcome | src/api/apiClient.js:337-390 | from a breaker that is not OPEN: every attempt before the last failed with a retryable error; the result is the last attempt's own outcome; a success closes the breaker, a cancellation leaves it as it was, and a give-up comes only with no retry left for it and records exactly `AfterFailure` once |
| ApiClient.ExecuteOutcome | src/api/apiClient.js:325-391 | once the breaker admits the call, the same holds for the whole call from the breaker the gate leaves |
| ApiClient.CancellationRecordsNoFailure | src/api/apiClient.js:364-367 | a cancelled call records no failure, and a first attempt that is aborted or cancelled never sleeps |
| ApiClient.OnlyIdempotentRequestsRetry | src/api/apiClient.js:369-374 | a request that is not GET/HEAD, or has `retry: false`, never sleeps for a retry |
| ApiClient.ResponseDecision | src/api/apiClient.js:491-539 | only a 401 on a non-auth request that was not yet retried avoids rejection; its request is marked retried, and it waits exactly when a refresh is running |
| ApiClient.AtMostOneRefreshPerRequest | src/api/apiClient.js:511-521 | a request once marked is rejected on any later error |
| ApiClient.Settle | src/api/apiClient.js:527-536 | a failed refresh rejects with its error; a success resends the request, with the new bearer header when the token is truthy |
| ApiClient.SettleAll | src/api/apiClient.js:462-471 | one settlement per queued request, in queue order |
| ApiClient.SettleAllUniform | src/api/apiClient.js:462-471 | every waiter observes the same outcome: all rejected with the one error, or all resent |
| ApiClient.RefreshOutcomeOf | src/api/apiClient.js:543-594 | the refresh succeeds exactly when the read works, a refresh token is stored, the call succeeds and returns a non-empty access token, which is the new token; a missing stored token fails with "No refresh token available" |
| ApiClient.NoRefreshTokenIsRetryable | src/api/apiClient.js:546-555 | the missing-refresh-token error is retryable for a GET and counts as a breaker failure |
| ApiClient.Client.constructor | src/api/apiClient.js:29-100 | no token, no refresh running, an empty queue and registry, the breaker CLOSED with no failures, online |
| ApiClient.Client.SetAuthTokens | src/api/apiClient.js:153-163 | the access token is the given one when truthy, else null; a truthy refresh token is stored unless the write fails; nothing else changes |
| ApiClient.Client.ClearAuthTokens | src/api/apiClient.js:168-176 | the access token is null; the stored refresh token is removed unless removal fails; nothing else changes |
| ApiClient.Client.GetStoredRefreshToken | src/api/apiClient.js:181-188 | the stored token, or null when the read fails |
| ApiClient.Client.IsCircuitOpen | src/api/apiClient.js:246-257 | answer and new breaker are those of `Gate`; the rest of the state is unchanged |
| ApiClient.Client.RecordFailureForCircuit | src/api/apiClient.js:263-280 | the breaker becomes `AfterFailure` with the error judged without an override |
| ApiClient.Client.RecordSuccessForCircuit | src/api/apiClient.js:282-288 | the breaker becomes `AfterSuccess` |
| ApiClient.Client.AttemptOnce | src/api/apiClient.js:338-389 | the step taken and the breaker left are those of `AttemptStep` |
| ApiClient.Client.ExecuteWithRetryAndCircuit | src/api/apiClient.js:325-391 | the result, the breaker left and the delays slept are those of `Execute`; tokens, queue and registry are unchanged |
| ApiClient.Client.LoopAttempts | src/api/apiClient.js:333-390 | the result, breaker and delays are those of `RetryLoop` from the first attempt |
| ApiClient.Client.RequestWithPolicies | src/api/apiClient.js:403-428 | offline without `allowWhileOffline` fails with OFFLINE and changes nothing; a registered key shares that entry and starts nothing; otherwise `Execute` runs and, when there is a key, its outcome is registered under it |
| ApiClient.Client.SettleInFlight | src/api/apiClient.js:422-424 | the key is removed from the registry, and nothing else changes |
| ApiClient.Client.AuthorizeRequest | src/api/apiClient.js:440-457 | the request leaves as `AttachBearer` of the in-memory token makes it |
| ApiClient.Client.ProcessRefreshQueue | src/api/apiClient.js:462-471 | every queued request is settled by `SettleAll`, and the queue is empty |
| ApiClient.Client.OnResponseError | src/api/apiClient.js:476-539 | the decision is `ResponseDecision`; a forbidden response signals the unauthorized handler once; a waiting request joins the end of the queue; starting a refresh sets the flag |
| ApiClient.Client.CompleteRefresh | src/api/apiClient.js:541-594 | every exit clears the flag and empties the queue, settling everyone with `RefreshOutcomeOf`; a failure clears the tokens and signals once; a success stores the new access token and the new refresh token when given |
| OfflineSync.OrNull | src/services/offlineSync.js:21-24 | a value present stays, a missing or null one becomes null |
| OfflineSync.MapDraftToReceiptData | src/services/offlineSync.js:19-28 | each field is the draft's value or its default: null for merchant, currency, date and total, no tags, the folder "Private"; the total is sent as its text |
| OfflineSync.EmptyFolderIsKept | src/services/offlineSync.js:26 | an empty folder name is not replaced by the default |
| OfflineSync.UploadOnce | src/services/offlineSync.js:34-61 | a missing file fails with FILE_MISSING; a reply without an id fails with UPLOAD_NO_ID; success exactly when the file exists, the upload returns an id and the save succeeds, and the result is that id |
| OfflineSync.UploadNoIdIsRetryable | src/services/offlineSync.js:46-51 | the error for a missing receipt id has no status and is retryable |
| OfflineSync.AttemptVerdict | src/services/offlineSync.js:108-152 | success ends the job with its receipt id; FILE_MISSING marks it broken; a retry happens exactly for a retryable error that leaves attempts below three; anything else gives up with the error |
| OfflineSync.RetryDelaysAfterFailures | src/services/offlineSync.js:141-174 | after a retryable failure the delay armed is 10 s for the first and 30 s for the second |
| OfflineSync.ThirdRetryableFailureGivesUp | src/services/offlineSync.js:141-150 | the first two retryable failures retry, and the third gives up |
| OfflineSync.Offline | src/services/offlineSync.js:97 | online exactly when connected and reachability is not known to be false: a null reachability counts as online |
| OfflineSync.Without | src/services/offlineSync.js:176-182 | removes the cancelled timer and keeps every other armed timer |
| OfflineSync.UploadJobs.AtMostOneTimerPerDraft | src/services/offlineSync.js:159-182 | no draft ever has two armed timers, and two drafts never share a job object |
| OfflineSync.UploadJobs.constructor | src/services/offlineSync.js:13 | no job and no armed timer at start-up |
| OfflineSync.UploadJobs.ClearTimer | src/services/offlineSync.js:176-182 | the filed job's recorded timer is cancelled, the object records none, no timer for the draft remains, and nothing else changes |
| OfflineSync.UploadJobs.ScheduleRetry | src/services/offlineSync.js:159-174 | no job changes nothing; otherwise the delay comes from the filed object's counter as it is, its old timer is cleared, and one new timer for the draft is armed and recorded on it |
| OfflineSync.UploadJobs.Finish | src/services/offlineSync.js:111-112 | the filed job's timer is cleared and the entry dropped; the object itself is kept |
| OfflineSync.UploadJobs.CancelUpload | src/services/offlineSync.js:187-191 | the job is deleted and no timer for the draft remains; an unknown id changes nothing |
| OfflineSync.UploadJobs.PendingRun | src/services/offlineSync.js:88-93 | a run goes on exactly when a job is filed and not in flight, and it holds the reference to that object |
| OfflineSync.UploadJobs.ResumeRun | src/services/offlineSync.js:96-106 | offline arms a retry for the job filed now without consuming an attempt; online puts the run's own object in flight without testing the flag again, leaving timers alone |
| OfflineSync.UploadJobs.CompleteAttempt | src/services/offlineSync.js:108-156 | the callback is the one `AttemptVerdict` chooses for the run's own object's counter; an ending outcome drops the entry and its timer, after bumping the run's object when the failure counts; a retry bumps the run's object, arms the backoff read from the filed object's counter, and clears the filed object's in-flight flag; with no job filed only the bump happens |
| OfflineSync.UploadJobs.ConsumeAttempt | src/services/offlineSync.js:141-152 | the run's own object's counter is bumped; reaching three drops the job filed now and gives up; otherwise a retry is armed for it |
| OfflineSync.UploadJobs.ClearInFlight | src/services/offlineSync.js:153-156 | whatever object is filed under the draft is no longer in flight, and nothing else changes |
| OfflineSync.UploadJobs.EnqueueUpload | src/services/offlineSync.js:71-93 | fails exactly for a falsy id or image and changes nothing; a job in flight is left alone; otherwise a missing job is created with no attempts used and filed, and the run of the filed object starts |
| OfflineSync.UploadJobs.TimerFired | src/services/offlineSync.js:171-173 | the fired timer is spent and nothing else changes; a run starts exactly when the draft's job is not in flight, on the object filed |
| ReceiptParser.SkipSpaces | src/utils/receiptParser.ts:4 | drops exactly the leading run of white space |
| ReceiptParser.TrimEnd | src/utils/receiptParser.ts:4 | drops exactly the trailing run of white space |
| ReceiptParser.CollapseSpaces | src/utils/receiptParser.ts:4 | the result is single-spaced, empty exactly when the input is, and keeps every non-space character in order |
| ReceiptParser.NormLine | src/utils/receiptParser.ts:3-5 | the line is single-spaced with nothing to trim, and keeps every non-space character in order |
| ReceiptParser.CollapseSingleSpaced | src/utils/receiptParser.ts:4 | collapsing leaves a single-spaced string alone |
| ReceiptParser.NormLineIdempotent | src/utils/receiptParser.ts:3-5 | normalising twice equals normalising once |
| ReceiptParser.Words | src/utils/receiptParser.ts:4 | every word is non-empty and holds no white space |
| ReceiptParser.CollapseSpacesWords | src/utils/receiptParser.ts:4 | collapsing keeps the words in order with exactly one space between neighbours, plus one where the text began or ended with white space |
| ReceiptParser.NormLineJoinsWords | src/utils/receiptParser.ts:3-5 | a normalised line is its words joined by single spaces |
| ReceiptParser.SplitLines | src/utils/receiptParser.ts:25 | at least one piece, none containing a newline |
| ReceiptParser.SplitJoin | src/utils/receiptParser.ts:25 | joining the pieces with newlines gives the text back |
| ReceiptParser.NormalizedLines | src/utils/receiptParser.ts:26-27 | every line kept is non-empty and normalised, and there are no more lines than raw ones |
| ReceiptParser.NormalizedLinesMembers | src/utils/receiptParser.ts:26-27 | a line is kept exactly when it is the non-empty normal form of some raw line |
| ReceiptParser.NormalizedLinesAppend | src/utils/receiptParser.ts:26-27 | the lines keep their order: normalising distributes over concatenation |
| ReceiptParser.NormalizedLine | src/utils/receiptParser.ts:26-27 | one raw line gives its normal form, or nothing when that is empty |
| ReceiptParser.Lines | src/utils/receiptParser.ts:24-27 | every line is non-empty, normalised and free of line breaks |
| ReceiptParser.GroupsThenDecimals | src/utils/receiptParser.ts:8 | a match found is a run of separator groups followed by two decimals |
| ReceiptParser.GroupsThenDecimalsComplete | src/utils/receiptParser.ts:8 | wherever such a run exists, the greedy matcher finds one |
| ReceiptParser.LeadThenRest | src/utils/receiptParser.ts:8 | a match found has a leading digit run of one to three digits |
| ReceiptParser.MatchAt | src/utils/receiptParser.ts:8 | a match found at a position is an amount of the pattern's language |
| ReceiptParser.MatchAtComplete | src/utils/receiptParser.ts:8 | the anchored matcher fails only where no amount starts |
| ReceiptParser.FindAmount | src/utils/receiptParser.ts:8 | the match found is at the leftmost position where the matcher succeeds |
| ReceiptParser.StripGroupSeps | src/utils/receiptParser.ts:10 | no separator remains, and the text never grows |
| ReceiptParser.Cleaned | src/utils/receiptParser.ts:10 | position by position the stripped text is kept, except that its first comma becomes a point; no separator remains |
| ReceiptParser.StrippedAmount | src/utils/receiptParser.ts:10 | stripping separators leaves the integer digits, the decimal mark and the two decimals |
| ReceiptParser.DecimalPointReplaced | src/utils/receiptParser.ts:10 | replacing the first comma turns the decimal mark into a point |
| ReceiptParser.CleanedIsLiteral | src/utils/receiptParser.ts:10-11 | every matched amount cleans to a plain decimal literal |
| ReceiptParser.ParseMoney | src/utils/receiptParser.ts:7-13 | null exactly when no amount occurs; otherwise the cents of the cleaned leftmost match |
| ReceiptParser.ParseMoneyIsFirstMatch | src/utils/receiptParser.ts:7-13 | the value is that of the match the leftmost search finds |
| ReceiptParser.UngroupedThousands | src/utils/receiptParser.ts:8 | "1234.56" parses as 234.56 |
| ReceiptParser.DetectCurrency | src/utils/receiptParser.ts:15-21 | CHF wins over EUR/€, which wins over USD/$, case-insensitively; null exactly when none is mentioned |
| ReceiptParser.DetectCurrencyIgnoresCase | src/utils/receiptParser.ts:15-21 | lower-casing the text does not change the currency |
| ReceiptParser.FindMerchantLine | src/utils/receiptParser.ts:34 | the first line of 3 to 40 characters from the start index, if any |
| ReceiptParser.PickMerchant | src/utils/receiptParser.ts:29-35 | the first line of 3 to 40 characters; null exactly when there is none |
| ReceiptParser.ExtractMerchant | src/utils/receiptParser.ts:23-36 | the first normalised non-blank line of 3 to 40 characters, or null exactly when there is none |
| ReceiptParser.SpacesEnd | src/utils/receiptParser.ts:47 | the end of the white-space run that `\s*` consumes |
| ReceiptParser.IsTotalLine | src/utils/receiptParser.ts:47-49 | a line counts exactly when its upper-cased text contains one of the seven keywords or `TO`, white space and `PAY` |
| ReceiptParser.TotalLineIgnoresCase | src/utils/receiptParser.ts:47-49 | lower-casing a line does not change whether it counts |
| ReceiptParser.TotalLines | src/utils/receiptParser.ts:49 | exactly the lines matching one of the eight keyword patterns |
| ReceiptParser.LastLines | src/utils/receiptParser.ts:50 | the last eight lines, or all when there are fewer |
| ReceiptParser.Pool | src/utils/receiptParser.ts:50 | the keyword lines when any exist, otherwise the last eight lines |
| ReceiptParser.Amounts | src/utils/receiptParser.ts:52-54 | exactly the values that some pool line parses to |
| ReceiptParser.Max | src/utils/receiptParser.ts:58 | an element that no element exceeds |
| ReceiptParser.BestAmount | src/utils/receiptParser.ts:52-58 | the largest amount a pool line yields; null exactly when no line yields one |
| ReceiptParser.ExtractTotal | src/utils/receiptParser.ts:38-59 | the currency is that of the whole text; the total is the largest amount among the pool's lines, or null exactly when none parses |

## Left out

- Asynchronous interleaving. Each `await` of the HTTP client is modelled as completing atomically, so a whole request runs without other operations interleaving. The race in the refresh's failure path is not captured. That path clears `isRefreshing` before awaiting `clearAuthTokens`, so a 401 arriving in that window starts a new refresh.
- OfflineSync.UploadJobs.ResumeRun: `runJob` is split at its two `await`s. `EnqueueUpload` and `TimerFired` end at the connectivity check, `ResumeRun` goes on once `NetInfo.fetch()` answers, and `CompleteAttempt` once `uploadOnce` settles. Other calls may run in between, as in the program. The awaits inside `uploadOnce` are one step, and a run that never resumes is not modelled as such.
- ApiClient.Client.ExecuteWithRetryAndCircuit: the backoff `sleep` is the clock value `wokeAt` at which it ends. Real time, `setTimeout` and promise identity are not modelled. The in-flight registry holds the request's id and result instead of its promise.
- ApiClient.AttemptStep: the metrics hooks and the debug logging are left out. They do not affect state.
- Request configs are values. The `_retry` mark is returned in the marked config rather than set on a shared object, and headers are reduced to the `Authorization` entry.
- `isOffline` is never assigned in the client, because its NetInfo listener is commented out. The model keeps it as a field set to false at start and read by `RequestWithPolicies`.
- The unauthorized handler is a counter of signals. The handler itself is code outside the client.
- ReceiptParser.ParseMoney: returns exact cents. JavaScript's binary floating-point value is not modelled, and neither is its overflow: an amount with more than about 308 integer digits makes `Number` return Infinity, so `parseMoney` returns null where the model returns the cents.
- Strings.Upper: ASCII letters only; `toUpperCase` also maps every other Unicode small letter, and those mappings are left out. The regex `/i` flag is modelled the same way. String length counts characters, not UTF-16 code units.
- Strings.Lower: ASCII capitals only; `toLowerCase` lowers every Unicode capital, while the model leaves every non-ASCII character as it is.
- DraftSessionStore.Merge: a property present with the value `undefined` is treated as absent. The array returned by the store is a value, so the aliasing between the returned array and the module's array is not modelled.
- DraftSessionStore.Upsert: a `null` or `undefined` draft is treated like a draft without an id.
- OfflineSync.UploadJobs.TimerFired: timers are a map from id to draft id. Which timer fires, and when, is the caller's choice; the job's own timer field is left pointing at the spent timer, as in the program.
- OfflineSync.MapDraftToReceiptData: `String(number)` is the parameter `show`.
- OfflineSync.UploadJobs: job objects are records in a sequence, and a reference is an index into it. Objects are never freed. Each record also keeps the draft id it was created for, which the program's object does not have.
- ApiClient.ExecuteOutcome: other requests running during a backoff sleep are not modelled, so only the call's own outcomes move its breaker. A call never opens its breaker before its last attempt, so the "Circuit breaker opened during retries" exit of `AttemptStep` never ends a call that `Execute` models. In the program it ends a call when a concurrent request opens the breaker meanwhile.
- Logging in every module is left out.
- ApiClient.DelaysAreRetryDelays: states each delay as `RetryDelay` of its attempt, through `Backoffs`. The bounds in milliseconds follow from `ApiPolicy.RetryDelayUncapped`, which is not restated for the whole sequence.
