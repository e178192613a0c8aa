/**
 * The upload-level retry policy: which failures of an upload attempt are worth another
 * attempt, and the fixed escalating delay before the next one.
 */
module RetryPolicy {
  import opened Wrappers
  import opened Strings

  /**
   * A thrown value as the upload path sees it: `text` is the string that
   * `String(err?.message ?? err ?? '')` yields, `code` is `err?.code` and `status` is
   * `err?.response?.status`. The classifier reads only `text` and `status`.
   */
  datatype SyncError = SyncError(text: string, code: Option<string>, status: Option<int>)

  /** The message names a transport-level failure. */
  predicate MentionsTransient(e: SyncError) {
    Contains(e.text, "Network") || Contains(e.text, "timeout")
  }

  /** `if (status)`: a status is present and truthy (not 0). */
  predicate HasStatus(e: SyncError) {
    e.status.Some? && e.status.value != 0
  }

  /** `isRetryableError(err)`. */
  function IsRetryableError(e: SyncError): (r: bool)
    ensures MentionsTransient(e) ==> r
    ensures !MentionsTransient(e) && HasStatus(e) ==>
              (r <==> (500 <= e.status.value <= 599 || e.status.value == 429))
    ensures !MentionsTransient(e) && !HasStatus(e) ==> r
    ensures !r ==> HasStatus(e) && e.status.value != 429 && !(500 <= e.status.value <= 599)
  {
    if Contains(e.text, "Network") || Contains(e.text, "timeout") then true
    else if e.status.Some? && e.status.value != 0 then
      var status := e.status.value;
      if status >= 500 && status <= 599 then true
      else if status == 429 then true
      else false
    else true
  }

  /** The delay table of `getBackoffMs`, indexed by attempts already consumed. */
  const BackoffSchedule: seq<nat> := [3000, 10000, 30000]

  /** `getBackoffMs(attemptIndex)`: the table entry, the last one for every index past the end. */
  function GetBackoffMs(attemptIndex: nat): (r: nat)
    ensures r in BackoffSchedule
    ensures attemptIndex == 0 ==> r == 3000
    ensures attemptIndex == 1 ==> r == 10000
    ensures attemptIndex >= 2 ==> r == 30000
  {
    var last := |BackoffSchedule| - 1;
    BackoffSchedule[if attemptIndex < last then attemptIndex else last]
  }

  /** The schedule only escalates. */
  lemma BackoffMonotonic(i: nat, j: nat)
    requires i <= j
    ensures GetBackoffMs(i) <= GetBackoffMs(j)
  {
  }
}
