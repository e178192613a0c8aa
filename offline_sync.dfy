/**
 * The upload job manager: one job per draft id, each with an attempt counter, the id of its
 * retry timer and an in-flight flag. An attempt ends in success, a missing file, a permanent
 * failure or a retryable failure, and that outcome decides whether the job is deleted, its
 * counter bumped, or a retry timer armed.
 */
module OfflineSync {
  import opened Wrappers
  import opened RetryPolicy
  import opened DraftSessionStore
  import DraftFileStore

  /** `MAX_ATTEMPTS`. */
  const MaxAttempts: nat := 3

  // ---------------------------------------------------------------------------
  // `mapDraftToReceiptData(draft)`
  // ---------------------------------------------------------------------------

  /** The metadata payload saved for an uploaded receipt. */
  datatype ReceiptData = ReceiptData(
    merchant: Option<string>,
    amountTotal: Option<string>,
    currency: Option<string>,
    purchaseDate: Option<string>,
    tags: seq<string>,
    folder: string)

  /** `x ?? fallback`: only a missing or null property falls back; an empty string is kept. */
  function OrElse<T>(f: Field<T>, fallback: T): T {
    if f.Val? then f.v else fallback
  }

  /** `x ?? null`. */
  function OrNull<T>(f: Field<T>): (r: Option<T>)
    ensures r.Some? <==> f.Val?
    ensures r.Some? ==> r.value == f.v
  {
    if f.Val? then Some(f.v) else None
  }

  const DefaultFolder := "Private"

  /**
   * `mapDraftToReceiptData(draft)`; `show` is `String(x)` on numbers. The folder defaults to
   * 'Private', the tags to the empty list, and the date is sent as the purchase date.
   */
  function MapDraftToReceiptData(draft: Draft, show: real -> string): (r: ReceiptData)
    ensures r.merchant == OrNull(draft.merchant) && r.currency == OrNull(draft.currency)
    ensures r.purchaseDate == OrNull(draft.date)
    ensures r.amountTotal.Some? <==> draft.total.Val?
    ensures draft.total.Val? ==> r.amountTotal == Some(show(draft.total.v))
    ensures !draft.tags.Val? ==> r.tags == []
    ensures draft.tags.Val? ==> r.tags == draft.tags.v
    ensures !draft.folder.Val? ==> r.folder == DefaultFolder
    ensures draft.folder.Val? ==> r.folder == draft.folder.v
  {
    ReceiptData(
      OrNull(draft.merchant),
      if draft.total.Val? then Some(show(draft.total.v)) else None,
      OrNull(draft.currency),
      OrNull(draft.date),
      OrElse(draft.tags, []),
      OrElse(draft.folder, DefaultFolder))
  }

  /** Only a missing or null folder falls back: an empty folder name is sent as it is. */
  lemma EmptyFolderIsKept(draft: Draft, show: real -> string)
    requires draft.folder == Val("")
    ensures MapDraftToReceiptData(draft, show).folder == ""
  {
  }

  // ---------------------------------------------------------------------------
  // `uploadOnce(draft)`, over the results of the calls it makes
  // ---------------------------------------------------------------------------

  const FileMissing := SyncError("Local file is missing (broken draft)", Some("FILE_MISSING"), None)
  const UploadNoId := SyncError("Upload failed: backend did not return receipt id", Some("UPLOAD_NO_ID"), None)

  function AsOption(f: Field<string>): Option<string> {
    if f.Val? then Some(f.v) else None
  }

  /**
   * One upload attempt: the file must exist, the image upload must return a receipt id, and
   * the metadata save must not fail. `upload` is the image upload's reply (`Ok(None)` when it
   * carries no id) or its error; `saveError` is the save's error, if any.
   */
  function UploadOnce(draft: Draft, fs: DraftFileStore.FileSystem,
                      upload: Result<Option<string>, SyncError>, saveError: Option<SyncError>): (r: Result<string, SyncError>)
    ensures !DraftFileStore.FileExists(AsOption(draft.imageUri), fs) ==> r == Err(FileMissing)
    ensures r.Ok? <==>
              && DraftFileStore.FileExists(AsOption(draft.imageUri), fs)
              && upload.Ok? && upload.value.Some? && upload.value.value != ""
              && saveError.None?
    ensures r.Ok? ==> r.value == upload.value.value
    ensures DraftFileStore.FileExists(AsOption(draft.imageUri), fs) && upload.Ok? && !(upload.value.Some? && upload.value.value != "") ==>
              r == Err(UploadNoId)
  {
    if !DraftFileStore.FileExists(AsOption(draft.imageUri), fs) then Err(FileMissing)
    else match upload
      case Err(e) => Err(e)
      case Ok(id) =>
        if !(id.Some? && id.value != "") then Err(UploadNoId)
        else if saveError.Some? then Err(saveError.value)
        else Ok(id.value)
  }

  /**
   * A reply without a receipt id is retried like a network failure: the error carries no
   * status, and the classifier retries every error without one.
   */
  lemma UploadNoIdIsRetryable()
    ensures !HasStatus(UploadNoId) && IsRetryableError(UploadNoId)
  {
  }

  // ---------------------------------------------------------------------------
  // The outcome of an attempt
  // ---------------------------------------------------------------------------

  /** What the end of an attempt decides for its job. */
  datatype Verdict = Done(receiptId: string) | Broken | GiveUp(error: SyncError) | RetryLater

  /**
   * `runJob`'s handling of an attempt's outcome for a job that had used `attempts` attempts:
   * success ends the job; a missing file ends it as broken; a non-retryable error or a retryable
   * one that uses up the last attempt ends it for good; any other retryable error retries.
   */
  function AttemptVerdict(attempts: nat, outcome: Result<string, SyncError>): (v: Verdict)
    ensures v.Done? <==> outcome.Ok?
    ensures v.Done? ==> v.receiptId == outcome.value
    ensures v.Broken? <==> outcome.Err? && outcome.error.code == Some("FILE_MISSING")
    ensures v.GiveUp? ==> v.error == outcome.error
    ensures v.RetryLater? <==>
              && outcome.Err? && outcome.error.code != Some("FILE_MISSING")
              && IsRetryableError(outcome.error) && attempts + 1 < MaxAttempts
  {
    match outcome
    case Ok(receiptId) => Done(receiptId)
    case Err(e) =>
      if e.code == Some("FILE_MISSING") then Broken
      else if !IsRetryableError(e) then GiveUp(e)
      else if attempts + 1 >= MaxAttempts then GiveUp(e)
      else RetryLater
  }

  /** Whether the outcome consumes an attempt. */
  predicate ConsumesAttempt(outcome: Result<string, SyncError>) {
    outcome.Err? && outcome.error.code != Some("FILE_MISSING") && IsRetryableError(outcome.error)
  }

  /**
   * The job-level backoff after a retryable failure is read with the bumped counter, so the
   * delays actually armed are 10 s and then 30 s; 3 s is used only while offline before any
   * attempt was consumed.
   */
  lemma RetryDelaysAfterFailures(attempts: nat, outcome: Result<string, SyncError>)
    requires AttemptVerdict(attempts, outcome).RetryLater?
    ensures attempts + 1 < MaxAttempts
    ensures GetBackoffMs(attempts + 1) == (if attempts == 0 then 10000 else 30000)
  {
  }

  /** Three retryable failures in a row end the job; the third never arms a timer. */
  lemma ThirdRetryableFailureGivesUp(e: SyncError)
    requires e.code != Some("FILE_MISSING") && IsRetryableError(e)
    ensures AttemptVerdict(0, Err(e)) == RetryLater
    ensures AttemptVerdict(1, Err(e)) == RetryLater
    ensures AttemptVerdict(2, Err(e)) == GiveUp(e)
  {
  }

  /** `NetInfo.fetch()`'s answer: either property may be null. */
  datatype NetState = NetState(isConnected: Option<bool>, isInternetReachable: Option<bool>)

  /** `!net.isConnected || net.isInternetReachable === false`. */
  function Offline(net: NetState): (r: bool)
    ensures !r <==> net.isConnected == Some(true) && net.isInternetReachable != Some(false)
  {
    net.isConnected != Some(true) || net.isInternetReachable == Some(false)
  }

  /**
   * A job object `{ attempts, timerId, inFlight }`. `draftId` is the key the object was filed
   * under when it was created; the program's object has no such property, and the model keeps
   * it only to say which draft an object belongs to once it is no longer filed.
   */
  datatype Job = Job(draftId: string, attempts: nat, timerId: Option<nat>, inFlight: bool)

  /**
   * A call of `runJob(draft, callbacks)` that found its job: the draft's id and the reference
   * to the job object it looked up, which it keeps to the end even if the job is dropped.
   */
  datatype JobRun = JobRun(draftId: string, job: nat)

  /** The callbacks an attempt ends with; `Retrying` carries the delay armed, when one was. */
  datatype Event =
    | Succeeded(draftId: string, receiptId: string)
    | BrokenDraft(draftId: string)
    | PermanentFailure(draftId: string, error: SyncError)
    | Retrying(delay: Option<nat>)

  /** The timer the job filed under `draftId` records, if any. */
  function TimerOf(objects: seq<Job>, jobs: map<string, nat>, draftId: string): Option<nat> {
    if draftId in jobs && jobs[draftId] < |objects| then objects[jobs[draftId]].timerId else None
  }

  /** The armed timers once `timer`, if there is one, is cancelled. */
  function Without(timers: map<nat, string>, timer: Option<nat>): (r: map<nat, string>)
    ensures r.Keys <= timers.Keys
    ensures forall t :: t in r ==> r[t] == timers[t]
    ensures timer.Some? ==> timer.value !in r
    ensures forall t :: t in timers && timer != Some(t) ==> t in r
  {
    if timer.Some? then timers - {timer.value} else timers
  }

  /** The job objects once the one filed under `draftId`, if any, records no timer. */
  function ClearedTimer(objects: seq<Job>, jobs: map<string, nat>, draftId: string): (r: seq<Job>)
    ensures |r| == |objects|
  {
    if draftId in jobs && jobs[draftId] < |objects| then
      objects[jobs[draftId] := objects[jobs[draftId]].(timerId := None)]
    else objects
  }

  /** The job objects once object `k` has used one more attempt. */
  function Bumped(objects: seq<Job>, k: nat): (r: seq<Job>)
    requires k < |objects|
    ensures |r| == |objects| && r[k].attempts == objects[k].attempts + 1
  {
    objects[k := objects[k].(attempts := objects[k].attempts + 1)]
  }

  /**
   * The module-level `jobs` map and the objects it refers to: `objects` holds every job object
   * ever created, in order, and a reference is an index into it; `jobs` maps each draft id to
   * the object filed for it. `timers` maps each armed timer to the draft id its callback runs,
   * and `nextTimerId` is the id `setTimeout` hands out next.
   */
  class UploadJobs {
    var objects: seq<Job>
    var jobs: map<string, nat>
    var timers: map<nat, string>
    var nextTimerId: nat

    /**
     * Each filed reference points at an object created for that draft; each armed timer
     * belongs to a filed job that records it as its timer, so a job has at most one armed
     * timer; timer ids handed out are positive and below `nextTimerId`.
     */
    predicate Wired()
      reads this
    {
      && (forall id :: id in jobs ==> jobs[id] < |objects| && objects[jobs[id]].draftId == id)
      && (forall t :: t in timers ==> 0 < t < nextTimerId && timers[t] in jobs && objects[jobs[timers[t]]].timerId == Some(t))
      && 0 < nextTimerId
    }

    /** Between attempts, every job filed has used fewer than `MaxAttempts` attempts. */
    predicate Valid()
      reads this
    {
      Wired() && forall id :: id in jobs ==> objects[jobs[id]].attempts < MaxAttempts
    }

    /** No draft ever has two armed timers, and two drafts never share a job object. */
    lemma AtMostOneTimerPerDraft()
      requires Wired()
      ensures forall t1, t2 :: t1 in timers && t2 in timers && timers[t1] == timers[t2] ==> t1 == t2
      ensures forall d1, d2 :: d1 in jobs && d2 in jobs && jobs[d1] == jobs[d2] ==> d1 == d2
    {
    }

    /** No job exists and no timer is armed at start-up. */
    constructor()
      ensures Valid() && objects == [] && jobs == map[] && timers == map[]
    {
      objects := [];
      jobs := map[];
      timers := map[];
      nextTimerId := 1;
    }

    /** The run's reference points at an object created for its draft. */
    predicate Refers(run: JobRun)
      reads this
    {
      run.job < |objects| && objects[run.job].draftId == run.draftId
    }

    /** Whether the run's job object is still the one filed under its draft. */
    predicate IsFiled(run: JobRun)
      reads this
    {
      run.draftId in jobs && jobs[run.draftId] == run.job
    }

    /**
     * The synchronous start of `runJob`: the job filed for the draft is looked up, and a run
     * goes on to the connectivity check only if there is one and it is not in flight.
     */
    function PendingRun(draftId: string): (r: Option<JobRun>)
      reads this
      requires Wired()
      ensures r.Some? <==> draftId in jobs && !objects[jobs[draftId]].inFlight
      ensures r.Some? ==> r.value == JobRun(draftId, jobs[draftId]) && Refers(r.value) && IsFiled(r.value)
    {
      if draftId in jobs && !objects[jobs[draftId]].inFlight then Some(JobRun(draftId, jobs[draftId])) else None
    }

    /** `clearTimer(draftId)`: cancel the timer the filed job records, if any, and forget it. */
    method ClearTimer(draftId: string)
      requires Wired()
      modifies this
      ensures Wired()
      ensures jobs == old(jobs) && nextTimerId == old(nextTimerId)
      ensures objects == ClearedTimer(old(objects), old(jobs), draftId)
      ensures timers == Without(old(timers), TimerOf(old(objects), old(jobs), draftId))
      ensures forall t :: t in timers ==> timers[t] != draftId
    {
      if draftId in jobs {
        var k := jobs[draftId];
        if objects[k].timerId.Some? {
          timers := timers - {objects[k].timerId.value};
        }
        objects := objects[k := objects[k].(timerId := None)];
      }
    }

    /**
     * `scheduleRetry(draft, callbacks, consumeAttempt)`: the delay is read from the filed job's
     * counter as it is; any timer the job records is cleared before the new one is armed.
     */
    method ScheduleRetry(draftId: string) returns (delay: Option<nat>)
      requires Wired()
      modifies this
      ensures Wired()
      ensures jobs == old(jobs)
      ensures draftId !in old(jobs) ==>
                delay == None && objects == old(objects) && timers == old(timers) && nextTimerId == old(nextTimerId)
      ensures draftId in old(jobs) ==>
                && delay == Some(GetBackoffMs(old(objects[jobs[draftId]].attempts)))
                && objects == old(objects)[old(jobs[draftId]) := old(objects[jobs[draftId]]).(timerId := Some(old(nextTimerId)))]
                && nextTimerId == old(nextTimerId) + 1
                && timers == Without(old(timers), TimerOf(old(objects), old(jobs), draftId))[old(nextTimerId) := draftId]
    {
      if draftId !in jobs {
        return None;
      }
      var k := jobs[draftId];
      delay := Some(GetBackoffMs(objects[k].attempts));
      ClearTimer(draftId);
      var t := nextTimerId;
      nextTimerId := nextTimerId + 1;
      timers := timers[t := draftId];
      objects := objects[k := objects[k].(timerId := Some(t))];
      forall u | u in timers
        ensures 0 < u < nextTimerId && timers[u] in jobs && objects[jobs[timers[u]]].timerId == Some(u)
      {
        if u != t {
          assert timers[u] != draftId;
        }
      }
    }

    /**
     * Clear the filed job's timer and drop the entry. The job may have just used its last
     * attempt, so only the wiring is required.
     */
    method Finish(draftId: string)
      requires Wired()
      modifies this
      ensures Wired() && (old(Valid()) ==> Valid())
      ensures jobs == old(jobs) - {draftId}
      ensures objects == ClearedTimer(old(objects), old(jobs), draftId)
      ensures timers == Without(old(timers), TimerOf(old(objects), old(jobs), draftId))
      ensures nextTimerId == old(nextTimerId)
    {
      ClearTimer(draftId);
      jobs := jobs - {draftId};
    }

    /** `cancelUpload(draftId)`: clear the timer and drop the job; an unknown id changes nothing. */
    method CancelUpload(draftId: string)
      requires Valid()
      modifies this
      ensures Valid()
      ensures jobs == old(jobs) - {draftId}
      ensures objects == ClearedTimer(old(objects), old(jobs), draftId)
      ensures timers == Without(old(timers), TimerOf(old(objects), old(jobs), draftId))
      ensures forall t :: t in timers ==> timers[t] != draftId
      ensures nextTimerId == old(nextTimerId)
    {
      Finish(draftId);
    }

    /**
     * `runJob` once `NetInfo.fetch()` has answered. Offline, a retry is armed for whatever job
     * is filed under the draft now, without consuming an attempt. Online, the run's own job
     * object goes in flight and the attempt starts; the flag is not looked at again, so two
     * runs that passed the start while neither was in flight both upload.
     */
    method ResumeRun(run: JobRun, net: NetState) returns (started: bool, delay: Option<nat>)
      requires Valid() && Refers(run)
      modifies this
      ensures Valid()
      ensures jobs == old(jobs)
      ensures started <==> !Offline(net)
      ensures Offline(net) && run.draftId !in old(jobs) ==>
                delay == None && objects == old(objects) && timers == old(timers) && nextTimerId == old(nextTimerId)
      ensures Offline(net) && run.draftId in old(jobs) ==>
                && delay == Some(GetBackoffMs(old(objects[jobs[run.draftId]].attempts)))
                && objects == old(objects)[old(jobs[run.draftId]) := old(objects[jobs[run.draftId]]).(timerId := Some(old(nextTimerId)))]
                && nextTimerId == old(nextTimerId) + 1
                && timers == Without(old(timers), TimerOf(old(objects), old(jobs), run.draftId))[old(nextTimerId) := run.draftId]
      ensures !Offline(net) ==>
                && delay == None
                && objects == old(objects)[run.job := old(objects[run.job]).(inFlight := true)]
                && timers == old(timers) && nextTimerId == old(nextTimerId)
    {
      if Offline(net) {
        started := false;
        delay := ScheduleRetry(run.draftId);
        return;
      }
      objects := objects[run.job := objects[run.job].(inFlight := true)];
      started, delay := true, None;
    }

    /**
     * The rest of `runJob` once the attempt has its `outcome`. The job filed under the draft
     * now may be another object, if the upload was cancelled and enqueued again meanwhile: the
     * counter bumped and checked is the run's own object's, while the timer and the entry
     * touched are those filed now, and the `finally` clears the in-flight flag of the object
     * filed now.
     */
    method CompleteAttempt(run: JobRun, outcome: Result<string, SyncError>) returns (ev: Event)
      requires Valid() && Refers(run)
      modifies this
      ensures Valid()
      ensures |objects| == |old(objects)|
      ensures match AttemptVerdict(old(objects[run.job].attempts), outcome)
              case Done(receiptId) => ev == Succeeded(run.draftId, receiptId)
              case Broken => ev == BrokenDraft(run.draftId)
              case GiveUp(e) => ev == PermanentFailure(run.draftId, e)
              case RetryLater => ev.Retrying?
      ensures !AttemptVerdict(old(objects[run.job].attempts), outcome).RetryLater? ==>
                && jobs == old(jobs) - {run.draftId}
                && timers == Without(old(timers), TimerOf(old(objects), old(jobs), run.draftId))
                && objects == ClearedTimer(if ConsumesAttempt(outcome) then Bumped(old(objects), run.job) else old(objects),
                                           old(jobs), run.draftId)
      ensures AttemptVerdict(old(objects[run.job].attempts), outcome).RetryLater? && run.draftId in old(jobs) ==>
                var bumped := Bumped(old(objects), run.job);
                var k := old(jobs[run.draftId]);
                && ev == Retrying(Some(GetBackoffMs(bumped[k].attempts)))
                && jobs == old(jobs)
                && objects == bumped[k := bumped[k].(timerId := Some(old(nextTimerId)), inFlight := false)]
                && timers == Without(old(timers), TimerOf(old(objects), old(jobs), run.draftId))[old(nextTimerId) := run.draftId]
      ensures AttemptVerdict(old(objects[run.job].attempts), outcome).RetryLater? && run.draftId !in old(jobs) ==>
                && ev == Retrying(None)
                && jobs == old(jobs) && timers == old(timers)
                && objects == Bumped(old(objects), run.job)
    {
      var draftId := run.draftId;
      match outcome {
        case Ok(receiptId) =>
          Finish(draftId);
          ev := Succeeded(draftId, receiptId);
        case Err(e) =>
          if e.code == Some("FILE_MISSING") {
            Finish(draftId);
            ev := BrokenDraft(draftId);
          } else if !IsRetryableError(e) {
            Finish(draftId);
            ev := PermanentFailure(draftId, e);
          } else {
            ev := ConsumeAttempt(run, e);
          }
      }
      ClearInFlight(draftId);
    }

    /**
     * A retryable failure: the run's own object's counter is bumped; if that uses up the last
     * attempt the job filed now is dropped with a permanent failure, otherwise a retry is armed
     * for it.
     */
    method ConsumeAttempt(run: JobRun, e: SyncError) returns (ev: Event)
      requires Valid() && Refers(run)
      modifies this
      ensures Wired()
      ensures forall id :: id in jobs && id != run.draftId ==> objects[jobs[id]].attempts < MaxAttempts
      ensures run.draftId in jobs ==> objects[jobs[run.draftId]].attempts < MaxAttempts
      ensures old(objects[run.job].attempts) + 1 >= MaxAttempts ==>
                && ev == PermanentFailure(run.draftId, e)
                && jobs == old(jobs) - {run.draftId}
                && objects == ClearedTimer(Bumped(old(objects), run.job), old(jobs), run.draftId)
                && timers == Without(old(timers), TimerOf(old(objects), old(jobs), run.draftId))
      ensures old(objects[run.job].attempts) + 1 < MaxAttempts && run.draftId in old(jobs) ==>
                var bumped := Bumped(old(objects), run.job);
                var k := old(jobs[run.draftId]);
                && ev == Retrying(Some(GetBackoffMs(bumped[k].attempts)))
                && jobs == old(jobs)
                && objects == bumped[k := bumped[k].(timerId := Some(old(nextTimerId)))]
                && timers == Without(old(timers), TimerOf(old(objects), old(jobs), run.draftId))[old(nextTimerId) := run.draftId]
      ensures old(objects[run.job].attempts) + 1 < MaxAttempts && run.draftId !in old(jobs) ==>
                && ev == Retrying(None)
                && jobs == old(jobs) && timers == old(timers)
                && objects == Bumped(old(objects), run.job)
    {
      var draftId := run.draftId;
      Bump(run.job);
      if objects[run.job].attempts >= MaxAttempts {
        Finish(draftId);
        ev := PermanentFailure(draftId, e);
      } else {
        var delay := ScheduleRetry(draftId);
        ev := Retrying(delay);
      }
    }

    /** `job.attempts += 1` on the object at index `k`; nothing else changes. */
    method Bump(k: nat)
      requires Wired() && k < |objects|
      modifies this
      ensures Wired()
      ensures objects == Bumped(old(objects), k)
      ensures jobs == old(jobs) && timers == old(timers) && nextTimerId == old(nextTimerId)
    {
      objects := Bumped(objects, k);
    }

    /** The `finally` of `runJob`: whatever object is filed under the draft now is no longer in flight. */
    method ClearInFlight(draftId: string)
      requires Wired()
      modifies this
      ensures Wired() && (old(Valid()) ==> Valid())
      ensures draftId in old(jobs) ==> objects == old(objects)[old(jobs[draftId]) := old(objects[jobs[draftId]]).(inFlight := false)]
      ensures draftId !in old(jobs) ==> objects == old(objects)
      ensures jobs == old(jobs) && timers == old(timers) && nextTimerId == old(nextTimerId)
    {
      if draftId in jobs {
        objects := objects[jobs[draftId] := objects[jobs[draftId]].(inFlight := false)];
      }
    }

    /**
     * `enqueueUpload(draft, callbacks)` up to the connectivity check: a draft without id or
     * image is refused; a job in flight is left alone; a missing job is created with no
     * attempts used; then the job's run starts and waits for `NetInfo.fetch()`.
     */
    method EnqueueUpload(draft: Draft) returns (r: Result<Option<JobRun>, string>)
      requires Valid()
      modifies this
      ensures Valid()
      ensures timers == old(timers) && nextTimerId == old(nextTimerId)
      ensures r.Err? <==> !Truthy(draft.id) || !Truthy(draft.imageUri)
      ensures r.Err? ==> r.error == "Invalid draft" && jobs == old(jobs) && objects == old(objects)
      ensures r.Ok? && draft.id.v in old(jobs) ==> jobs == old(jobs) && objects == old(objects)
      ensures r.Ok? && draft.id.v in old(jobs) && old(objects[jobs[draft.id.v]].inFlight) ==> r == Ok(None)
      ensures r.Ok? && draft.id.v in old(jobs) && !old(objects[jobs[draft.id.v]].inFlight) ==>
                r == Ok(Some(JobRun(draft.id.v, old(jobs[draft.id.v]))))
      ensures r.Ok? && draft.id.v !in old(jobs) ==>
                && r == Ok(Some(JobRun(draft.id.v, |old(objects)|)))
                && objects == old(objects) + [Job(draft.id.v, 0, None, false)]
                && jobs == old(jobs)[draft.id.v := |old(objects)|]
      ensures r.Ok? && r.value.Some? ==> Refers(r.value.value) && IsFiled(r.value.value)
    {
      if !Truthy(draft.id) || !Truthy(draft.imageUri) {
        return Err("Invalid draft");
      }
      var id := draft.id.v;
      if id in jobs && objects[jobs[id]].inFlight {
        return Ok(None);
      }
      if id !in jobs {
        jobs := jobs[id := |objects|];
        objects := objects + [Job(id, 0, None, false)];
      }
      r := Ok(PendingRun(id));
    }

    /**
     * The runtime fires an armed timer: it is spent (the job still records its id), and its
     * callback starts a run of the draft's job, which waits for `NetInfo.fetch()`.
     */
    method TimerFired(t: nat) returns (run: Option<JobRun>)
      requires Valid() && t in timers
      modifies this
      ensures Valid()
      ensures timers == old(timers) - {t}
      ensures objects == old(objects) && jobs == old(jobs) && nextTimerId == old(nextTimerId)
      ensures old(timers[t]) in jobs
      ensures objects[jobs[old(timers[t])]].inFlight ==> run == None
      ensures !objects[jobs[old(timers[t])]].inFlight ==> run == Some(JobRun(old(timers[t]), jobs[old(timers[t])]))
    {
      var draftId := timers[t];
      timers := timers - {t};
      run := PendingRun(draftId);
    }
  }
}
