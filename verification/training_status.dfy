/**
 * The in-memory table of training jobs (`TRAINING_JOBS`): created by
 * `init_training_job`, updated field by field by `update_training_status`,
 * read by `get_training_status`. The wall clock is the `now` parameter.
 */
module TrainingStatus {
  import opened Wrappers
  import opened Numeric

  /** One job record. `result` is an opaque JSON document. */
  datatype Job = Job(
    jobId: string, status: string, stage: string, progress: real, mode: string,
    startedAt: Option<string>, finishedAt: Option<string>, error: Option<string>, result: Option<string>)

  /** The keyword arguments of `update_training_status`; `None` means "not given". */
  datatype Update = Update(
    status: Option<string>, stage: Option<string>, progress: Option<Float>,
    result: Option<string>, error: Option<string>)

  /** What `get_training_status` returns: the stored record, or the four-key default. */
  datatype StatusDoc =
    | Stored(job: Job)
    | Default(jobId: string, status: string, stage: string, progress: real)

  /** The record `init_training_job` stores. */
  function QueuedJob(jobId: string, mode: string): Job {
    Job(jobId, "queued", "queued", 0.0, mode, None, None, None, None)
  }

  /** `max(0.0, min(1.0, float(p)))` with Python's `min`/`max`, which keep the first argument unless the second compares strictly smaller/larger. */
  function ClampProgress(p: Float): (r: real)
    ensures 0.0 <= r <= 1.0
    ensures p.Fin? && 0.0 <= p.r <= 1.0 ==> r == p.r
    ensures p.Fin? && p.r > 1.0 ==> r == 1.0
    ensures p.Fin? && p.r < 0.0 ==> r == 0.0
    ensures p.NaN? || p.PosInf? ==> r == 1.0
    ensures p.NegInf? ==> r == 0.0
  {
    var lo := if Lt(p, Fin(1.0)) then p else Fin(1.0);
    if Lt(Fin(0.0), lo) then lo.r else 0.0
  }

  predicate IsFinished(status: string) { status == "completed" || status == "failed" }

  /** The changes `update_training_status` makes to an existing record. */
  function ApplyUpdate(job: Job, u: Update, now: string): (j: Job)
    ensures j.jobId == job.jobId && j.mode == job.mode
    ensures j.status == (if u.status.Some? then u.status.value else job.status)
    ensures j.stage == (if u.stage.Some? then u.stage.value else job.stage)
    ensures u.progress.Some? ==> j.progress == ClampProgress(u.progress.value)
    ensures u.progress.None? ==> j.progress == job.progress
    ensures j.result == (if u.result.Some? then u.result else job.result)
    ensures j.error == (if u.error.Some? then u.error else job.error)
    // started_at is written once: only when it was unset and the job starts running
    ensures job.startedAt.Some? ==> j.startedAt == job.startedAt
    ensures job.startedAt.None? ==>
      j.startedAt == (if u.status == Some("running") then Some(now) else None)
    // finished_at is (re)set on every transition to a final status
    ensures j.finishedAt == (if u.status.Some? && IsFinished(u.status.value) then Some(now) else job.finishedAt)
  {
    var started := if u.status == Some("running") && job.startedAt.None? then Some(now) else job.startedAt;
    var finished := if u.status.Some? && IsFinished(u.status.value) then Some(now) else job.finishedAt;
    Job(job.jobId,
        if u.status.Some? then u.status.value else job.status,
        if u.stage.Some? then u.stage.value else job.stage,
        if u.progress.Some? then ClampProgress(u.progress.value) else job.progress,
        job.mode, started, finished,
        if u.error.Some? then u.error else job.error,
        if u.result.Some? then u.result else job.result)
  }

  /** A record whose progress lies in [0, 1]. */
  predicate WellFormed(job: Job) { 0.0 <= job.progress <= 1.0 }

  /** The record after a series of updates, the `k`-th applied at `nows[k]`. */
  function ApplyAll(job: Job, us: seq<Update>, nows: seq<string>): Job
    requires |us| == |nows|
    decreases |us|
  {
    if us == [] then job
    else ApplyAll(ApplyUpdate(job, us[0], nows[0]), us[1..], nows[1..])
  }

  /** Whatever updates follow, progress stays in [0, 1]. */
  lemma {:induction false} UpdatesKeepProgressInRange(job: Job, us: seq<Update>, nows: seq<string>)
    requires |us| == |nows| && WellFormed(job)
    ensures WellFormed(ApplyAll(job, us, nows))
    decreases |us|
  {
    if us != [] {
      UpdatesKeepProgressInRange(ApplyUpdate(job, us[0], nows[0]), us[1..], nows[1..]);
    }
  }

  /** Once set, started_at survives every later update. */
  lemma {:induction false} StartedAtNeverOverwritten(job: Job, us: seq<Update>, nows: seq<string>)
    requires |us| == |nows| && job.startedAt.Some?
    ensures ApplyAll(job, us, nows).startedAt == job.startedAt
    decreases |us|
  {
    if us != [] {
      StartedAtNeverOverwritten(ApplyUpdate(job, us[0], nows[0]), us[1..], nows[1..]);
    }
  }

  /** `us[k]` is the first update that sets the status to "running". */
  predicate FirstRunning(us: seq<Update>, k: int) {
    0 <= k < |us| && us[k].status == Some("running") &&
    forall l :: 0 <= l < k ==> us[l].status != Some("running")
  }

  /** started_at, if set at all, holds the time of the first update that set the status to "running". */
  lemma {:induction false} StartedAtIsFirstRun(job: Job, us: seq<Update>, nows: seq<string>)
    requires |us| == |nows| && job.startedAt.None?
    ensures var s := ApplyAll(job, us, nows).startedAt;
      s.Some? <==> exists k :: 0 <= k < |us| && us[k].status == Some("running")
    ensures forall k :: FirstRunning(us, k) ==> ApplyAll(job, us, nows).startedAt == Some(nows[k])
    decreases |us|
  {
    if us != [] {
      var next := ApplyUpdate(job, us[0], nows[0]);
      if us[0].status == Some("running") {
        StartedAtNeverOverwritten(next, us[1..], nows[1..]);
      } else {
        StartedAtIsFirstRun(next, us[1..], nows[1..]);
        assert forall k :: 1 <= k < |us| ==> us[k] == us[1..][k - 1] && nows[k] == nows[1..][k - 1];
      }
    }
  }

  class TrainingJobs {
    var jobs: map<string, Job>

    /** Every stored record is keyed by its own id and has progress in [0, 1]. */
    predicate Valid()
      reads this
    {
      forall id :: id in jobs ==> jobs[id].jobId == id && WellFormed(jobs[id])
    }

    constructor ()
      ensures jobs == map[] && Valid()
    {
      jobs := map[];
    }

    /** `init_training_job`: creates or overwrites the record. */
    method InitTrainingJob(jobId: string, mode: string)
      requires Valid()
      modifies this
      ensures jobs == old(jobs)[jobId := QueuedJob(jobId, mode)]
      ensures Valid()
    {
      jobs := jobs[jobId := QueuedJob(jobId, mode)];
    }

    /** `update_training_status`: an unknown id changes nothing; no other job is touched. */
    method UpdateTrainingStatus(jobId: string, u: Update, now: string)
      requires Valid()
      modifies this
      ensures jobId !in old(jobs) ==> jobs == old(jobs)
      ensures jobId in old(jobs) ==> jobs == old(jobs)[jobId := ApplyUpdate(old(jobs)[jobId], u, now)]
      ensures Valid()
    {
      if jobId !in jobs {
        return;
      }
      var job := jobs[jobId];
      jobs := jobs[jobId := ApplyUpdate(job, u, now)];
    }

    /** `get_training_status`: the stored record, or a default that is not inserted. */
    function GetTrainingStatus(jobId: string): (r: StatusDoc)
      reads this
      ensures jobId in jobs ==> r == Stored(jobs[jobId])
      ensures jobId !in jobs ==> r == Default(jobId, "unknown", "unknown", 0.0)
    {
      if jobId in jobs then Stored(jobs[jobId]) else Default(jobId, "unknown", "unknown", 0.0)
    }
  }
}
