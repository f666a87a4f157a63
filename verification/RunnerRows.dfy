/** One row of the runner_requests table, and what each store transaction does
    to it. The store itself (RunnerStore) and the interleaving machine
    (RunnerMachine) are both built on these functions. */
module RunnerRows {
  import Backoff
  import opened Common

  datatype Status = Queued | Creating | Running | Stopping | Completed | Failed

  /** Instants in nanoseconds; 0 is Go's zero time.Time (SQL NULL). */
  type Time = nat
  type Clock = t: nat | t > 0 witness 1

  const RUNNER_JOB_STARTED := "__runner_job_started__"

  /** What a request is created with; no later write changes it. */
  datatype Request = Request(profile: string, repository: string, runnerName: string, jobId: int, queuedAt: Time)

  datatype Times = Times(creating: Time, running: Time, stopping: Time, completed: Time, failed: Time)

  datatype Lease = Lease(owner: string, expiresAt: Time)

  const NO_TIMES := Times(0, 0, 0, 0, 0)
  const NO_LEASE := Lease("", 0)

  datatype Row = Row(
    req: Request,
    status: Status,
    sandbox: string,
    pid: nat,
    configSource: string,
    assignedId: int,
    assignedName: string,
    failureStage: string,
    errorRetryable: bool,
    retryCount: nat,
    nextRetryAt: Time,
    times: Times,
    lease: Lease,
    version: nat)

  type Rows = map<string, Row>

  datatype Config = Config(
    maxRunners: nat,
    retryMax: nat,
    retryBase: nat,
    retryCap: nat,
    leaseTtl: nat,
    workerId: string,
    stripes: map<string, nat>)   // the hash that picks one of the 64 request mutexes, tabulated

  // ---- Row predicates -------------------------------------------------------

  /** Creating or running: the request occupies a sandbox that has not been told to stop. */
  predicate Active(s: Status) {
    s.Creating? || s.Running?
  }

  /** What InFlightCount counts. */
  predicate InFlight(s: Status) {
    Active(s) || s.Stopping?
  }

  /** Completed or stopping: the start path treats the request as stopped. */
  predicate Stopped(s: Status) {
    s.Completed? || s.Stopping?
  }

  /** Nothing of an earlier attempt is left on the row. */
  predicate Cleared(r: Row) {
    r.sandbox == "" && r.pid == 0 && r.times.creating == 0 && r.times.running == 0 && r.times.stopping == 0
  }

  /** Every status carries its own timestamp, and a queued row carries no trace of an attempt. */
  predicate TimesOk(r: Row) {
    match r.status
    case Queued => Cleared(r)
    case Creating => r.times.creating != 0
    case Running => r.times.creating != 0 && r.times.running != 0
    case Stopping => r.times.stopping != 0
    case Completed => r.times.stopping != 0 && r.times.completed != 0
    case Failed => r.times.failed != 0
  }

  // ---- Store transactions on one row ----------------------------------------

  function OrNow(t: Time, now: Clock): Time {
    if t == 0 then now else t
  }

  /** applyStateTimestamps */
  function StampedTimes(status: Status, ts: Times, now: Clock): Times {
    match status
    case Queued => ts
    case Creating => ts.(creating := OrNow(ts.creating, now))
    case Running => ts.(creating := OrNow(ts.creating, now), running := OrNow(ts.running, now))
    case Stopping => ts.(stopping := OrNow(ts.stopping, now))
    case Completed => ts.(stopping := OrNow(ts.stopping, now), completed := OrNow(ts.completed, now))
    case Failed => ts.(failed := OrNow(ts.failed, now))
  }

  function Stamped(r: Row, now: Clock): Row {
    r.(times := StampedTimes(r.status, r.times, now))
  }

  /** The row after WriteState: the caller's copy, stamped, one version up. The
      job id and the queue time are columns WriteState does not touch. */
  function Written(stored: Row, st: Row, now: Clock): Row {
    Stamped(st, now).(req := st.req.(jobId := stored.req.jobId, queuedAt := stored.req.queuedAt), version := st.version + 1)
  }

  predicate Claimable(r: Row, now: Clock) {
    r.status.Queued? && r.nextRetryAt <= now && r.lease.expiresAt <= now
  }

  /** `id` is a row ClaimNextRunnable may pick: runnable, and none runnable is older. */
  predicate NextRunnable(rows: Rows, id: string, now: Clock) {
    id in rows && Claimable(rows[id], now) &&
    forall other :: other in rows && Claimable(rows[other], now) ==> rows[id].req.queuedAt <= rows[other].req.queuedAt
  }

  function Claimed(r: Row, worker: string, now: Clock, ttl: nat): Row {
    r.(lease := Lease(worker, now + ttl), version := r.version + 1)
  }

  /** ReleaseLease does not advance the version. */
  function Released(r: Row, worker: string): Row {
    if r.lease.owner == worker then r.(lease := NO_LEASE) else r
  }

  predicate RetryAllowed(r: Row) {
    r.status.Failed? || (r.status.Queued? && r.nextRetryAt != 0 && r.errorRetryable)
  }

  /** RetryRequest keeps the retry count. */
  function Retried(r: Row): Row {
    r.(status := Queued, failureStage := "", errorRetryable := false, sandbox := "", pid := 0,
       configSource := "", assignedId := 0, assignedName := "", nextRetryAt := 0,
       lease := NO_LEASE, times := NO_TIMES, version := r.version + 1)
  }

  /** createRequest refuses a known id and a workflow job another row already has. */
  predicate CanCreate(rows: Rows, id: string, req: Request) {
    id != "" && id !in rows && (req.jobId != 0 ==> forall i :: i in rows ==> rows[i].req.jobId != req.jobId)
  }

  /** Two requests never belong to the same workflow job. */
  predicate UniqueJobs(rows: Rows) {
    forall i, j :: i in rows && j in rows && rows[i].req.jobId == rows[j].req.jobId != 0 ==> i == j
  }

  function NewRow(req: Request): Row {
    Row(req, Queued, "", 0, "", 0, "", "", false, 0, 0, NO_TIMES, NO_LEASE, 0)
  }

  function RejectedRow(req: Request, now: Clock): Row {
    NewRow(req).(status := Failed, failureStage := "admission", times := NO_TIMES.(failed := now))
  }

  // ---- Counting -------------------------------------------------------------

  function InFlightIds(rows: Rows): set<string> {
    set id | id in rows && InFlight(rows[id].status)
  }

  function ActiveIds(rows: Rows): set<string> {
    set id | id in rows && Active(rows[id].status)
  }

  function ProfileInFlightIds(rows: Rows, p: string): set<string> {
    set id | id in rows && rows[id].req.profile == p && InFlight(rows[id].status)
  }

  function ProfileActiveIds(rows: Rows, p: string): set<string> {
    set id | id in rows && rows[id].req.profile == p && Active(rows[id].status)
  }

  lemma ActiveAtMostInFlight(rows: Rows, p: string)
    ensures |ActiveIds(rows)| <= |InFlightIds(rows)|
    ensures |ProfileActiveIds(rows, p)| <= |ProfileInFlightIds(rows, p)|
  {
    SubsetSize(ActiveIds(rows), InFlightIds(rows));
    SubsetSize(ProfileActiveIds(rows, p), ProfileInFlightIds(rows, p));
  }

  /** Replacing one row changes the number of active rows by at most one, and
      does not raise it unless the row becomes active. */
  lemma ActiveAfterUpdate(rows: Rows, id: string, r: Row, p: string)
    requires id in rows ==> rows[id].req.profile == r.req.profile
    ensures |ActiveIds(rows[id := r])| <= |ActiveIds(rows)| + 1
    ensures |ProfileActiveIds(rows[id := r], p)| <= |ProfileActiveIds(rows, p)| + (if r.req.profile == p then 1 else 0)
    ensures (Active(r.status) ==> id in rows && Active(rows[id].status)) ==>
              |ActiveIds(rows[id := r])| <= |ActiveIds(rows)| &&
              |ProfileActiveIds(rows[id := r], p)| <= |ProfileActiveIds(rows, p)|
  {
    var after := rows[id := r];
    var all, mine := ActiveIds(rows), ProfileActiveIds(rows, p);
    SubsetSize(ActiveIds(after), all + {id});
    SubsetSize(ProfileActiveIds(after, p), mine + (if r.req.profile == p then {id} else {}));
    if Active(r.status) ==> id in rows && Active(rows[id].status) {
      SubsetSize(ActiveIds(after), all);
      SubsetSize(ProfileActiveIds(after, p), mine);
    }
  }

  // ---- Row edits several callers share --------------------------------------

  datatype ErrorClass =
    | Permanent        // not retryable
    | Transient        // retryable, counts against the retry budget
    | Capacity         // sandbox_capacity, http_rate_limited, github_secondary_rate_limit
    | RunnerBusy       // GitHub refuses to remove a runner that is running a job

  datatype RetryKind = Ordinary | Deferral | BusyCleanup | GaveUp

  function RetryTime(cfg: Config, attempts: int, now: Clock): Time {
    now + Backoff.Delay(cfg.retryBase, cfg.retryCap, attempts)
  }

  /** The fields every failure sets, before it is known whether the request is retried. */
  function FailedAttempt(r: Row, stage: string, error: ErrorClass): Row {
    r.(failureStage := stage, errorRetryable := !error.Permanent?, lease := NO_LEASE, sandbox := "", pid := 0,
       times := r.times.(completed := 0))
  }

  function Requeue(cfg: Config, st: Row, retryCount: nat, now: Clock): Row {
    st.(status := Queued, retryCount := retryCount, times := NO_TIMES,
        nextRetryAt := RetryTime(cfg, if retryCount < 1 then 1 else retryCount, now))
  }

  /** applyFailure with allowRetry = true */
  function ApplyFailure(cfg: Config, r: Row, stage: string, error: ErrorClass, now: Clock): (Row, RetryKind) {
    var st := FailedAttempt(r, stage, error);
    var within := st.retryCount < cfg.retryMax;
    if error.Capacity? then (Requeue(cfg, st, if within then st.retryCount + 1 else st.retryCount, now), Deferral)
    else if !error.Permanent? && within then (Requeue(cfg, st, st.retryCount + 1, now), Ordinary)
    else (st.(status := Failed, nextRetryAt := 0), GaveUp)
  }

  /** scheduleStopRetry */
  function ScheduleStopRetry(cfg: Config, st: Row, error: ErrorClass, now: Clock): Option<Row> {
    if error.Permanent? || st.retryCount >= cfg.retryMax then None
    else Some(st.(retryCount := st.retryCount + 1, status := Stopping, failureStage := "stop", errorRetryable := true,
                  nextRetryAt := RetryTime(cfg, st.retryCount + 1, now)))
  }

  /** scheduleCleanupRetry: a busy runner is waited for even when the budget is spent. */
  function ScheduleCleanupRetry(cfg: Config, st: Row, error: ErrorClass, now: Clock): Option<(Row, RetryKind)> {
    if error.Permanent? || (!error.RunnerBusy? && st.retryCount >= cfg.retryMax) then None
    else
      var n := if st.retryCount < cfg.retryMax then st.retryCount + 1 else st.retryCount;
      Some((st.(retryCount := n, status := Stopping, errorRetryable := true,
                failureStage := if st.failureStage == "" then "cleanup" else st.failureStage,
                nextRetryAt := RetryTime(cfg, n, now)),
            if error.RunnerBusy? then BusyCleanup else Ordinary))
  }

  function Unleased(r: Row): Row {
    r.(lease := NO_LEASE)
  }

  /** requeueInterruptedCreation */
  function RequeuedCreation(r: Row): Row {
    Unleased(r).(status := Queued, sandbox := "", pid := 0, failureStage := "", errorRetryable := false, nextRetryAt := 0,
                 times := r.times.(creating := 0, running := 0, stopping := 0))
  }

  /** requeueMismatchedWorkflowJob when the original job is still queued */
  function RequeuedMismatch(r: Row): Row {
    Unleased(r).(status := Queued, sandbox := "", pid := 0, assignedId := 0, assignedName := "", failureStage := "",
                 errorRetryable := false, nextRetryAt := 0, times := NO_TIMES)
  }

  /** requeueMismatchedWorkflowJob when it is not */
  function Inspected(r: Row): Row {
    r.(assignedId := 0, assignedName := "")
  }

  /** Queued again as if it had never run. */
  predicate StartedOver(before: Row, after: Row) {
    && after.status.Queued? && Cleared(after) && after.assignedId == 0 && after.assignedName == "" && after.nextRetryAt == 0
    && after.lease == NO_LEASE && after.failureStage == "" && !after.errorRetryable
    && after.req == before.req && after.retryCount == before.retryCount
  }

  /** The record of another job is dropped, and nothing else. */
  predicate Looked(before: Row, after: Row) {
    after == before.(assignedId := 0, assignedName := "")
  }

  // ---- GitHub jobs ----------------------------------------------------------

  datatype JobStatus = JobQueued | JobInProgress | JobCompleted | JobOther

  /** A workflow job as GitHub reports it; id 0 stands for the empty struct. */
  datatype Job = Job(id: int, name: string, runnerName: string, status: JobStatus)

  const NO_JOB := Job(0, "", "", JobOther)

  predicate ShouldRecord(st: Row, job: Job) {
    job.id != 0 && (st.assignedId != job.id || st.assignedName != job.name)
  }

  function Record(st: Row, job: Job): Row {
    if ShouldRecord(st, job) then st.(assignedId := job.id, assignedName := job.name) else st
  }

  /** workflowJobStopConflictsWithAssignment */
  predicate StopConflicts(st: Row, job: Job) {
    job.id != 0 && !(job.runnerName != "" && job.runnerName == st.req.runnerName) &&
    (if st.assignedId != 0 then st.assignedId != job.id
     else st.assignedName == RUNNER_JOB_STARTED && st.req.jobId == job.id)
  }

  predicate Mismatched(st: Row, job: Job) {
    st.req.jobId != 0 && job.id != 0 && st.req.jobId != job.id
  }

  /** What ListMismatchedCompletedStates selects. */
  predicate MismatchedCompleted(st: Row) {
    st.status.Completed? && st.req.jobId != 0 && st.assignedId != 0 && st.assignedId != st.req.jobId
  }

  function MismatchedIds(rows: Rows): set<string> {
    set id | id in rows && MismatchedCompleted(rows[id])
  }
}
