/** The server calls that move a runner request, as programs over atomic steps.

    A call is cut wherever another actor can intervene: at each lock operation,
    each store transaction and each answer from GitHub or the sandbox service.
    `PC` is what a call will do next. The lock, write and release steps carry
    their continuation; at the other points the call reads or asks something
    and `Decide` says how the server goes on. */
module RunnerCalls {
  import opened Common
  import opened RunnerRows

  /** How the runner process ended (ExitResult and error of OnExit). */
  datatype Exit = CleanExit | NonZeroExit | ProcessError

  datatype Reconnect = Reconnected | SandboxNotFound | RunnerNotFound | ReconnectFailed

  /** The program point that issues a WriteState. */
  datatype Site =
    | StartCreating | ConfigSnapshot | StartRunning
    | FailStart(kind: RetryKind)      // failStart, on the row it has just re-read
    | FailStale(kind: RetryKind)      // failStart, on its caller's copy because the re-read failed
    | DeferQueued | SkipStart | MarkAssigned | MarkStarted
    | KeepBusy | RunnerExit | ExitCleanupRetry(kind: RetryKind)
    | StopRecord | StopBegin | StopRetry | StopFailed | StopCleanupRetry(kind: RetryKind) | StopCleanupFailed
    | StopRequeue | StopInspect | StopMismatchDone | StopDone
    | ForceBegin | ForceStopFailed | ForceCleanupRetry(kind: RetryKind) | ForceDone
    | RetryOrFail(kind: RetryKind)
    | RecoverQueued | RecoverRunning | RecoverRequeue
    | MismatchRequeue | MismatchInspect | ReconcileComplete

  /** startRunner */
  datatype StartPoint =
    | StartRead
    | StartProfile(st: Row)
    | StartCount(st: Row, limit: int)
    | StartCountProfile(st: Row, limit: int)
    | StartJob(st: Row)
    | StartConfig(st: Row)
    | StartSnapshot(st: Row, source: string)
    | StartSandbox(st: Row)
    | StartRecheck(sandbox: string, pid: nat)
    | StartCleanup(sandbox: string, pid: nat)

  /** failStart, deferQueuedRequest, completeWithoutSandbox, markWorkflowJobInProgress,
      markRunnerJobStarted, retryOrFail */
  datatype SettlePoint =
    | FailRead(st: Row, source: string, stage: string, error: ErrorClass)
    | DeferRead(at: Time)
    | SkipRead(job: Job)
    | MarkRead(job: Job)
    | MarkStartedRead
    | RetryRead(stage: string, error: ErrorClass)

  /** runnerExited, keepRunnerRunningWhenGitHubBusy */
  datatype ExitPoint =
    | ExitRead(exit: Exit)
    | ExitBusy(st: Row, exit: Exit)
    | ExitBusyRead(st: Row, exit: Exit)
    | ExitReread(exit: Exit)

  /** stopRunner */
  datatype StopPoint =
    | StopRead(job: Job, recovering: bool)
    | StopSandbox(st: Row, job: Job)
    | StopCleanup(st: Row, job: Job)
    | StopSettle(st: Row, job: Job)

  /** failAndStopRunnerVersion */
  datatype ForcePoint =
    | ForceRead(version: nat, stage: string)
    | ForceSandbox(st: Row, stage: string)
    | ForceCleanup(st: Row, stage: string)

  /** recoverRunner, recoverActiveRunner, requeueInterruptedCreation */
  datatype RecoverPoint =
    | RecoverRead
    | RecoverJob(st: Row)
    | RecoverConnect(st: Row, answer: Option<JobStatus>)
    | RecoverAttach(version: nat, sandbox: string, pid: nat)
    | RequeueRead(version: nat)

  /** reconcileMismatchedCompletedJobs, completeIfWorkflowJobCompleted */
  datatype ReconcilePoint =
    | MismatchRead
    | MismatchQuery(cur: Row)
    | MismatchReread(cur: Row, queued: bool)
    | CompleteRead
    | CompleteQuery(st: Row)
    | CompleteReread(st: Row)

  datatype PC =
    | Done
    | LockRunner(next: PC)
    | UnlockRunner(next: PC)
    | LockAdmission(next: PC)
    | UnlockAdmission(next: PC)
    | ReleaseLease(next: PC)
    | Write(site: Site, base: Row, row: Row, ok: PC, fail: PC)   // `base` is the caller's copy `row` was made from
    | AtStart(start: StartPoint)
    | AtSettle(settle: SettlePoint)
    | AtExit(exit: ExitPoint)
    | AtStop(stop: StopPoint)
    | AtForce(force: ForcePoint)
    | AtRecover(recover: RecoverPoint)
    | AtReconcile(reconcile: ReconcilePoint)

  /** What the environment answers during one step; each point looks at the
      parts it asks for. */
  datatype Choice = Choice(
    now: Clock,
    fault: bool,          // the store access or the remote call of this step returned an error
    error: ErrorClass,    // the class of that error
    stage: string,        // the failure stage startRunner had reached
    yes: bool,            // a boolean answer: config present, job queued, runner busy, time-out passed
    stopFails: bool,      // stopping the sandbox failed for a reason other than "already gone"
    cleanupFails: bool,   // removing the GitHub runner failed
    job: Job,
    reconnect: Reconnect,
    source: string,
    sandbox: string,
    pid: nat)

  // ---- startRunner ----------------------------------------------------------

  function FailWith(st: Row, source: string, stage: string, error: ErrorClass): PC {
    LockRunner(AtSettle(FailRead(st, source, stage, error)))
  }

  function LeaveAdmission(next: PC): PC {
    UnlockAdmission(UnlockRunner(next))
  }

  function Defer(now: Clock): PC {
    LeaveAdmission(LockRunner(AtSettle(DeferRead(now + 5_000_000_000))))
  }

  function BeginCreating(cfg: Config, st: Row, now: Clock): PC {
    var row := st.(status := Creating, lease := Lease(cfg.workerId, now + cfg.leaseTtl));
    // the local copy keeps the version it was read with
    Write(StartCreating, st, row, LeaveAdmission(AtStart(StartJob(row))), LeaveAdmission(ReleaseLease(Done)))
  }

  function DecideStart(cfg: Config, rows: Rows, profiles: map<string, int>, read: Option<Row>, p: StartPoint, c: Choice): PC {
    match p
    case StartRead =>
      if read.None? then UnlockRunner(Done)
      else if Stopped(read.value.status) then UnlockRunner(ReleaseLease(Done))
      else AtStart(StartProfile(read.value))
    case StartProfile(st) =>
      if c.fault || st.req.profile !in profiles then UnlockRunner(FailWith(st, st.configSource, "profile_lookup", c.error))
      else LockAdmission(AtStart(StartCount(st, profiles[st.req.profile])))
    case StartCount(st, limit) =>
      if c.fault then LeaveAdmission(ReleaseLease(Done))
      else if |InFlightIds(rows)| >= cfg.maxRunners then Defer(c.now)
      else if st.req.profile != "" then AtStart(StartCountProfile(st, limit))
      else BeginCreating(cfg, st, c.now)
    case StartCountProfile(st, limit) =>
      if limit <= 0 then BeginCreating(cfg, st, c.now)
      else if c.fault then LeaveAdmission(ReleaseLease(Done))
      else if |ProfileInFlightIds(rows, st.req.profile)| >= limit then Defer(c.now)
      else BeginCreating(cfg, st, c.now)
    case StartJob(st) =>
      if st.req.jobId == 0 then AtStart(StartConfig(st))
      else if c.fault then FailWith(st, st.configSource, "github_job_status", c.error)
      else if c.job.status.JobQueued? then AtStart(StartConfig(st))
      else LockRunner(AtSettle(SkipRead(c.job)))
    case StartConfig(st) =>
      if c.fault then FailWith(st, st.configSource, "sandbox_config", c.error)
      else if c.yes then AtStart(StartSnapshot(st, c.source))
      else AtStart(StartSandbox(st))
    case StartSnapshot(st, source) =>
      // this read-modify-write runs without the request's lock
      if read.None? then FailWith(st, st.configSource, "sandbox_config", c.error)
      else Write(ConfigSnapshot, read.value, read.value.(configSource := source),
                 AtStart(StartSandbox(st)), FailWith(read.value, source, "sandbox_config", c.error))
    case StartSandbox(st) =>
      if c.fault then FailWith(st, st.configSource, c.stage, c.error)
      else LockRunner(AtStart(StartRecheck(c.sandbox, c.pid)))
    case StartRecheck(sandbox, pid) =>
      var cleanup := UnlockRunner(AtStart(StartCleanup(sandbox, pid)));
      if read.None? || !read.value.status.Creating? then cleanup
      else Write(StartRunning, read.value, Unleased(read.value).(status := Running, sandbox := sandbox, pid := pid),
                 UnlockRunner(Done), cleanup)
    case StartCleanup(sandbox, pid) => Done
  }

  // ---- failStart, deferQueuedRequest, completeWithoutSandbox, mark* ---------

  function DecideSettle(cfg: Config, read: Option<Row>, p: SettlePoint, c: Choice): PC {
    match p
    case FailRead(st, source, stage, error) =>
      if read.None? then
        var (row, kind) := ApplyFailure(cfg, st.(configSource := source), stage, error, c.now);
        Write(FailStale(kind), st, row, UnlockRunner(Done), UnlockRunner(Done))
      else if Stopped(read.value.status) then ReleaseLease(UnlockRunner(Done))
      else
        var (row, kind) := ApplyFailure(cfg, read.value, stage, error, c.now);
        Write(FailStart(kind), read.value, row, UnlockRunner(Done), UnlockRunner(Done))
    case DeferRead(at) =>
      if read.None? || !read.value.status.Queued? || read.value.lease.owner != cfg.workerId then
        ReleaseLease(UnlockRunner(Done))
      else
        Write(DeferQueued, read.value, Unleased(read.value).(nextRetryAt := at),
              UnlockRunner(Done), ReleaseLease(UnlockRunner(Done)))
    case SkipRead(job) =>
      var leave := UnlockRunner(ReleaseLease(Done));
      if read.None? || Stopped(read.value.status) || read.value.status.Running? then leave
      else
        var st := Unleased(Record(read.value, job));
        Write(SkipStart, read.value, st.(status := Completed, times := st.times.(completed := c.now), failureStage := ""), leave, leave)
    case MarkRead(job) =>
      if read.None? || Stopped(read.value.status) || !ShouldRecord(read.value, job) then UnlockRunner(Done)
      else Write(MarkAssigned, read.value, Record(read.value, job), UnlockRunner(Done), UnlockRunner(Done))
    case MarkStartedRead =>
      if read.None? || read.value.assignedId != 0 || read.value.assignedName == RUNNER_JOB_STARTED || Stopped(read.value.status)
      then UnlockRunner(Done)
      else Write(MarkStarted, read.value, read.value.(assignedName := RUNNER_JOB_STARTED), UnlockRunner(Done), UnlockRunner(Done))
    case RetryRead(stage, error) =>
      if read.None? || read.value.status.Completed? || read.value.status.Failed? then UnlockRunner(Done)
      else
        var (row, kind) := ApplyFailure(cfg, read.value, stage, error, c.now);
        Write(RetryOrFail(kind), read.value, row, UnlockRunner(Done), UnlockRunner(Done))
  }

  // ---- runnerExited ---------------------------------------------------------

  function ExitSettle(cfg: Config, st: Row, exit: Exit, c: Choice): PC {
    var failed := st.(status := Failed, failureStage := "runner_exit");
    var sandboxKept := st.sandbox != "" && c.stopFails;
    var settled :=
      match exit
      case ProcessError => failed
      case NonZeroExit => failed
      case CleanExit =>
        if sandboxKept then st.(status := Failed) else st.(status := Completed, times := st.times.(completed := c.now));
    var write := (site: Site, row: Row) => Write(site, st, row, UnlockRunner(Done), UnlockRunner(Done));
    if !c.cleanupFails then write(RunnerExit, settled)
    else
      match ScheduleCleanupRetry(cfg, settled, c.error, c.now)
      case Some((row, kind)) => write(ExitCleanupRetry(kind), row)
      case None =>
        if exit.ProcessError? then write(RunnerExit, settled)
        else write(RunnerExit, settled.(status := Failed, failureStage := "cleanup"))
  }

  function DecideExit(cfg: Config, read: Option<Row>, p: ExitPoint, c: Choice): PC {
    match p
    case ExitRead(exit) =>
      if read.None? || !Active(read.value.status) then UnlockRunner(Done)
      else if exit.CleanExit? then ExitSettle(cfg, read.value, exit, c)
      else UnlockRunner(AtExit(ExitBusy(read.value, exit)))
    case ExitBusy(st, exit) =>
      if c.fault || !c.yes then LockRunner(AtExit(ExitReread(exit)))
      else LockRunner(AtExit(ExitBusyRead(st, exit)))
    case ExitBusyRead(st, exit) =>
      var again := UnlockRunner(LockRunner(AtExit(ExitReread(exit))));
      if read.None? then again
      else if !Active(read.value.status) then UnlockRunner(Done)
      else if read.value.req.runnerName != st.req.runnerName || read.value.sandbox != st.sandbox then UnlockRunner(Done)
      else
        var name := if read.value.assignedName == "" then RUNNER_JOB_STARTED else read.value.assignedName;
        Write(KeepBusy, read.value, read.value.(status := Running, errorRetryable := true, assignedName := name),
              UnlockRunner(Done), again)
    case ExitReread(exit) =>
      if read.None? || !Active(read.value.status) then UnlockRunner(Done)
      else ExitSettle(cfg, read.value, exit, c)
  }

  // ---- stopRunner -----------------------------------------------------------

  function DecideStop(cfg: Config, read: Option<Row>, p: StopPoint, c: Choice): PC {
    var leave := UnlockRunner(Done);
    match p
    case StopRead(job, recovering) =>
      if read.None? then leave
      else
        var st := read.value;
        if StopConflicts(st, job) then
          if recovering && Active(st.status) then UnlockRunner(AtRecover(RecoverConnect(st, Some(JobCompleted)))) else leave
        else if st.status.Completed? then
          if ShouldRecord(st, job) then Write(StopRecord, st, Record(st, job), leave, leave) else leave
        else
          var row := Record(st, job).(status := Stopping);
          Write(StopBegin, st, row, AtStop(StopSandbox(row.(version := row.version + 1), job)), leave)
    case StopSandbox(st, job) =>
      if st.sandbox == "" || !c.stopFails then AtStop(StopCleanup(st, job))
      else
        (match ScheduleStopRetry(cfg, st, c.error, c.now)
         case Some(row) => Write(StopRetry, st, row, leave, leave)
         case None => Write(StopFailed, st, st.(status := Failed, failureStage := "stop"), leave, leave))
    case StopCleanup(st, job) =>
      if !c.cleanupFails then AtStop(StopSettle(st, job))
      else
        (match ScheduleCleanupRetry(cfg, st, c.error, c.now)
         case Some((row, kind)) => Write(StopCleanupRetry(kind), st, row, leave, leave)
         case None => Write(StopCleanupFailed, st, st.(status := Failed, failureStage := "cleanup"), leave, leave))
    case StopSettle(st, job) =>
      var closed := st.(nextRetryAt := 0, errorRetryable := false);
      if Mismatched(st, job) then
        if st.req.repository != "" && (c.fault || c.yes) then
          Write(StopRequeue, st, RequeuedMismatch(st), leave, leave)
        else
          var seen := Inspected(st);
          var next := seen.(version := seen.version + 1);
          Write(StopInspect, st, seen,
                Write(StopMismatchDone, next,
                      next.(status := Completed, times := next.times.(completed := c.now), nextRetryAt := 0, errorRetryable := false, failureStage := ""),
                      leave, leave),
                leave)
      else if st.failureStage != "" && st.failureStage != "cleanup" then
        Write(StopDone, st, closed.(status := Failed, times := st.times.(failed := c.now)), leave, leave)
      else
        Write(StopDone, st, closed.(status := Completed, times := st.times.(completed := c.now), failureStage := ""), leave, leave)
  }

  // ---- failAndStopRunnerVersion ---------------------------------------------

  function DecideForce(cfg: Config, read: Option<Row>, p: ForcePoint, c: Choice): PC {
    var leave := UnlockRunner(Done);
    match p
    case ForceRead(version, stage) =>
      if read.None? || (version != 0 && read.value.version != version) ||
         read.value.status.Completed? || read.value.status.Failed?
      then leave
      else
        var row := read.value.(status := Stopping, failureStage := stage);
        Write(ForceBegin, read.value, row, AtForce(ForceSandbox(row.(version := row.version + 1), stage)), leave)
    case ForceSandbox(st, stage) =>
      if st.sandbox != "" && c.stopFails then
        Write(ForceStopFailed, st, st.(status := Failed, failureStage := "stop"), leave, leave)
      else AtForce(ForceCleanup(st, stage))
    case ForceCleanup(st, stage) =>
      var scheduled := if c.cleanupFails then ScheduleCleanupRetry(cfg, st, c.error, c.now) else None;
      if scheduled.Some? then Write(ForceCleanupRetry(scheduled.value.1), st, scheduled.value.0, leave, leave)
      else
        var kept := if c.cleanupFails then "cleanup" else st.failureStage;
        Write(ForceDone, st,
              Unleased(st).(status := Failed, times := st.times.(failed := c.now), failureStage := if kept == "" then stage else kept),
              leave, leave)
  }

  // ---- restart recovery -----------------------------------------------------

  function DecideRecover(cfg: Config, read: Option<Row>, p: RecoverPoint, c: Choice): PC {
    var leave := UnlockRunner(Done);
    match p
    case RecoverRead =>
      if read.None? then leave
      else
        (match read.value.status
         case Queued => Write(RecoverQueued, read.value, Unleased(read.value), leave, leave)
         case Stopping => UnlockRunner(LockRunner(AtStop(StopRead(NO_JOB, false))))
         case Creating => UnlockRunner(AtRecover(RecoverJob(read.value)))
         case Running => UnlockRunner(AtRecover(RecoverJob(read.value)))
         case Completed => leave
         case Failed => leave)
    case RecoverJob(st) =>
      if st.req.jobId == 0 || st.req.repository == "" || c.fault then AtRecover(RecoverConnect(st, None))
      else if c.job.status.JobCompleted? then LockRunner(AtStop(StopRead(c.job, true)))
      else AtRecover(RecoverConnect(st, Some(c.job.status)))
    case RecoverConnect(st, answer) =>
      var requeue := LockRunner(AtRecover(RequeueRead(st.version)));
      var force := (stage: string) => LockRunner(AtForce(ForceRead(st.version, stage)));
      if c.yes then force("sandbox_timeout")
      else if c.fault then Done
      else
        (match c.reconnect
         case Reconnected => LockRunner(AtRecover(RecoverAttach(st.version, c.sandbox, c.pid)))
         case SandboxNotFound =>
           if st.status.Running? then force("recovery")
           else if st.status.Creating? && (answer.None? || answer.value.JobQueued?) then requeue
           else if st.status.Creating? && answer.value.JobInProgress? then force("recovery")
           else Done
         case RunnerNotFound =>
           if st.status.Creating? && c.sandbox != "" && !c.stopFails then requeue else Done
         case ReconnectFailed => Done)
    case RecoverAttach(version, sandbox, pid) =>
      if read.None? || read.value.version != version || !Active(read.value.status) then leave
      else
        Write(RecoverRunning, read.value,
              Unleased(read.value).(status := Running, sandbox := sandbox, pid := pid, failureStage := "", errorRetryable := false),
              leave, leave)
    case RequeueRead(version) =>
      if read.None? || read.value.version != version || !read.value.status.Creating? then leave
      else Write(RecoverRequeue, read.value, RequeuedCreation(read.value), leave, leave)
  }

  // ---- reconcilers ----------------------------------------------------------

  predicate Repairable(st: Row) {
    st.req.jobId != 0 && st.req.repository != "" && st.status.Failed? &&
    (st.failureStage == "recovery" || st.failureStage == "cleanup")
  }

  function DecideReconcile(cfg: Config, read: Option<Row>, p: ReconcilePoint, c: Choice): PC {
    var leave := UnlockRunner(Done);
    match p
    case MismatchRead =>
      if read.None? || !MismatchedCompleted(read.value) then leave
      else UnlockRunner(AtReconcile(MismatchQuery(read.value)))
    case MismatchQuery(cur) =>
      LockRunner(AtReconcile(MismatchReread(cur, cur.req.repository != "" && (c.fault || c.yes))))
    case MismatchReread(cur, queued) =>
      if read.None? || !read.value.status.Completed? || read.value.req.jobId != cur.req.jobId || read.value.assignedId != cur.assignedId
      then leave
      else if queued then Write(MismatchRequeue, read.value, RequeuedMismatch(read.value), leave, leave)
      else Write(MismatchInspect, read.value, Inspected(read.value), leave, leave)
    case CompleteRead =>
      if read.None? || !Repairable(read.value) then leave
      else UnlockRunner(AtReconcile(CompleteQuery(read.value)))
    case CompleteQuery(st) =>
      if c.fault || !c.job.status.JobCompleted? then Done
      else LockRunner(AtReconcile(CompleteReread(st)))
    case CompleteReread(st) =>
      if read.None? || read.value.version != st.version || read.value.req.jobId != st.req.jobId ||
         read.value.req.repository != st.req.repository || !Repairable(read.value)
      then leave
      else
        Write(ReconcileComplete, read.value,
              Inspected(Unleased(read.value)).(status := Completed, failureStage := "", errorRetryable := false,
                                               nextRetryAt := 0, times := read.value.times.(completed := c.now)),
              leave, leave)
  }

  // ---- dispatch -------------------------------------------------------------

  /** The call is about to read or ask something. */
  predicate AtPoint(pc: PC) {
    pc.AtStart? || pc.AtSettle? || pc.AtExit? || pc.AtStop? || pc.AtForce? || pc.AtRecover? || pc.AtReconcile?
  }

  /** What ReadState gives a call; None if it failed. */
  function ReadRow(rows: Rows, id: string, c: Choice): Option<Row> {
    if c.fault || id !in rows then None else Some(rows[id])
  }

  function Decide(cfg: Config, rows: Rows, profiles: map<string, int>, read: Option<Row>, pc: PC, c: Choice): PC
    requires AtPoint(pc)
  {
    match pc
    case AtStart(p) => DecideStart(cfg, rows, profiles, read, p, c)
    case AtSettle(p) => DecideSettle(cfg, read, p, c)
    case AtExit(p) => DecideExit(cfg, read, p, c)
    case AtStop(p) => DecideStop(cfg, read, p, c)
    case AtForce(p) => DecideForce(cfg, read, p, c)
    case AtRecover(p) => DecideRecover(cfg, read, p, c)
    case AtReconcile(p) => DecideReconcile(cfg, read, p, c)
  }

  /** The calls other actors make, besides a claim by the queue worker. */
  datatype Entry =
    | RunnerProcessExited(exit: Exit)
    | WebhookInProgress(job: Job)
    | RunnerAcceptedJob
    | StopRequested(job: Job)
    | ForcedStop(stage: string)
    | SweepCreateTimeout
    | RestartRecovery
    | ReconcileMismatch
    | ReconcileFailed

  function Enter(e: Entry): PC {
    match e
    case RunnerProcessExited(exit) => LockRunner(AtExit(ExitRead(exit)))
    case WebhookInProgress(job) => LockRunner(AtSettle(MarkRead(job)))
    case RunnerAcceptedJob => LockRunner(AtSettle(MarkStartedRead))
    case StopRequested(job) => LockRunner(AtStop(StopRead(job, false)))
    case ForcedStop(stage) => LockRunner(AtForce(ForceRead(0, stage)))
    case SweepCreateTimeout => LockRunner(AtSettle(RetryRead("sweeper_create_timeout", Transient)))
    case RestartRecovery => LockRunner(AtRecover(RecoverRead))
    case ReconcileMismatch => LockRunner(AtReconcile(MismatchRead))
    case ReconcileFailed => LockRunner(AtReconcile(CompleteRead))
  }
}
