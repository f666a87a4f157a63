/** The invariant of the interleaving machine, kept by every event. */
module RunnerInvariant {
  import opened Common
  import opened RunnerRows
  import opened RunnerCalls
  import opened RunnerMachine

  // ---- Decisions, one call family at a time -----------------------------------

  lemma FailureGood(cfg: Config, r: Row, stage: string, error: ErrorClass, now: Clock)
    ensures
      var (row, kind) := ApplyFailure(cfg, r, stage, error, now);
      && row.version == r.version && row.req == r.req
      && (row.status.Queued? || row.status.Failed?)
      && r.retryCount <= row.retryCount
      && (r.retryCount <= cfg.retryMax ==> row.retryCount <= cfg.retryMax)
      && (kind.Ordinary? ==> row.retryCount == r.retryCount + 1)
      && (row.status.Queued? ==> Cleared(row))
      && row.sandbox == "" && row.failureStage == stage
  {
  }

  /** A write after which the call only has to unlock, release its lease, or both. */
  predicate Leaves(pc: PC) {
    pc == UnlockRunner(Done) || pc == UnlockRunner(ReleaseLease(Done)) || pc == ReleaseLease(UnlockRunner(Done))
  }

  lemma LeavesGood(cfg: Config, pc: PC)
    requires Leaves(pc)
    ensures Good(cfg, pc) && HoldsRunner(pc) && !HoldsAdmission(pc) && Snapshot(pc) == None
  {
    assert Good(cfg, Done) && Good(cfg, ReleaseLease(Done)) && Good(cfg, UnlockRunner(Done));
    assert !HoldsRunner(ReleaseLease(Done)) && Snapshot(ReleaseLease(Done)) == None;
    assert HoldsRunner(UnlockRunner(Done)) && Snapshot(UnlockRunner(Done)) == None;
  }

  lemma LastWriteGood(cfg: Config, site: Site, base: Row, row: Row, ok: PC, fail: PC)
    requires Justified(cfg, site, base, row) && !site.StartCreating? && Leaves(ok) && Leaves(fail)
    ensures
      var pc := Write(site, base, row, ok, fail);
      Good(cfg, pc) && HoldsRunner(pc) && !HoldsAdmission(pc) && Snapshot(pc) == Some(base)
  {
    LeavesGood(cfg, ok);
    LeavesGood(cfg, fail);
  }

  lemma FailWithGood(cfg: Config, st: Row, source: string, stage: string, error: ErrorClass)
    requires st.status.Completed? ==> stage == "sandbox_config"
    ensures
      var pc := FailWith(st, source, stage, error);
      && Good(cfg, pc) && !HoldsRunner(pc) && !HoldsAdmission(pc) && Snapshot(pc) == Some(st)
      && Good(cfg, UnlockRunner(pc)) && Snapshot(UnlockRunner(pc)) == Some(st)
  {
    var at := AtSettle(FailRead(st, source, stage, error));
    assert Good(cfg, at) && HoldsRunner(at) && Snapshot(at) == Some(st);
    assert Good(cfg, LockRunner(at)) && Snapshot(LockRunner(at)) == Some(st);
  }

  lemma LeaveAdmissionGood(cfg: Config, next: PC)
    requires Good(cfg, next) && !HoldsRunner(next) && !HoldsAdmission(next)
    ensures
      var pc := LeaveAdmission(next);
      Good(cfg, pc) && HoldsRunner(pc) && HoldsAdmission(pc) && Snapshot(pc) == Snapshot(next)
  {
    assert Good(cfg, UnlockRunner(next)) && HoldsRunner(UnlockRunner(next)) && !HoldsAdmission(UnlockRunner(next));
    assert Snapshot(UnlockRunner(next)) == Snapshot(next);
  }

  lemma DeferGood(cfg: Config, now: Clock)
    ensures Good(cfg, Defer(now)) && HoldsRunner(Defer(now)) && HoldsAdmission(Defer(now)) && Snapshot(Defer(now)) == None
  {
    var at := AtSettle(DeferRead(now + 5_000_000_000));
    assert Good(cfg, at) && HoldsRunner(at) && Snapshot(at) == None;
    assert Good(cfg, LockRunner(at)) && Snapshot(LockRunner(at)) == None;
    LeaveAdmissionGood(cfg, LockRunner(at));
  }

  lemma GiveUpStartGood(cfg: Config)
    ensures
      var pc := LeaveAdmission(ReleaseLease(Done));
      Good(cfg, pc) && HoldsRunner(pc) && HoldsAdmission(pc) && Snapshot(pc) == None
  {
    assert Good(cfg, ReleaseLease(Done)) && Snapshot(ReleaseLease(Done)) == None;
    LeaveAdmissionGood(cfg, ReleaseLease(Done));
  }

  lemma BeginCreatingGood(cfg: Config, st: Row, now: Clock)
    requires !Stopped(st.status)
    ensures
      var pc := BeginCreating(cfg, st, now);
      Good(cfg, pc) && HoldsRunner(pc) && HoldsAdmission(pc) && Snapshot(pc) == Some(st)
  {
    GiveUpStartGood(cfg);
    var row := st.(status := Creating, lease := Lease(cfg.workerId, now + cfg.leaseTtl));
    assert Good(cfg, AtStart(StartJob(row)));
    LeaveAdmissionGood(cfg, AtStart(StartJob(row)));
    assert Justified(cfg, StartCreating, st, row);
  }

  lemma StartAdmissionGood(cfg: Config, rows: Rows, profiles: map<string, int>, read: Option<Row>, p: StartPoint, c: Choice)
    requires Readable(cfg, read, AtStart(p))
    requires p.StartProfile? || p.StartCount? || p.StartCountProfile?
    ensures GoodDecision(cfg, read, AtStart(p), DecideStart(cfg, rows, profiles, read, p, c))
  {
    if p.StartProfile? {
      FailWithGood(cfg, p.st, p.st.configSource, "profile_lookup", c.error);
    } else {
      GiveUpStartGood(cfg);
      DeferGood(cfg, c.now);
      BeginCreatingGood(cfg, p.st, c.now);
    }
  }

  lemma StartGood(cfg: Config, rows: Rows, profiles: map<string, int>, read: Option<Row>, p: StartPoint, c: Choice)
    requires Readable(cfg, read, AtStart(p))
    ensures GoodDecision(cfg, read, AtStart(p), DecideStart(cfg, rows, profiles, read, p, c))
  {
    if p.StartProfile? || p.StartCount? || p.StartCountProfile? {
      StartAdmissionGood(cfg, rows, profiles, read, p, c);
    } else if p.StartRead? {
      LeavesGood(cfg, UnlockRunner(Done));
      LeavesGood(cfg, UnlockRunner(ReleaseLease(Done)));
    } else if p.StartRecheck? {
      RecheckGood(cfg, read, p.sandbox, p.pid);
    } else if !p.StartCleanup? {
      StartPreparationGood(cfg, rows, profiles, read, p, c);
    }
  }

  lemma StartPreparationGood(cfg: Config, rows: Rows, profiles: map<string, int>, read: Option<Row>, p: StartPoint, c: Choice)
    requires Readable(cfg, read, AtStart(p))
    requires p.StartJob? || p.StartConfig? || p.StartSnapshot? || p.StartSandbox?
    ensures GoodDecision(cfg, read, AtStart(p), DecideStart(cfg, rows, profiles, read, p, c))
  {
    var stage :=
      if p.StartJob? then "github_job_status" else if p.StartSandbox? then c.stage else "sandbox_config";
    FailWithGood(cfg, p.st, p.st.configSource, stage, c.error);
    if p.StartSnapshot? && read.Some? {
      SnapshotWriteGood(cfg, read.value, p.source, p.st, c.error);
    }
  }

  lemma SnapshotWriteGood(cfg: Config, cur: Row, source: string, st: Row, error: ErrorClass)
    requires TimesOk(cur) && st.version <= cur.version && st.retryCount <= cfg.retryMax && st.status.Creating?
    ensures
      var pc := Write(ConfigSnapshot, cur, cur.(configSource := source), AtStart(StartSandbox(st)), FailWith(cur, source, "sandbox_config", error));
      Good(cfg, pc) && !HoldsRunner(pc) && !HoldsAdmission(pc) && Snapshot(pc) == Some(cur)
  {
    FailWithGood(cfg, cur, source, "sandbox_config", error);
    assert Justified(cfg, ConfigSnapshot, cur, cur.(configSource := source));
    assert Good(cfg, AtStart(StartSandbox(st)));
  }

  lemma RecheckGood(cfg: Config, read: Option<Row>, sandbox: string, pid: nat)
    ensures
      var cleanup := UnlockRunner(AtStart(StartCleanup(sandbox, pid)));
      && Good(cfg, cleanup) && HoldsRunner(cleanup) && !HoldsAdmission(cleanup) && Snapshot(cleanup) == None
      && (read.Some? && read.value.status.Creating? ==>
            var pc := Write(StartRunning, read.value, Unleased(read.value).(status := Running, sandbox := sandbox, pid := pid),
                            UnlockRunner(Done), cleanup);
            Good(cfg, pc) && HoldsRunner(pc) && !HoldsAdmission(pc) && Snapshot(pc) == read)
  {
    var at := AtStart(StartCleanup(sandbox, pid));
    assert Good(cfg, at) && !HoldsRunner(at) && !HoldsAdmission(at) && Snapshot(at) == None;
    LeavesGood(cfg, UnlockRunner(Done));
  }

  /** A row that a failure was applied to, written back. */
  lemma FailureWriteGood(cfg: Config, site: Site, r: Row, row: Row, kind: RetryKind, stage: string, error: ErrorClass, now: Clock)
    requires (row, kind) == ApplyFailure(cfg, r, stage, error, now)
    requires (site == FailStart(kind) && !Stopped(r.status)) || (site == RetryOrFail(kind) && !r.status.Completed? && !r.status.Failed?)
    ensures
      var pc := Write(site, r, row, UnlockRunner(Done), UnlockRunner(Done));
      Good(cfg, pc) && HoldsRunner(pc) && !HoldsAdmission(pc) && Snapshot(pc) == Some(r)
  {
    LeavesGood(cfg, UnlockRunner(Done));
    FailureGood(cfg, r, stage, error, now);
    LastWriteGood(cfg, site, r, row, UnlockRunner(Done), UnlockRunner(Done));
  }

  lemma StaleWriteGood(cfg: Config, st: Row, source: string, stage: string, error: ErrorClass, now: Clock)
    requires st.status.Completed? ==> stage == "sandbox_config"
    ensures
      var (row, kind) := ApplyFailure(cfg, st.(configSource := source), stage, error, now);
      var pc := Write(FailStale(kind), st, row, UnlockRunner(Done), UnlockRunner(Done));
      Good(cfg, pc) && HoldsRunner(pc) && !HoldsAdmission(pc) && Snapshot(pc) == Some(st)
  {
    LeavesGood(cfg, UnlockRunner(Done));
    FailureGood(cfg, st.(configSource := source), stage, error, now);
    var (row, kind) := ApplyFailure(cfg, st.(configSource := source), stage, error, now);
    LastWriteGood(cfg, FailStale(kind), st, row, UnlockRunner(Done), UnlockRunner(Done));
  }

  lemma FailedCallGood(cfg: Config, read: Option<Row>, p: SettlePoint, c: Choice)
    requires Readable(cfg, read, AtSettle(p)) && (p.FailRead? || p.RetryRead?)
    ensures GoodDecision(cfg, read, AtSettle(p), DecideSettle(cfg, read, p, c))
  {
    LeavesGood(cfg, UnlockRunner(Done));
    LeavesGood(cfg, ReleaseLease(UnlockRunner(Done)));
    var next := DecideSettle(cfg, read, p, c);
    if next.Write? {
      if read.None? {
        StaleWriteGood(cfg, p.st, p.source, p.stage, p.error, c.now);
      } else {
        FailureWriteGood(cfg, next.site, read.value, next.row, next.site.kind, p.stage, p.error, c.now);
      }
    }
  }

  lemma SettleGood(cfg: Config, read: Option<Row>, p: SettlePoint, c: Choice)
    requires Readable(cfg, read, AtSettle(p))
    ensures GoodDecision(cfg, read, AtSettle(p), DecideSettle(cfg, read, p, c))
  {
    if p.FailRead? || p.RetryRead? {
      FailedCallGood(cfg, read, p, c);
    } else {
      LeavesGood(cfg, UnlockRunner(Done));
      LeavesGood(cfg, UnlockRunner(ReleaseLease(Done)));
      LeavesGood(cfg, ReleaseLease(UnlockRunner(Done)));
      var next := DecideSettle(cfg, read, p, c);
      if next.Write? { LastWriteGood(cfg, next.site, next.base, next.row, next.ok, next.fail); }
    }
  }

  lemma ExitSettleGood(cfg: Config, st: Row, exit: Exit, c: Choice)
    requires Active(st.status)
    ensures
      var pc := ExitSettle(cfg, st, exit, c);
      Good(cfg, pc) && HoldsRunner(pc) && !HoldsAdmission(pc) && Snapshot(pc) == Some(st)
  {
    var pc := ExitSettle(cfg, st, exit, c);
    LastWriteGood(cfg, pc.site, pc.base, pc.row, pc.ok, pc.fail);
  }

  lemma KeepBusyGood(cfg: Config, cur: Row, exit: Exit, name: string)
    requires Active(cur.status)
    ensures
      var again := UnlockRunner(LockRunner(AtExit(ExitReread(exit))));
      var pc := Write(KeepBusy, cur, cur.(status := Running, errorRetryable := true, assignedName := name), UnlockRunner(Done), again);
      && Good(cfg, again) && HoldsRunner(again) && !HoldsAdmission(again) && Snapshot(again) == None
      && Good(cfg, pc) && HoldsRunner(pc) && !HoldsAdmission(pc) && Snapshot(pc) == Some(cur)
  {
    LeavesGood(cfg, UnlockRunner(Done));
    var at := AtExit(ExitReread(exit));
    assert Good(cfg, at) && HoldsRunner(at) && Snapshot(at) == None;
    assert Good(cfg, LockRunner(at)) && Snapshot(LockRunner(at)) == None;
  }

  lemma ExitGood(cfg: Config, read: Option<Row>, p: ExitPoint, c: Choice)
    requires Readable(cfg, read, AtExit(p))
    ensures GoodDecision(cfg, read, AtExit(p), DecideExit(cfg, read, p, c))
  {
    LeavesGood(cfg, UnlockRunner(Done));
    match p
    case ExitRead(exit) =>
      if read.Some? && Active(read.value.status) { ExitSettleGood(cfg, read.value, exit, c); }
    case ExitReread(exit) =>
      if read.Some? && Active(read.value.status) { ExitSettleGood(cfg, read.value, exit, c); }
    case ExitBusy(st, exit) =>
    case ExitBusyRead(st, exit) =>
      if read.Some? && Active(read.value.status) {
        KeepBusyGood(cfg, read.value, exit, if read.value.assignedName == "" then RUNNER_JOB_STARTED else read.value.assignedName);
      } else {
        var at := AtExit(ExitReread(exit));
        assert Good(cfg, at) && HoldsRunner(at) && Snapshot(at) == None;
        assert Good(cfg, LockRunner(at)) && Snapshot(LockRunner(at)) == None;
      }
  }

  lemma StopBeginGood(cfg: Config, st: Row, job: Job)
    requires !st.status.Completed?
    ensures
      var row := Record(st, job).(status := Stopping);
      var pc := Write(StopBegin, st, row, AtStop(StopSandbox(row.(version := row.version + 1), job)), UnlockRunner(Done));
      Good(cfg, pc) && HoldsRunner(pc) && !HoldsAdmission(pc) && Snapshot(pc) == Some(st)
  {
    LeavesGood(cfg, UnlockRunner(Done));
    var row := Record(st, job).(status := Stopping);
    assert Good(cfg, AtStop(StopSandbox(row.(version := row.version + 1), job)));
    assert Justified(cfg, StopBegin, st, row);
  }

  lemma StopRecordGood(cfg: Config, st: Row, job: Job)
    requires st.status.Completed?
    ensures
      var pc := Write(StopRecord, st, Record(st, job), UnlockRunner(Done), UnlockRunner(Done));
      Good(cfg, pc) && HoldsRunner(pc) && !HoldsAdmission(pc) && Snapshot(pc) == Some(st)
  {
    LastWriteGood(cfg, StopRecord, st, Record(st, job), UnlockRunner(Done), UnlockRunner(Done));
  }

  lemma StopReadGood(cfg: Config, read: Option<Row>, job: Job, recovering: bool, c: Choice)
    requires Readable(cfg, read, AtStop(StopRead(job, recovering)))
    ensures GoodDecision(cfg, read, AtStop(StopRead(job, recovering)), DecideStop(cfg, read, StopRead(job, recovering), c))
  {
    LeavesGood(cfg, UnlockRunner(Done));
    if read.Some? && !StopConflicts(read.value, job) {
      if read.value.status.Completed? {
        StopRecordGood(cfg, read.value, job);
      } else {
        StopBeginGood(cfg, read.value, job);
      }
    }
  }

  lemma StopRequeueGood(cfg: Config, st: Row)
    requires st.status.Stopping?
    ensures
      var pc := Write(StopRequeue, st, RequeuedMismatch(st), UnlockRunner(Done), UnlockRunner(Done));
      Good(cfg, pc) && HoldsRunner(pc) && !HoldsAdmission(pc) && Snapshot(pc) == Some(st)
  {
    LastWriteGood(cfg, StopRequeue, st, RequeuedMismatch(st), UnlockRunner(Done), UnlockRunner(Done));
  }

  lemma StopInspectGood(cfg: Config, st: Row, now: Clock)
    requires st.status.Stopping?
    ensures
      var seen := Inspected(st);
      var next := seen.(version := seen.version + 1);
      var row := next.(status := Completed, times := next.times.(completed := now), nextRetryAt := 0, errorRetryable := false, failureStage := "");
      var pc := Write(StopInspect, st, seen, Write(StopMismatchDone, next, row, UnlockRunner(Done), UnlockRunner(Done)), UnlockRunner(Done));
      Good(cfg, pc) && HoldsRunner(pc) && !HoldsAdmission(pc) && Snapshot(pc) == Some(st)
  {
    var seen := Inspected(st);
    var next := seen.(version := seen.version + 1);
    var row := next.(status := Completed, times := next.times.(completed := now), nextRetryAt := 0, errorRetryable := false, failureStage := "");
    LeavesGood(cfg, UnlockRunner(Done));
    LastWriteGood(cfg, StopMismatchDone, next, row, UnlockRunner(Done), UnlockRunner(Done));
    assert Justified(cfg, StopInspect, st, seen);
  }

  lemma StopDoneGood(cfg: Config, st: Row, job: Job, c: Choice)
    requires st.status.Stopping? && !Mismatched(st, job)
    ensures
      var next := DecideStop(cfg, None, StopSettle(st, job), c);
      Good(cfg, next) && HoldsRunner(next) && !HoldsAdmission(next) && Snapshot(next) == Some(st)
  {
    var next := DecideStop(cfg, None, StopSettle(st, job), c);
    LastWriteGood(cfg, next.site, next.base, next.row, next.ok, next.fail);
  }

  lemma StopSettleGood(cfg: Config, st: Row, job: Job, c: Choice)
    requires st.status.Stopping?
    ensures
      var next := DecideStop(cfg, None, StopSettle(st, job), c);
      Good(cfg, next) && HoldsRunner(next) && !HoldsAdmission(next) && Snapshot(next) == Some(st)
  {
    if !Mismatched(st, job) {
      StopDoneGood(cfg, st, job, c);
    } else if st.req.repository != "" && (c.fault || c.yes) {
      StopRequeueGood(cfg, st);
    } else {
      StopInspectGood(cfg, st, c.now);
    }
  }

  lemma StopEndGood(cfg: Config, read: Option<Row>, p: StopPoint, c: Choice)
    requires Readable(cfg, read, AtStop(p)) && (p.StopSandbox? || p.StopCleanup?)
    ensures GoodDecision(cfg, read, AtStop(p), DecideStop(cfg, read, p, c))
  {
    var next := DecideStop(cfg, read, p, c);
    if next.Write? { LastWriteGood(cfg, next.site, next.base, next.row, next.ok, next.fail); }
  }

  lemma StopGood(cfg: Config, read: Option<Row>, p: StopPoint, c: Choice)
    requires Readable(cfg, read, AtStop(p))
    ensures GoodDecision(cfg, read, AtStop(p), DecideStop(cfg, read, p, c))
  {
    if p.StopRead? {
      StopReadGood(cfg, read, p.job, p.recovering, c);
    } else if p.StopSettle? {
      StopSettleGood(cfg, p.st, p.job, c);
    } else {
      StopEndGood(cfg, read, p, c);
    }
  }

  lemma ForceReadGood(cfg: Config, read: Option<Row>, version: nat, stage: string, c: Choice)
    requires Readable(cfg, read, AtForce(ForceRead(version, stage)))
    ensures GoodDecision(cfg, read, AtForce(ForceRead(version, stage)), DecideForce(cfg, read, ForceRead(version, stage), c))
  {
    var next := DecideForce(cfg, read, ForceRead(version, stage), c);
    LeavesGood(cfg, UnlockRunner(Done));
    if next.Write? {
      assert Good(cfg, next.ok) && HoldsRunner(next.ok) && !HoldsAdmission(next.ok);
      assert Justified(cfg, ForceBegin, next.base, next.row);
    }
  }

  lemma ForceSandboxGood(cfg: Config, p: ForcePoint, c: Choice)
    requires p.ForceSandbox? && PointOk(AtForce(p))
    ensures GoodDecision(cfg, None, AtForce(p), DecideForce(cfg, None, p, c))
  {
    var next := DecideForce(cfg, None, p, c);
    if next.Write? { LastWriteGood(cfg, next.site, next.base, next.row, next.ok, next.fail); }
  }

  lemma ForceCleanupGood(cfg: Config, p: ForcePoint, c: Choice)
    requires p.ForceCleanup? && PointOk(AtForce(p))
    ensures GoodDecision(cfg, None, AtForce(p), DecideForce(cfg, None, p, c))
  {
    var next := DecideForce(cfg, None, p, c);
    LastWriteGood(cfg, next.site, next.base, next.row, next.ok, next.fail);
  }

  lemma ForceGood(cfg: Config, read: Option<Row>, p: ForcePoint, c: Choice)
    requires Readable(cfg, read, AtForce(p))
    ensures GoodDecision(cfg, read, AtForce(p), DecideForce(cfg, read, p, c))
  {
    if p.ForceRead? {
      ForceReadGood(cfg, read, p.version, p.stage, c);
    } else if p.ForceSandbox? {
      ForceSandboxGood(cfg, p, c);
    } else {
      ForceCleanupGood(cfg, p, c);
    }
  }

  lemma LockAt(cfg: Config, at: PC)
    requires AtPoint(at) && HoldsRunner(at) && !HoldsAdmission(at) && PointOk(at)
    ensures
      var pc := LockRunner(at);
      && Good(cfg, pc) && !HoldsRunner(pc) && !HoldsAdmission(pc) && Snapshot(pc) == Snapshot(at)
      && Good(cfg, UnlockRunner(pc)) && HoldsRunner(UnlockRunner(pc)) && Snapshot(UnlockRunner(pc)) == Snapshot(at)
  {
    assert Good(cfg, at);
  }

  lemma RecoverWriteGood(cfg: Config, read: Option<Row>, p: RecoverPoint, c: Choice)
    requires Readable(cfg, read, AtRecover(p)) && (p.RecoverRead? || p.RecoverAttach? || p.RequeueRead?)
    ensures GoodDecision(cfg, read, AtRecover(p), DecideRecover(cfg, read, p, c))
  {
    LeavesGood(cfg, UnlockRunner(Done));
    var next := DecideRecover(cfg, read, p, c);
    if next.Write? {
      LastWriteGood(cfg, next.site, next.base, next.row, next.ok, next.fail);
    } else if next.UnlockRunner? && next.next.LockRunner? {
      LockAt(cfg, next.next.next);
    }
  }

  lemma RecoverGood(cfg: Config, read: Option<Row>, p: RecoverPoint, c: Choice)
    requires Readable(cfg, read, AtRecover(p))
    ensures GoodDecision(cfg, read, AtRecover(p), DecideRecover(cfg, read, p, c))
  {
    if p.RecoverJob? || p.RecoverConnect? {
      var next := DecideRecover(cfg, read, p, c);
      if next.LockRunner? { LockAt(cfg, next.next); }
    } else {
      RecoverWriteGood(cfg, read, p, c);
    }
  }

  lemma RereadGood(cfg: Config, read: Option<Row>, p: ReconcilePoint, c: Choice)
    requires Readable(cfg, read, AtReconcile(p)) && (p.MismatchReread? || p.CompleteReread?)
    ensures GoodDecision(cfg, read, AtReconcile(p), DecideReconcile(cfg, read, p, c))
  {
    var next := DecideReconcile(cfg, read, p, c);
    LeavesGood(cfg, UnlockRunner(Done));
    if next.Write? {
      LastWriteGood(cfg, next.site, next.base, next.row, next.ok, next.fail);
    }
  }

  lemma ReconcileGood(cfg: Config, read: Option<Row>, p: ReconcilePoint, c: Choice)
    requires Readable(cfg, read, AtReconcile(p))
    ensures GoodDecision(cfg, read, AtReconcile(p), DecideReconcile(cfg, read, p, c))
  {
    var next := DecideReconcile(cfg, read, p, c);
    if p.MismatchReread? || p.CompleteReread? {
      RereadGood(cfg, read, p, c);
    } else if next.LockRunner? {
      LockAt(cfg, next.next);
    } else if next.UnlockRunner? {
      LeavesGood(cfg, UnlockRunner(Done));
    }
  }

  lemma DecideGood(cfg: Config, rows: Rows, profiles: map<string, int>, read: Option<Row>, pc: PC, c: Choice)
    requires AtPoint(pc) && Readable(cfg, read, pc)
    ensures GoodDecision(cfg, read, pc, Decide(cfg, rows, profiles, read, pc, c))
  {
    match pc
    case AtStart(p) => StartGood(cfg, rows, profiles, read, p, c);
    case AtSettle(p) => SettleGood(cfg, read, p, c);
    case AtExit(p) => ExitGood(cfg, read, p, c);
    case AtStop(p) => StopGood(cfg, read, p, c);
    case AtForce(p) => ForceGood(cfg, read, p, c);
    case AtRecover(p) => RecoverGood(cfg, read, p, c);
    case AtReconcile(p) => ReconcileGood(cfg, read, p, c);
  }

  lemma EnterGood(cfg: Config, e: Entry)
    ensures Good(cfg, Enter(e)) && !HoldsRunner(Enter(e)) && !HoldsAdmission(Enter(e)) && Snapshot(Enter(e)) == None
  {
    LockAt(cfg, Enter(e).next);
  }

  // ---- Rows --------------------------------------------------------------------

  /** A write of a justified row leaves a well-stamped row that continues the stored one. */
  lemma WrittenOk(cfg: Config, site: Site, base: Row, row: Row, stored: Row, now: Clock)
    requires Justified(cfg, site, base, row)
    requires base.version == stored.version && Matches(base, stored)
    requires stored.retryCount <= cfg.retryMax
    ensures
      var next := Written(stored, row, now);
      && TimesOk(next)
      && next.version == stored.version + 1
      && next.req == stored.req
      && stored.retryCount <= next.retryCount <= cfg.retryMax
      && (OrdinaryRetry(site) ==> next.retryCount == stored.retryCount + 1)
      && Allowed(site, stored.status, next.status)
      && Matches(row.(version := row.version + 1), next)
  {
  }

  /** A later version, or the same version with the lease given up. */
  predicate Continues(stored: Row, next: Row, worker: string) {
    next.version == stored.version + 1 || next == Released(stored, worker)
  }

  lemma SnapshotKept(cfg: Config, rows: Rows, id: string, next: Row, i: string, s: Row)
    requires SnapshotOk(cfg, rows, i, s)
    requires id in rows ==> Continues(rows[id], next, cfg.workerId)
    ensures SnapshotOk(cfg, rows[id := next], i, s)
  {
  }

  lemma ThreadsKept(w: World, id: string, next: Row)
    requires ThreadsOk(w)
    requires id in w.rows ==> Continues(w.rows[id], next, w.cfg.workerId)
    ensures ThreadsOk(w.(rows := w.rows[id := next]))
  {
    forall t | t in w.threads
      ensures ThreadOk(w.cfg, w.rows[id := next], w.threads[t])
    {
      var th := w.threads[t];
      if Snapshot(th.pc).Some? {
        SnapshotKept(w.cfg, w.rows, id, next, th.id, Snapshot(th.pc).value);
      }
    }
  }

  // ---- Locks ---------------------------------------------------------------------

  /** A step that keeps what the call holds keeps the lock table right. */
  lemma LocksKept(w: World, t: nat, pc: PC)
    requires LocksOk(w) && t in w.threads
    requires HoldsRunner(pc) == HoldsRunner(w.threads[t].pc) && HoldsAdmission(pc) == HoldsAdmission(w.threads[t].pc)
    ensures LocksOk(Spawn(w, t, w.threads[t].id, pc))
  {
  }

  lemma LocksSpawned(w: World, t: nat, id: string, pc: PC)
    requires LocksOk(w) && t !in w.threads && !HoldsRunner(pc) && !HoldsAdmission(pc)
    ensures LocksOk(Spawn(w, t, id, pc))
  {
  }

  lemma RunnerLockStepKept(w: World, t: nat, c: Choice)
    requires LocksOk(w) && t in w.threads && Good(w.cfg, w.threads[t].pc)
    requires w.threads[t].pc.LockRunner? || w.threads[t].pc.UnlockRunner?
    ensures LocksOk(RunThread(w, t, c))
  {
    var w' := RunThread(w, t, c);
    if w' != w {
      forall u | u in w'.threads
        ensures HoldsRunner(w'.threads[u].pc) <==>
                Stripe(w.cfg, w'.threads[u].id) in w'.locks && w'.locks[Stripe(w.cfg, w'.threads[u].id)] == u
      {
      }
    }
  }

  lemma AdmissionLockStepKept(w: World, t: nat, c: Choice)
    requires LocksOk(w) && t in w.threads && Good(w.cfg, w.threads[t].pc)
    requires w.threads[t].pc.LockAdmission? || w.threads[t].pc.UnlockAdmission?
    ensures LocksOk(RunThread(w, t, c))
  {
  }

  predicate AtLock(pc: PC) {
    pc.LockRunner? || pc.UnlockRunner? || pc.LockAdmission? || pc.UnlockAdmission?
  }

  lemma LockStepKept(w: World, t: nat, c: Choice)
    requires LocksOk(w) && t in w.threads && Good(w.cfg, w.threads[t].pc) && AtLock(w.threads[t].pc)
    ensures LocksOk(RunThread(w, t, c))
  {
    var pc := w.threads[t].pc;
    if pc.LockRunner? || pc.UnlockRunner? {
      RunnerLockStepKept(w, t, c);
    } else {
      AdmissionLockStepKept(w, t, c);
    }
  }

  // ---- Every event keeps the invariant ---------------------------------------------

  /** A new row, or one that continues the stored row. */
  lemma RowKeepsInv(w: World, id: string, next: Row)
    requires Inv(w) && TimesOk(next) && next.retryCount <= w.cfg.retryMax
    requires id in w.rows ==> Continues(w.rows[id], next, w.cfg.workerId)
    ensures Inv(w.(rows := w.rows[id := next]))
  {
    ThreadsKept(w, id, next);
  }

  /** A call goes on without touching a mutex. */
  lemma MoveKeepsInv(w: World, t: nat, pc: PC)
    requires Inv(w) && t in w.threads && ThreadOk(w.cfg, w.rows, Thread(w.threads[t].id, pc))
    requires HoldsRunner(pc) == HoldsRunner(w.threads[t].pc) && HoldsAdmission(pc) == HoldsAdmission(w.threads[t].pc)
    ensures Inv(Spawn(w, t, w.threads[t].id, pc))
  {
    LocksKept(w, t, pc);
  }

  lemma SpawnKeepsInv(w: World, t: nat, id: string, pc: PC)
    requires Inv(w) && t !in w.threads && Good(w.cfg, pc) && !HoldsRunner(pc) && !HoldsAdmission(pc) && Snapshot(pc) == None
    ensures Inv(Spawn(w, t, id, pc))
  {
    LocksSpawned(w, t, id, pc);
  }

  lemma WriteKeepsInv(w: World, t: nat, c: Choice)
    requires Inv(w) && t in w.threads && w.threads[t].pc.Write?
    ensures Inv(RunThread(w, t, c))
  {
    var Thread(id, pc) := w.threads[t];
    assert ThreadOk(w.cfg, w.rows, w.threads[t]);
    if WriteSucceeds(w, t, c) {
      var next := Written(w.rows[id], pc.row, c.now);
      WrittenOk(w.cfg, pc.site, pc.base, pc.row, w.rows[id], c.now);
      RowKeepsInv(w, id, next);
      OkKept(w.cfg, w.rows, id, pc, next);
      MoveKeepsInv(w.(rows := w.rows[id := next]), t, pc.ok);
    } else {
      MoveKeepsInv(w, t, pc.fail);
    }
  }

  lemma OkKept(cfg: Config, rows: Rows, id: string, pc: PC, next: Row)
    requires pc.Write? && Good(cfg, pc) && id in rows
    requires next.version == pc.row.version + 1 && next.retryCount <= cfg.retryMax
    requires pc.base.version == rows[id].version && pc.base.retryCount <= cfg.retryMax
    requires Matches(pc.row.(version := pc.row.version + 1), next)
    ensures ThreadOk(cfg, rows[id := next], Thread(id, pc.ok))
  {
  }

  lemma DecideKeepsInv(w: World, t: nat, c: Choice)
    requires Inv(w) && t in w.threads && AtPoint(w.threads[t].pc)
    ensures Inv(RunThread(w, t, c))
  {
    var Thread(id, pc) := w.threads[t];
    var read := ReadRow(w.rows, id, c);
    assert ThreadOk(w.cfg, w.rows, w.threads[t]);
    DecideGood(w.cfg, w.rows, w.profiles, read, pc, c);
    MoveKeepsInv(w, t, Decide(w.cfg, w.rows, w.profiles, read, pc, c));
  }

  lemma ReleaseKeepsInv(w: World, t: nat, c: Choice)
    requires Inv(w) && t in w.threads && w.threads[t].pc.ReleaseLease?
    ensures Inv(RunThread(w, t, c))
  {
    var Thread(id, pc) := w.threads[t];
    assert ThreadOk(w.cfg, w.rows, w.threads[t]);
    MoveKeepsInv(w, t, pc.next);
    if !c.fault && id in w.rows {
      RowKeepsInv(Spawn(w, t, id, pc.next), id, Released(w.rows[id], w.cfg.workerId));
    }
  }

  lemma LockMoves(w: World, t: nat, c: Choice)
    requires t in w.threads && AtLock(w.threads[t].pc)
    ensures
      var w' := RunThread(w, t, c);
      && w'.rows == w.rows && w'.cfg == w.cfg
      && (w'.threads == w.threads || w'.threads == w.threads[t := Thread(w.threads[t].id, w.threads[t].pc.next)])
  {
  }

  lemma NextIsOk(cfg: Config, rows: Rows, th: Thread)
    requires ThreadOk(cfg, rows, th) && AtLock(th.pc)
    ensures ThreadOk(cfg, rows, Thread(th.id, th.pc.next))
  {
  }

  lemma LockKeepsInv(w: World, t: nat, c: Choice)
    requires Inv(w) && t in w.threads && AtLock(w.threads[t].pc)
    ensures Inv(RunThread(w, t, c))
  {
    LockMoves(w, t, c);
    NextIsOk(w.cfg, w.rows, w.threads[t]);
    LockStepKept(w, t, c);
  }

  lemma RunKeepsInv(w: World, t: nat, c: Choice)
    requires Inv(w) && t in w.threads
    ensures Inv(RunThread(w, t, c))
  {
    var pc := w.threads[t].pc;
    if pc.Write? {
      WriteKeepsInv(w, t, c);
    } else if AtPoint(pc) {
      DecideKeepsInv(w, t, c);
    } else if pc.ReleaseLease? {
      ReleaseKeepsInv(w, t, c);
    } else if !pc.Done? {
      LockKeepsInv(w, t, c);
    }
  }

  lemma ClaimKeepsInv(w: World, t: nat, id: string, now: Clock)
    requires Inv(w) && t !in w.threads && NextRunnable(w.rows, id, now)
    ensures Inv(Step(w, Claim(t, id, now)))
  {
    var next := Claimed(w.rows[id], w.cfg.workerId, now, w.cfg.leaseTtl);
    RowKeepsInv(w, id, next);
    LockAt(w.cfg, AtStart(StartRead));
    SpawnKeepsInv(w.(rows := w.rows[id := next]), t, id, LockRunner(AtStart(StartRead)));
  }

  lemma StepKeepsInv(w: World, e: Event)
    requires Inv(w)
    ensures Inv(Step(w, e))
  {
    match e
    case Create(id, req) =>
      if CanCreate(w.rows, id, req) { RowKeepsInv(w, id, NewRow(req)); }
    case Reject(id, req, now) =>
      if CanCreate(w.rows, id, req) { RowKeepsInv(w, id, RejectedRow(req, now)); }
    case Claim(t, id, now) =>
      if t !in w.threads && NextRunnable(w.rows, id, now) { ClaimKeepsInv(w, t, id, now); }
    case Call(t, id, entry) =>
      if t !in w.threads {
        EnterGood(w.cfg, entry);
        SpawnKeepsInv(w, t, id, Enter(entry));
      }
    case ManualRetry(id) =>
      if id in w.rows && RetryAllowed(w.rows[id]) { RowKeepsInv(w, id, Retried(w.rows[id])); }
    case SetProfile(name, limit) =>
    case DeleteProfile(name) =>
    case Restart =>
    case Run(t, c) =>
      if t in w.threads { RunKeepsInv(w, t, c); }
  }

  predicate OnlyMoves(w: World, w': World, t: nat) {
    w'.threads.Keys == w.threads.Keys && forall u :: u in w.threads && u != t ==> w'.threads[u] == w.threads[u]
  }

  lemma SpawnMovesOne(w: World, t: nat, id: string, pc: PC)
    requires t in w.threads
    ensures OnlyMoves(w, Spawn(w, t, id, pc), t)
  {
  }

  /** A step of one call leaves every other call where it is. */
  lemma RunTouchesOnlyItself(w: World, t: nat, c: Choice)
    requires t in w.threads
    ensures OnlyMoves(w, RunThread(w, t, c), t)
  {
    var Thread(id, pc) := w.threads[t];
    SpawnMovesOne(w, t, id, RunThread(w, t, c).threads[t].pc);
  }

  lemma StepConfig(w: World, e: Event)
    ensures Step(w, e).cfg == w.cfg
  {
  }

  /** Every state of every interleaving, from an empty store on. */
  lemma {:induction false} ExecKeepsInv(w: World, es: seq<Event>)
    requires Inv(w)
    ensures Inv(Exec(w, es))
    decreases |es|
  {
    if es != [] {
      StepKeepsInv(w, es[0]);
      ExecKeepsInv(Step(w, es[0]), es[1..]);
    }
  }

  lemma EmptyInv(cfg: Config, profiles: map<string, int>)
    ensures Inv(Empty(cfg, profiles))
  {
  }
}
