/** Whom a finished workflow job stops, and what a stop makes of its request: each
    way stopRunner can go, against the row it read and the answers it was given. */
module RunnerStops {
  import opened RunnerRows
  import opened RunnerCalls
  import opened RunnerMachine
  import opened RunnerFailures
  import opened RunnerTurns

  // ---- In the fields of row and job ------------------------------------------------------

  predicate NamesRunner(r: Row, job: Job) {
    job.runnerName != "" && job.runnerName == r.req.runnerName
  }

  /** The runner is known to have run the job, or nothing says it runs another one.
      A runner that accepted some job unseen may have accepted any but the one the
      request was made for. */
  predicate Concerns(r: Row, job: Job) {
    || job.id == 0
    || NamesRunner(r, job)
    || r.assignedId == job.id
    || (r.assignedId == 0 && (r.assignedName != RUNNER_JOB_STARTED || r.req.jobId != job.id))
  }

  /** The row with the job recorded on it. */
  function Assigned(r: Row, job: Job): Row {
    if job.id == 0 then r else r.(assignedId := job.id, assignedName := job.name)
  }

  /** The copy a stop works on once its request is stopping. */
  function Begun(r: Row, job: Job): Row {
    Assigned(r, job).(status := Stopping, version := r.version + 1)
  }

  /** The job is not the one the request was made for. */
  predicate Another(r: Row, job: Job) {
    r.req.jobId != 0 && job.id != 0 && r.req.jobId != job.id
  }

  // ---- The ways of a stop -------------------------------------------------------------------

  datatype Road = Begins | Records | StopsLater | Cleans | CleansLater | GivesUp | Settles | Requeues | Inspects | Finishes

  predicate OnRoad(road: Road, h: PC) {
    match road
    case Begins => h.Write? && h.site.StopBegin?
    case Records => h.Write? && h.site.StopRecord?
    case StopsLater => h.Write? && (h.site.StopRetry? || h.site.StopFailed?)
    case Cleans => h.AtStop? && h.stop.StopCleanup?
    case CleansLater => h.Write? && h.site.StopCleanupRetry?
    case GivesUp => h.Write? && h.site.StopCleanupFailed?
    case Settles => h.AtStop? && h.stop.StopSettle?
    case Requeues => h.Write? && h.site.StopRequeue?
    case Inspects => h.Write? && h.site.StopInspect?
    case Finishes => h.Write? && h.site.StopDone?
  }

  predicate Causes(road: Road, job: Job, m: Turn) {
    m.pc.AtStop? &&
    match m.pc.stop
    case StopRead(_, _) =>
      m.read.Some? && Concerns(m.read.value, job) &&
      (if m.read.value.status.Completed? then road.Records? && Assigned(m.read.value, job) != m.read.value else road.Begins?)
    case StopSandbox(st, _) => if st.sandbox != "" && m.c.stopFails then road.StopsLater? else road.Cleans?
    case StopCleanup(st, _) =>
      if !m.c.cleanupFails then road.Settles? else if MayRetryCleanup(m.cfg, st, m.c.error) then road.CleansLater? else road.GivesUp?
    case StopSettle(st, _) =>
      if !Another(st, job) then road.Finishes? else if MayBeQueued(m, st) then road.Requeues? else road.Inspects?
  }

  predicate Ends(ok: PC, fail: PC) {
    Head(ok) == Head(fail) == Done
  }

  predicate WriteShape(job: Job, site: Site, row: Row, ok: PC, fail: PC) {
    match site
    case StopBegin => Head(ok) == AtStop(StopSandbox(row.(version := row.version + 1), job)) && Head(fail) == Done
    case StopInspect => Head(ok).Write? && Head(ok).site.StopMismatchDone? && Ends(Head(ok).ok, Head(ok).fail) && Head(fail) == Done
    case _ => Ends(ok, fail)
  }

  /** The heads of a stop for this job. */
  predicate Shape(job: Job, h: PC) {
    match h
    case Done => true
    case AtStop(p) => p.job == job && (p.StopRead? ==> !p.recovering)
    case Write(site, base, row, ok, fail) => WriteShape(job, site, row, ok, fail)
    case _ => false
  }

  predicate Leads(road: Road, job: Job, m: Turn)
    requires TakesTurn(m.pc)
  {
    && Shape(job, After(m))
    && (Causes(road, job, m) ==> OnRoad(road, After(m)))
    && (OnRoad(road, After(m)) ==> Causes(road, job, m) || OnRoad(road, m.pc))
  }

  lemma WriteLeads(road: Road, job: Job, m: Turn)
    requires Shape(job, m.pc) && m.pc.Write?
    ensures Leads(road, job, m)
  {
  }

  lemma AbsentLeads(road: Road, job: Job, m: Turn)
    requires Shape(job, m.pc) && m.pc.AtStop? && m.pc.stop.StopRead?
    requires m.read.None? || !Concerns(m.read.value, job)
    ensures Leads(road, job, m)
  {
  }

  lemma RecordLeads(road: Road, job: Job, m: Turn)
    requires Shape(job, m.pc) && m.pc.AtStop? && m.pc.stop.StopRead?
    requires m.read.Some? && Concerns(m.read.value, job) && m.read.value.status.Completed?
    ensures Leads(road, job, m)
  {
  }

  lemma BeginLeads(road: Road, job: Job, m: Turn)
    requires Shape(job, m.pc) && m.pc.AtStop? && m.pc.stop.StopRead?
    requires m.read.Some? && Concerns(m.read.value, job) && !m.read.value.status.Completed?
    ensures Leads(road, job, m)
  {
  }

  lemma SandboxGoneLeads(road: Road, job: Job, m: Turn)
    requires Shape(job, m.pc) && m.pc.AtStop? && m.pc.stop.StopSandbox?
    requires m.pc.stop.st.sandbox == "" || !m.c.stopFails
    ensures Leads(road, job, m)
  {
    StopIsJudged(m.cfg, m.pc.stop.st, m.c.error, m.c.now);
  }

  lemma SandboxRetriedLeads(road: Road, job: Job, m: Turn)
    requires Shape(job, m.pc) && m.pc.AtStop? && m.pc.stop.StopSandbox?
    requires m.pc.stop.st.sandbox != "" && m.c.stopFails
    requires !m.c.error.Permanent? && m.pc.stop.st.retryCount < m.cfg.retryMax
    ensures Leads(road, job, m)
  {
    StopIsJudged(m.cfg, m.pc.stop.st, m.c.error, m.c.now);
  }

  lemma SandboxLostLeads(road: Road, job: Job, m: Turn)
    requires Shape(job, m.pc) && m.pc.AtStop? && m.pc.stop.StopSandbox?
    requires m.pc.stop.st.sandbox != "" && m.c.stopFails
    requires m.c.error.Permanent? || m.pc.stop.st.retryCount >= m.cfg.retryMax
    ensures Leads(road, job, m)
  {
    StopIsJudged(m.cfg, m.pc.stop.st, m.c.error, m.c.now);
  }

  lemma CleanLeads(road: Road, job: Job, m: Turn)
    requires Shape(job, m.pc) && m.pc.AtStop? && m.pc.stop.StopCleanup?
    requires !m.c.cleanupFails
    ensures Leads(road, job, m)
  {
    CleanupIsJudged(m.cfg, m.pc.stop.st, m.c.error, m.c.now);
  }

  lemma CleanLaterLeads(road: Road, job: Job, m: Turn)
    requires Shape(job, m.pc) && m.pc.AtStop? && m.pc.stop.StopCleanup?
    requires m.c.cleanupFails
    requires MayRetryCleanup(m.cfg, m.pc.stop.st, m.c.error)
    ensures Leads(road, job, m)
  {
    CleanupIsJudged(m.cfg, m.pc.stop.st, m.c.error, m.c.now);
  }

  lemma GiveUpLeads(road: Road, job: Job, m: Turn)
    requires Shape(job, m.pc) && m.pc.AtStop? && m.pc.stop.StopCleanup?
    requires m.c.cleanupFails
    requires !MayRetryCleanup(m.cfg, m.pc.stop.st, m.c.error)
    ensures Leads(road, job, m)
  {
    CleanupIsJudged(m.cfg, m.pc.stop.st, m.c.error, m.c.now);
  }

  lemma FinishLeads(road: Road, job: Job, m: Turn)
    requires Shape(job, m.pc) && m.pc.AtStop? && m.pc.stop.StopSettle? && !Another(m.pc.stop.st, job)
    ensures Leads(road, job, m)
  {
  }

  lemma RequeueLeads(road: Road, job: Job, m: Turn)
    requires Shape(job, m.pc) && m.pc.AtStop? && m.pc.stop.StopSettle? && Another(m.pc.stop.st, job) && MayBeQueued(m, m.pc.stop.st)
    ensures Leads(road, job, m)
  {
  }

  lemma InspectLeads(road: Road, job: Job, m: Turn)
    requires Shape(job, m.pc) && m.pc.AtStop? && m.pc.stop.StopSettle? && Another(m.pc.stop.st, job) && !MayBeQueued(m, m.pc.stop.st)
    ensures Leads(road, job, m)
  {
    var next := After(m);
    assert next.Write? && next.site.StopInspect? && Head(next.fail) == Done;
    assert next.ok.Write? && next.ok.site.StopMismatchDone? && Ends(next.ok.ok, next.ok.fail);
  }

  lemma TurnLeads(road: Road, job: Job, m: Turn)
    requires TakesTurn(m.pc) && Shape(job, m.pc)
    ensures Leads(road, job, m)
  {
    if m.pc.Write? {
      WriteLeads(road, job, m);
    } else {
      match m.pc.stop
      case StopRead(_, _) =>
        if m.read.None? || !Concerns(m.read.value, job) { AbsentLeads(road, job, m); }
        else if m.read.value.status.Completed? { RecordLeads(road, job, m); }
        else { BeginLeads(road, job, m); }
      case StopSandbox(st, _) =>
        if st.sandbox == "" || !m.c.stopFails { SandboxGoneLeads(road, job, m); }
        else if m.c.error.Permanent? || st.retryCount >= m.cfg.retryMax { SandboxLostLeads(road, job, m); }
        else { SandboxRetriedLeads(road, job, m); }
      case StopCleanup(st, _) =>
        if !m.c.cleanupFails { CleanLeads(road, job, m); }
        else if MayRetryCleanup(m.cfg, st, m.c.error) { CleanLaterLeads(road, job, m); }
        else { GiveUpLeads(road, job, m); }
      case StopSettle(st, _) =>
        if !Another(st, job) { FinishLeads(road, job, m); }
        else if MayBeQueued(m, st) { RequeueLeads(road, job, m); }
        else { InspectLeads(road, job, m); }
    }
  }

  lemma ChainGoes(road: Road, job: Job, tr: seq<Turn>, last: PC)
    requires Chained(AtStop(StopRead(job, false)), tr, last)
    ensures Took(tr, last, (h: PC) => OnRoad(road, h)) <==> Happened(tr, (m: Turn) => Causes(road, job, m))
  {
    var fact := (m: Turn) => true;
    var shape := (h: PC) => Shape(job, h);
    var cause := (m: Turn) => Causes(road, job, m);
    var on := (h: PC) => OnRoad(road, h);
    forall m: Turn | TakesTurn(m.pc) && fact(m) && shape(m.pc)
      ensures shape(After(m)) && (cause(m) ==> on(After(m))) && (on(After(m)) ==> cause(m) || on(m.pc))
    {
      TurnLeads(road, job, m);
    }
    ChainTakes(AtStop(StopRead(job, false)), tr, last, fact, shape, cause, on);
  }

  // ---- What a stop writes -----------------------------------------------------------------

  /** Stopping the sandbox failed in some turn, and the row is judged by that. */
  ghost predicate StopWentWrong(cfg: Config, tr: seq<Turn>, before: Row, after: Row) {
    exists n :: n in tr && n.pc.AtStop? && n.c.stopFails && StopJudged(cfg, before, n.c.error, n.c.now, after)
  }

  ghost predicate CleanupWentWrong(cfg: Config, tr: seq<Turn>, before: Row, after: Row) {
    exists n :: n in tr && n.pc.AtStop? && n.c.cleanupFails && MayRetryCleanup(cfg, before, n.c.error) && CleanupRetried(cfg, before, n.c.now, after)
  }

  /** A stop that went through fails its request exactly if an earlier stage had. */
  predicate Closed(before: Row, after: Row) {
    && (if before.failureStage in ["", "cleanup"] then after.status.Completed? && after.failureStage == ""
        else after.status.Failed? && after.failureStage == before.failureStage)
    && after.nextRetryAt == 0 && !after.errorRetryable
    && after.assignedId == before.assignedId && after.sandbox == before.sandbox && after.retryCount == before.retryCount
  }

  ghost predicate KnowsWrite(cfg: Config, job: Job, r: Row, site: Site, base: Row, row: Row, ok: PC, fail: PC, tr: seq<Turn>) {
    match site
    case StopRecord => base == r && row == Assigned(r, job) && r.status.Completed? && Ends(ok, fail)
    case StopBegin =>
      && base == r && row == Assigned(r, job).(status := Stopping) && !r.status.Completed?
      && Head(ok) == AtStop(StopSandbox(Begun(r, job), job)) && Head(fail) == Done
    case StopRetry => base == Begun(r, job) && row.status.Stopping? && StopWentWrong(cfg, tr, base, row) && Ends(ok, fail)
    case StopFailed => base == Begun(r, job) && row.status.Failed? && StopWentWrong(cfg, tr, base, row) && Ends(ok, fail)
    case StopCleanupRetry(_) => base == Begun(r, job) && CleanupWentWrong(cfg, tr, base, row) && Ends(ok, fail)
    case StopCleanupFailed => base == Begun(r, job) && row == base.(status := Failed, failureStage := "cleanup") && Ends(ok, fail)
    case StopRequeue => base == Begun(r, job) && Another(r, job) && StartedOver(base, row) && Ends(ok, fail)
    case StopInspect =>
      && base == Begun(r, job) && Another(r, job) && Looked(base, row) && Head(fail) == Done
      && Head(ok).Write? && Head(ok).site.StopMismatchDone? && Looked(base.(version := base.version + 1), Head(ok).base)
      && Head(ok).row.status.Completed? && Head(ok).row.failureStage == "" && Ends(Head(ok).ok, Head(ok).fail)
    case StopMismatchDone => Another(r, job) && row.status.Completed? && base.assignedId == 0 && row.failureStage == "" && Ends(ok, fail)
    case StopDone => base == Begun(r, job) && !Another(r, job) && Closed(base, row) && Ends(ok, fail)
    case _ => false
  }

  /** Everything a stop does is for the row it read in its first turn. */
  ghost predicate Knows(cfg: Config, job: Job, h: PC, tr: seq<Turn>) {
    if tr == [] then h == AtStop(StopRead(job, false))
    else if tr[0].read.None? || !Concerns(tr[0].read.value, job) then h == Done
    else
      var r := tr[0].read.value;
      match h
      case Done => true
      case AtStop(p) => !p.StopRead? && p.st == Begun(r, job) && p.job == job
      case Write(site, base, row, ok, fail) => KnowsWrite(cfg, job, r, site, base, row, ok, fail, tr)
      case _ => false
  }

  lemma FirstReads(cfg: Config, job: Job, m: Turn)
    requires m.pc == AtStop(StopRead(job, false))
    ensures Knows(cfg, job, After(m), [m])
  {
  }

  lemma WriteHandsOn(cfg: Config, job: Job, m: Turn, tr: seq<Turn>)
    requires m.pc.Write? && tr != [] && Knows(cfg, job, m.pc, tr)
    ensures Knows(cfg, job, After(m), tr + [m])
  {
  }

  lemma SandboxHandsOn(cfg: Config, job: Job, m: Turn, tr: seq<Turn>)
    requires m.pc.AtStop? && m.pc.stop.StopSandbox? && m.cfg == cfg && tr != [] && Knows(cfg, job, m.pc, tr)
    ensures Knows(cfg, job, After(m), tr + [m])
  {
    StopIsJudged(cfg, m.pc.stop.st, m.c.error, m.c.now);
    assert m in tr + [m];
  }

  lemma CleanupHandsOn(cfg: Config, job: Job, m: Turn, tr: seq<Turn>)
    requires m.pc.AtStop? && m.pc.stop.StopCleanup? && m.cfg == cfg && tr != [] && Knows(cfg, job, m.pc, tr)
    ensures Knows(cfg, job, After(m), tr + [m])
  {
    CleanupIsJudged(cfg, m.pc.stop.st, m.c.error, m.c.now);
    assert m in tr + [m];
  }

  lemma FinishHandsOn(cfg: Config, job: Job, m: Turn, tr: seq<Turn>)
    requires m.pc.AtStop? && m.pc.stop.StopSettle? && m.cfg == cfg && tr != [] && Knows(cfg, job, m.pc, tr)
    requires !Another(m.pc.stop.st, job)
    ensures Knows(cfg, job, After(m), tr + [m])
  {
  }

  lemma RequeueHandsOn(cfg: Config, job: Job, m: Turn, tr: seq<Turn>)
    requires m.pc.AtStop? && m.pc.stop.StopSettle? && m.cfg == cfg && tr != [] && Knows(cfg, job, m.pc, tr)
    requires Another(m.pc.stop.st, job) && MayBeQueued(m, m.pc.stop.st)
    ensures Knows(cfg, job, After(m), tr + [m])
  {
  }

  lemma InspectHandsOn(cfg: Config, job: Job, m: Turn, tr: seq<Turn>)
    requires m.pc.AtStop? && m.pc.stop.StopSettle? && m.cfg == cfg && tr != [] && Knows(cfg, job, m.pc, tr)
    requires Another(m.pc.stop.st, job) && !MayBeQueued(m, m.pc.stop.st)
    ensures Knows(cfg, job, After(m), tr + [m])
  {
  }

  lemma TurnHandsOn(cfg: Config, job: Job, m: Turn, tr: seq<Turn>)
    requires TakesTurn(m.pc) && m.cfg == cfg && Knows(cfg, job, m.pc, tr)
    ensures Knows(cfg, job, After(m), tr + [m])
  {
    if tr == [] {
      FirstReads(cfg, job, m);
      assert tr + [m] == [m];
    } else if m.pc.Write? {
      WriteHandsOn(cfg, job, m, tr);
    } else {
      match m.pc.stop
      case StopSandbox(_, _) => SandboxHandsOn(cfg, job, m, tr);
      case StopCleanup(_, _) => CleanupHandsOn(cfg, job, m, tr);
      case StopSettle(st, _) =>
        if !Another(st, job) { FinishHandsOn(cfg, job, m, tr); }
        else if MayBeQueued(m, st) { RequeueHandsOn(cfg, job, m, tr); }
        else { InspectHandsOn(cfg, job, m, tr); }
    }
  }

  lemma ChainKnows(cfg: Config, job: Job, tr: seq<Turn>, last: PC)
    requires Chained(AtStop(StopRead(job, false)), tr, last) && forall m :: m in tr ==> m.cfg == cfg
    ensures Knows(cfg, job, last, tr)
  {
    var fact := (m: Turn) => m.cfg == cfg;
    var knows := (h: PC, before: seq<Turn>) => Knows(cfg, job, h, before);
    forall m: Turn, before: seq<Turn> | TakesTurn(m.pc) && fact(m) && knows(m.pc, before) ensures knows(After(m), before + [m]) {
      TurnHandsOn(cfg, job, m, before);
    }
    assert knows(AtStop(StopRead(job, false)), []);
    ChainKeeps(AtStop(StopRead(job, false)), tr, last, fact, knows, []);
    assert [] + tr == tr;
  }

  lemma KnowsAt(cfg: Config, job: Job, tr: seq<Turn>, last: PC, k: nat)
    requires Chained(AtStop(StopRead(job, false)), tr, last) && (forall m :: m in tr ==> m.cfg == cfg) && k < |tr|
    ensures TakesTurn(tr[k].pc) && Knows(cfg, job, tr[k].pc, tr[..k])
  {
    ChainUpTo(AtStop(StopRead(job, false)), tr, last, k);
    forall m | m in tr[..k] ensures m.cfg == cfg { assert m in tr; }
    ChainKnows(cfg, job, tr[..k], tr[k].pc);
  }

  // ---- Over runs -----------------------------------------------------------------------------

  /** Whatever else runs, a stop goes each of its ways exactly when it was given the answer for it. */
  lemma StopsGoAsAnswered(w: World, t: nat, id: string, job: Job, es: seq<Event>, road: Road)
    requires t !in w.threads && id in w.rows
    ensures
      var w' := Step(w, Call(t, id, StopRequested(job)));
      && t in w'.threads
      && (Took(TurnsIn(w', es, t), HeadNow(w', es, t), (h: PC) => OnRoad(road, h)) <==>
          Happened(TurnsIn(w', es, t), (m: Turn) => Causes(road, job, m)))
  {
    var last := CallIsChained(w, t, id, StopRequested(job), es);
    ChainGoes(road, job, TurnsOf(w, t, id, StopRequested(job), es), last);
  }

  /** Every write of a stop is made of the row it read first and the answers it was given. */
  lemma StopsWriteAsAnswered(w: World, t: nat, id: string, job: Job, es: seq<Event>, k: nat)
    requires t !in w.threads && id in w.rows && k < |TurnsOf(w, t, id, StopRequested(job), es)|
    ensures var tr := TurnsOf(w, t, id, StopRequested(job), es); Knows(w.cfg, job, tr[k].pc, tr[..k])
  {
    var last := CallIsChained(w, t, id, StopRequested(job), es);
    KnowsAt(w.cfg, job, TurnsOf(w, t, id, StopRequested(job), es), last, k);
  }

  lemma WritesOnlyConcerned(cfg: Config, job: Job, h: PC, tr: seq<Turn>)
    requires Knows(cfg, job, h, tr) && h.Write?
    ensures tr != [] && tr[0].read.Some? && Concerns(tr[0].read.value, job)
    ensures h.base.assignedId in [0, job.id, tr[0].read.value.assignedId]
  {
  }

  /** A finished job stops no runner that is at work on another one: unless it names
      the runner, nothing is ever written over an assignment to another job, nor
      for a runner that accepted a job unseen when the finished job is the one its
      request was made for. */
  lemma OnlyItsOwnJobStopsARunner(w: World, t: nat, id: string, job: Job, es: seq<Event>, k: nat)
    requires Inv(w) && t !in w.threads && id in w.rows && job.id != 0
    requires k < |TurnsOf(w, t, id, StopRequested(job), es)|
    ensures
      var tr := TurnsOf(w, t, id, StopRequested(job), es);
      tr[k].pc.Write? ==>
        && tr[0].read.Some?
        && var r := tr[0].read.value;
        !NamesRunner(r, job) ==>
          && r.assignedId in [0, job.id]
          && !(r.assignedId == 0 && r.assignedName == RUNNER_JOB_STARTED && r.req.jobId == job.id)
          && (!tr[k].refused ==> tr[k].id == id && id in tr[k].rows && tr[k].rows[id].assignedId in [0, job.id])
  {
    var tr := TurnsOf(w, t, id, StopRequested(job), es);
    var last := CallIsChained(w, t, id, StopRequested(job), es);
    CallIsFaithful(w, t, id, StopRequested(job), es);
    ConcernedOnChain(w.cfg, id, w.rows[id].req.jobId, job, tr, last, k);
  }

  lemma ConcernedOnChain(cfg: Config, id: string, own: int, job: Job, tr: seq<Turn>, last: PC, k: nat)
    requires Chained(AtStop(StopRead(job, false)), tr, last) && k < |tr| && job.id != 0
    requires forall m :: m in tr ==> About(m, cfg, id, own) && Faithful(m)
    ensures tr[k].pc.Write? ==>
              && tr[0].read.Some?
              && var r := tr[0].read.value;
              !NamesRunner(r, job) ==>
                && r.assignedId in [0, job.id]
                && !(r.assignedId == 0 && r.assignedName == RUNNER_JOB_STARTED && r.req.jobId == job.id)
                && (!tr[k].refused ==> tr[k].id == id && id in tr[k].rows && tr[k].rows[id].assignedId in [0, job.id])
  {
    var m := tr[k];
    assert m in tr && About(m, cfg, id, own) && Faithful(m);
    forall n | n in tr ensures n.cfg == cfg { assert About(n, cfg, id, own); }
    KnowsAt(cfg, job, tr, last, k);
    if m.pc.Write? {
      WritesOnlyConcerned(cfg, job, m.pc, tr[..k]);
      assert tr[..k][0] == tr[0];
      assert !m.refused ==> m.rows[m.id].assignedId == m.pc.base.assignedId;
    }
  }

  /** And it does stop its own: a request that can be read, is not completed and is
      known to have run the job, or has no job to run it for, is taken to stopping. */
  lemma ItsOwnJobStopsARunner(w: World, t: nat, id: string, job: Job, es: seq<Event>)
    requires t !in w.threads && id in w.rows
    ensures
      var w' := Step(w, Call(t, id, StopRequested(job)));
      var tr := TurnsIn(w', es, t);
      && t in w'.threads
      && (tr != [] && tr[0].read.Some? ==>
          var r := tr[0].read.value;
          !r.status.Completed? && (job.id == 0 || NamesRunner(r, job) || r.assignedId == job.id || (r.assignedId == 0 && r.assignedName != RUNNER_JOB_STARTED)) ==>
            Took(tr, HeadNow(w', es, t), (h: PC) => h.Write? && h.site.StopBegin?))
  {
    var tr := TurnsOf(w, t, id, StopRequested(job), es);
    var last := CallIsChained(w, t, id, StopRequested(job), es);
    ChainGoes(Begins, job, tr, last);
    if tr != [] && Causes(Begins, job, tr[0]) { TookSame(tr, last); }
  }

  lemma TookSame(tr: seq<Turn>, last: PC)
    requires Took(tr, last, (h: PC) => OnRoad(Begins, h))
    ensures Took(tr, last, (h: PC) => h.Write? && h.site.StopBegin?)
  {
  }

  /** The row a stop's last write leaves if no write is refused. */
  function LastRow(h: PC): Row
    requires h.Write?
  {
    if h.site.StopInspect? && h.ok.Write? then h.ok.row else h.row
  }

  /** A stop whose runner and sandbox are gone ends its request exactly so: queued
      again if another job ran and its own may still be queued, failed if an earlier
      stage had failed it, completed otherwise; all told by the row read at first. */
  lemma StopsEnd(w: World, t: nat, id: string, job: Job, es: seq<Event>, k: nat)
    requires t !in w.threads && id in w.rows && k < |TurnsOf(w, t, id, StopRequested(job), es)|
    requires
      var m := TurnsOf(w, t, id, StopRequested(job), es)[k];
      m.pc.AtStop? && m.pc.stop.StopSettle?
    ensures
      var tr := TurnsOf(w, t, id, StopRequested(job), es);
      && tr[0].read.Some? && After(tr[k]).Write?
      && var r, last := tr[0].read.value, LastRow(After(tr[k]));
      && (last.status.Queued? <==> Another(r, job) && MayBeQueued(tr[k], r))
      && (last.status.Failed? <==> !Another(r, job) && r.failureStage !in ["", "cleanup"])
      && (last.status.Completed? <==> !last.status.Queued? && !last.status.Failed?)
  {
    var tr := TurnsOf(w, t, id, StopRequested(job), es);
    var last := CallIsChained(w, t, id, StopRequested(job), es);
    KnowsAt(w.cfg, job, tr, last, k);
    assert tr[..k] != [] && tr[..k][0] == tr[0];
    TurnHandsOn(w.cfg, job, tr[k], tr[..k]);
    SettleEnds(w.cfg, job, tr[0].read.value, tr[k]);
  }

  lemma SettleEnds(cfg: Config, job: Job, r: Row, m: Turn)
    requires m.pc.AtStop? && m.pc.stop.StopSettle? && m.pc.stop.st == Begun(r, job) && m.pc.stop.job == job
    ensures After(m).Write?
    ensures
      var last := LastRow(After(m));
      && (last.status.Queued? <==> Another(r, job) && MayBeQueued(m, r))
      && (last.status.Failed? <==> !Another(r, job) && r.failureStage !in ["", "cleanup"])
      && (last.status.Completed? <==> !last.status.Queued? && !last.status.Failed?)
  {
  }
}
