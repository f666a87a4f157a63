/** How a start call ends, and why: each way it can go, against the answers it was
    given on the way. */
module RunnerStarts {
  import opened RunnerRows
  import opened RunnerCalls
  import opened RunnerMachine
  import opened RunnerInvariant
  import opened RunnerFailures
  import opened RunnerTurns

  /** The ways a start call can go. */
  datatype Road = Creates | Defers | Skips | Fails | Prepares | Holds | CleansUp

  predicate Cleaning(h: PC) {
    h.AtStart? && h.start.StartCleanup?
  }

  /** The call has been given a sandbox. */
  predicate Holding(h: PC) {
    (h.AtStart? && h.start.StartRecheck?) || (h.Write? && h.site.StartRunning?) || Cleaning(h)
  }

  predicate Preparing(h: PC) {
    (h.AtStart? && (h.start.StartConfig? || h.start.StartSnapshot? || h.start.StartSandbox?)) ||
    (h.Write? && h.site.ConfigSnapshot?) || Holding(h)
  }

  predicate OnRoad(road: Road, h: PC) {
    match road
    case Creates => h.Write? && h.site.StartCreating?
    case Defers => (h.AtSettle? && h.settle.DeferRead?) || (h.Write? && h.site.DeferQueued?)
    case Skips => (h.AtSettle? && h.settle.SkipRead?) || (h.Write? && h.site.SkipStart?)
    case Fails => (h.AtSettle? && h.settle.FailRead?) || (h.Write? && (h.site.FailStart? || h.site.FailStale?))
    case Prepares => Preparing(h)
    case Holds => Holding(h)
    case CleansUp => Cleaning(h)
  }

  /** The call counts and finds the server or the profile full, or finds room. */
  predicate FindsNoRoom(m: Turn)
  {
    m.pc.AtStart? &&
    match m.pc.start
    case StartCount(_, _) => !m.c.fault && |InFlightIds(m.rows)| >= m.cfg.maxRunners
    case StartCountProfile(st, limit) => limit > 0 && !m.c.fault && |ProfileInFlightIds(m.rows, st.req.profile)| >= limit
    case _ => false
  }

  predicate FindsRoom(m: Turn)
  {
    m.pc.AtStart? &&
    match m.pc.start
    case StartCount(st, _) => st.req.profile == "" && !m.c.fault && |InFlightIds(m.rows)| < m.cfg.maxRunners
    case StartCountProfile(st, limit) => limit <= 0 || (!m.c.fault && |ProfileInFlightIds(m.rows, st.req.profile)| < limit)
    case _ => false
  }

  /** The call asks GitHub about the workflow job, unless the request has none. */
  predicate AsksForJob(m: Turn)
  {
    m.pc.AtStart? && m.pc.start.StartJob?
  }

  /** A step of the preparation goes wrong. */
  predicate GoesWrong(job: int, m: Turn)
  {
    || (m.pc.Write? && m.pc.site.ConfigSnapshot? && m.refused)
    || (m.pc.AtStart? &&
        match m.pc.start
        case StartProfile(st) => m.c.fault || st.req.profile !in m.profiles
        case StartJob(_) => job != 0 && m.c.fault
        case StartConfig(_) => m.c.fault
        case StartSnapshot(_, _) => m.c.fault
        case StartSandbox(_) => m.c.fault
        case _ => false)
  }

  /** The sandbox cannot be recorded: the request has moved on or its row cannot be had. */
  predicate ComesTooLate(m: Turn)
  {
    || (m.pc.Write? && m.pc.site.StartRunning? && m.refused)
    || (m.pc.AtStart? && m.pc.start.StartRecheck? && !(m.read.Some? && m.read.value.status.Creating?))
  }

  /** What puts a start call on a road, for a request with workflow job `job`. */
  predicate Causes(road: Road, job: int, m: Turn) {
    match road
    case Creates => FindsRoom(m)
    case Defers => FindsNoRoom(m)
    case Skips => AsksForJob(m) && job != 0 && !m.c.fault && !m.c.job.status.JobQueued?
    case Fails => GoesWrong(job, m)
    case Prepares => AsksForJob(m) && (job == 0 || (!m.c.fault && m.c.job.status.JobQueued?))
    case Holds => m.pc.AtStart? && m.pc.start.StartSandbox? && !m.c.fault
    case CleansUp => ComesTooLate(m)
  }

  /** The heads of a start call for a request with workflow job `job`. */
  predicate Shape(job: int, h: PC) {
    match h
    case Done => true
    case AtStart(p) => StartSnapshotOf(p).Some? ==> StartSnapshotOf(p).value.req.jobId == job
    case AtSettle(p) => p.FailRead? || p.DeferRead? || p.SkipRead?
    case Write(site, base, row, ok, fail) =>
      (match site
       case StartCreating => Head(ok).AtStart? && Head(ok).start.StartJob? && Head(ok).start.st.req.jobId == job && Head(fail) == Done
       case ConfigSnapshot =>
         && Head(ok).AtStart? && Head(ok).start.StartSandbox? && Head(ok).start.st.req.jobId == job
         && Head(fail).AtSettle? && Head(fail).settle.FailRead?
       case StartRunning => Head(ok) == Done && Head(fail).AtStart? && Head(fail).start.StartCleanup?
       case DeferQueued => Head(ok) == Head(fail) == Done
       case SkipStart => Head(ok) == Head(fail) == Done
       case FailStart(_) => Head(ok) == Head(fail) == Done
       case FailStale(_) => Head(ok) == Head(fail) == Done
       case _ => false)
    case _ => false
  }

  predicate Leads(road: Road, job: int, m: Turn)
    requires TakesTurn(m.pc)
  {
    && Shape(job, After(m))
    && (Causes(road, job, m) ==> OnRoad(road, After(m)))
    && (OnRoad(road, After(m)) ==> Causes(road, job, m) || OnRoad(road, m.pc))
  }

  lemma WriteLeads(road: Road, cfg: Config, id: string, job: int, m: Turn)
    requires About(m, cfg, id, job) && Shape(job, m.pc) && m.pc.Write?
    ensures Leads(road, job, m)
  {
  }

  lemma FailLeads(road: Road, cfg: Config, id: string, job: int, m: Turn)
    requires About(m, cfg, id, job) && m.pc.AtSettle? && m.pc.settle.FailRead?
    ensures Leads(road, job, m)
  {
  }

  lemma DeferLeads(road: Road, cfg: Config, id: string, job: int, m: Turn)
    requires About(m, cfg, id, job) && m.pc.AtSettle? && m.pc.settle.DeferRead?
    ensures Leads(road, job, m)
  {
  }

  lemma SkipLeads(road: Road, cfg: Config, id: string, job: int, m: Turn)
    requires About(m, cfg, id, job) && m.pc.AtSettle? && m.pc.settle.SkipRead?
    ensures Leads(road, job, m)
  {
    var next := After(m);
    assert next == Done || (next.Write? && next.site.SkipStart? && Head(next.ok) == Head(next.fail) == Done);
  }

  lemma FailWithHead(st: Row, source: string, stage: string, error: ErrorClass)
    ensures Head(FailWith(st, source, stage, error)) == AtSettle(FailRead(st, source, stage, error))
    ensures Head(UnlockRunner(FailWith(st, source, stage, error))) == AtSettle(FailRead(st, source, stage, error))
  {
    Wrapped(AtSettle(FailRead(st, source, stage, error)));
  }

  /** What a decision makes of a start call. */
  lemma DecisionHeads(cfg: Config, st: Row, now: Clock)
    ensures Head(Defer(now)) == AtSettle(DeferRead(now + 5_000_000_000))
    ensures
      var pc := BeginCreating(cfg, st, now);
      pc.Write? && pc.site.StartCreating? && Head(pc) == pc && Head(pc.fail) == Done
      && Head(pc.ok).AtStart? && Head(pc.ok).start.StartJob? && Head(pc.ok).start.st.req == st.req
  {
    var at := AtSettle(DeferRead(now + 5_000_000_000));
    Wrapped(LockRunner(at));
    assert Head(LockRunner(at)) == at;
    var pc := BeginCreating(cfg, st, now);
    Wrapped(pc.ok.next.next);
    Wrapped(ReleaseLease(Done));
    assert Head(ReleaseLease(Done)) == Done;
  }

  lemma CountGoes(m: Turn)
    requires m.pc.AtStart? && m.pc.start.StartCount?
    ensures
      var StartCount(st, limit) := m.pc.start;
      if m.c.fault then After(m) == Done
      else if FindsNoRoom(m) then After(m) == AtSettle(DeferRead(m.c.now + 5_000_000_000))
      else if st.req.profile == "" then After(m) == BeginCreating(m.cfg, st, m.c.now)
      else After(m) == AtStart(StartCountProfile(st, limit))
  {
    DecisionHeads(m.cfg, m.pc.start.st, m.c.now);
    Wrapped(ReleaseLease(Done));
  }

  lemma RoomLeads(road: Road, cfg: Config, id: string, job: int, m: Turn)
    requires About(m, cfg, id, job) && Shape(job, m.pc) && FindsRoom(m)
    requires After(m) == BeginCreating(m.cfg, m.pc.start.st, m.c.now)
    ensures Leads(road, job, m)
  {
    DecisionHeads(m.cfg, m.pc.start.st, m.c.now);
  }

  lemma CountLeads(road: Road, cfg: Config, id: string, job: int, m: Turn)
    requires About(m, cfg, id, job) && Shape(job, m.pc) && m.pc.AtStart? && m.pc.start.StartCount?
    ensures Leads(road, job, m)
  {
    CountGoes(m);
    if FindsRoom(m) { RoomLeads(road, cfg, id, job, m); }
  }

  lemma ProfileCountGoes(m: Turn)
    requires m.pc.AtStart? && m.pc.start.StartCountProfile?
    ensures
      if FindsRoom(m) then After(m) == BeginCreating(m.cfg, m.pc.start.st, m.c.now)
      else if m.c.fault then After(m) == Done
      else FindsNoRoom(m) && After(m) == AtSettle(DeferRead(m.c.now + 5_000_000_000))
  {
    DecisionHeads(m.cfg, m.pc.start.st, m.c.now);
    Wrapped(ReleaseLease(Done));
  }

  lemma ProfileCountLeads(road: Road, cfg: Config, id: string, job: int, m: Turn)
    requires About(m, cfg, id, job) && Shape(job, m.pc) && m.pc.AtStart? && m.pc.start.StartCountProfile?
    ensures Leads(road, job, m)
  {
    ProfileCountGoes(m);
    if FindsRoom(m) { RoomLeads(road, cfg, id, job, m); }
  }

  lemma ReadLeads(road: Road, cfg: Config, id: string, job: int, m: Turn)
    requires About(m, cfg, id, job) && Shape(job, m.pc) && m.pc.AtStart?
    requires m.pc.start.StartRead?
    ensures Leads(road, job, m)
  {
    Wrapped(Done);
  }

  lemma ProfileLeads(road: Road, cfg: Config, id: string, job: int, m: Turn)
    requires About(m, cfg, id, job) && Shape(job, m.pc) && m.pc.AtStart?
    requires m.pc.start.StartProfile?
    ensures Leads(road, job, m)
  {
    FailWithHead(m.pc.start.st, m.pc.start.st.configSource, "profile_lookup", m.c.error);
  }

  lemma PreparationLeads(road: Road, cfg: Config, id: string, job: int, m: Turn)
    requires About(m, cfg, id, job) && Shape(job, m.pc) && m.pc.AtStart?
    requires m.pc.start.StartJob? || m.pc.start.StartConfig? || m.pc.start.StartSandbox?
    ensures Leads(road, job, m)
  {
    var p := m.pc.start;
    FailWithHead(p.st, p.st.configSource, if p.StartJob? then "github_job_status" else if p.StartConfig? then "sandbox_config" else m.c.stage, m.c.error);
  }

  lemma SnapshotLeads(road: Road, cfg: Config, id: string, job: int, m: Turn)
    requires About(m, cfg, id, job) && Shape(job, m.pc) && m.pc.AtStart?
    requires m.pc.start.StartSnapshot?
    ensures Leads(road, job, m)
  {
    var p := m.pc.start;
    if m.read.Some? { FailWithHead(m.read.value, p.source, "sandbox_config", m.c.error); }
    else { FailWithHead(p.st, p.st.configSource, "sandbox_config", m.c.error); }
  }

  lemma PlacingLeads(road: Road, cfg: Config, id: string, job: int, m: Turn)
    requires About(m, cfg, id, job) && Shape(job, m.pc) && m.pc.AtStart?
    requires m.pc.start.StartRecheck? || m.pc.start.StartCleanup?
    ensures Leads(road, job, m)
  {
  }

  lemma TurnLeads(road: Road, cfg: Config, id: string, job: int, m: Turn)
    requires TakesTurn(m.pc) && About(m, cfg, id, job) && Shape(job, m.pc)
    ensures Leads(road, job, m)
  {
    if m.pc.Write? {
      WriteLeads(road, cfg, id, job, m);
    } else if m.pc.AtSettle? && m.pc.settle.FailRead? {
      FailLeads(road, cfg, id, job, m);
    } else if m.pc.AtSettle? && m.pc.settle.DeferRead? {
      DeferLeads(road, cfg, id, job, m);
    } else if m.pc.AtSettle? {
      SkipLeads(road, cfg, id, job, m);
    } else {
      match m.pc.start
      case StartRead => ReadLeads(road, cfg, id, job, m);
      case StartProfile(_) => ProfileLeads(road, cfg, id, job, m);
      case StartCount(_, _) => CountLeads(road, cfg, id, job, m);
      case StartCountProfile(_, _) => ProfileCountLeads(road, cfg, id, job, m);
      case StartSnapshot(_, _) => SnapshotLeads(road, cfg, id, job, m);
      case StartRecheck(_, _) => PlacingLeads(road, cfg, id, job, m);
      case StartCleanup(_, _) => PlacingLeads(road, cfg, id, job, m);
      case _ => PreparationLeads(road, cfg, id, job, m);
    }
  }

  /** From the first head to any later one of a start call's chain. */
  lemma ChainGoes(road: Road, cfg: Config, id: string, job: int, tr: seq<Turn>, last: PC)
    requires Chained(AtStart(StartRead), tr, last) && forall m :: m in tr ==> About(m, cfg, id, job)
    ensures Took(tr, last, (h: PC) => OnRoad(road, h)) <==> Happened(tr, (m: Turn) => Causes(road, job, m))
  {
    var fact := (m: Turn) => About(m, cfg, id, job);
    var shape := (h: PC) => Shape(job, h);
    var cause := (m: Turn) => Causes(road, job, m);
    var on := (h: PC) => OnRoad(road, h);
    forall m: Turn | TakesTurn(m.pc) && fact(m) && shape(m.pc)
      ensures shape(After(m)) && (cause(m) ==> on(After(m))) && (on(After(m)) ==> cause(m) || on(m.pc))
    {
      TurnLeads(road, cfg, id, job, m);
    }
    ChainTakes(AtStart(StartRead), tr, last, fact, shape, cause, on);
  }

  /** Whatever else runs, a start call goes each of its ways exactly when it was
      given the answer for it. */
  lemma StartsGoAsAnswered(w: World, t: nat, id: string, now: Clock, es: seq<Event>, road: Road)
    requires t !in w.threads && NextRunnable(w.rows, id, now)
    ensures
      var w' := Step(w, Claim(t, id, now));
      && t in w'.threads
      && (Took(TurnsIn(w', es, t), HeadNow(w', es, t), (h: PC) => OnRoad(road, h)) <==>
          Happened(TurnsIn(w', es, t), (m: Turn) => Causes(road, w.rows[id].req.jobId, m)))
  {
    var last := StartIsChained(w, t, id, now, es);
    ChainGoes(road, w.cfg, id, w.rows[id].req.jobId, TurnsOfStart(w, t, id, now, es), last);
  }

  /** GitHub said, before turn `k`, that the workflow job is still queued, or is not. */
  predicate Answered(tr: seq<Turn>, k: nat, queued: bool)
    requires k <= |tr|
  {
    exists j :: 0 <= j < k && AsksForJob(tr[j]) && !tr[j].c.fault && tr[j].c.job.status.JobQueued? == queued
  }

  predicate GivenSandbox(m: Turn) {
    m.pc.AtStart? && m.pc.start.StartSandbox? && !m.c.fault
  }

  lemma CauseBefore(road: Road, cfg: Config, id: string, job: int, tr: seq<Turn>, last: PC, k: nat) returns (j: nat)
    requires Chained(AtStart(StartRead), tr, last) && (forall m :: m in tr ==> About(m, cfg, id, job))
    requires k < |tr| && OnRoad(road, tr[k].pc)
    ensures j < k && Causes(road, job, tr[j])
  {
    ChainUpTo(AtStart(StartRead), tr, last, k);
    ChainGoes(road, cfg, id, job, tr[..k], tr[k].pc);
    j :| 0 <= j < k && Causes(road, job, tr[..k][j]);
  }

  // ---- What a start call writes ------------------------------------------------------------

  /** The failure a turn gives rise to. */
  predicate Blames(m: Turn, stage: string, error: ErrorClass) {
    m.pc.AtStart? && error == m.c.error &&
    match m.pc.start
    case StartProfile(_) => stage == "profile_lookup"
    case StartJob(_) => stage == "github_job_status"
    case StartConfig(_) => stage == "sandbox_config"
    case StartSnapshot(_, _) => stage == "sandbox_config"
    case StartSandbox(_) => stage == m.c.stage
    case _ => false
  }

  ghost predicate Blamed(tr: seq<Turn>, stage: string, error: ErrorClass) {
    exists m :: m in tr && Blames(m, stage, error)
  }

  ghost predicate Handed(tr: seq<Turn>, sandbox: string, pid: nat) {
    exists m :: m in tr && GivenSandbox(m) && m.c.sandbox == sandbox && m.c.pid == pid
  }

  ghost predicate PutOff(tr: seq<Turn>, at: Time) {
    exists m :: m in tr && FindsNoRoom(m) && at == m.c.now + 5_000_000_000
  }

  ghost predicate Told(tr: seq<Turn>, job: Job) {
    exists m :: m in tr && AsksForJob(m) && m.c.job == job
  }

  /** Some earlier turn failed, and the row is judged by that. */
  ghost predicate JudgedBy(cfg: Config, tr: seq<Turn>, before: Row, after: Row) {
    exists m, n :: m in tr && n in tr && Blames(m, after.failureStage, m.c.error) &&
                   Judged(cfg, before, after.failureStage, m.c.error, n.c.now, after)
  }

  ghost predicate SkippedBy(tr: seq<Turn>, before: Row, after: Row) {
    exists m :: m in tr && AsksForJob(m) && Skipped(before, m.c.job, after)
  }

  predicate Skipped(before: Row, job: Job, after: Row) {
    && after.status.Completed? && after.failureStage == "" && after.lease == NO_LEASE
    && (if job.id != 0 then after.assignedId == job.id && after.assignedName == job.name
        else after.assignedId == before.assignedId && after.assignedName == before.assignedName)
  }

  predicate Ends(ok: PC, fail: PC) {
    Head(ok) == Head(fail) == Done
  }

  /** What the writes of a start call are made of. */
  ghost predicate KnowsWrite(cfg: Config, site: Site, base: Row, row: Row, ok: PC, fail: PC, tr: seq<Turn>) {
    match site
    case StartCreating =>
      && row == base.(status := Creating, lease := row.lease) && row.lease.owner == cfg.workerId
      && Head(ok).AtStart? && Head(ok).start.StartJob? && Head(fail) == Done
    case ConfigSnapshot =>
      && row == base.(configSource := row.configSource)
      && Head(ok).AtStart? && Head(ok).start.StartSandbox?
      && Head(fail).AtSettle? && Head(fail).settle.FailRead? && Blamed(tr, Head(fail).settle.stage, Head(fail).settle.error)
    case StartRunning =>
      && row == base.(status := Running, sandbox := row.sandbox, pid := row.pid, lease := NO_LEASE) && Handed(tr, row.sandbox, row.pid)
      && Head(ok) == Done && Head(fail) == AtStart(StartCleanup(row.sandbox, row.pid))
    case DeferQueued => PutOff(tr, row.nextRetryAt) && row == base.(nextRetryAt := row.nextRetryAt, lease := NO_LEASE) && Ends(ok, fail)
    case SkipStart => SkippedBy(tr, base, row) && Ends(ok, fail)
    case FailStart(_) => JudgedBy(cfg, tr, base, row) && Ends(ok, fail)
    case FailStale(_) => JudgedBy(cfg, tr, base, row) && Ends(ok, fail)
    case _ => false
  }

  ghost predicate Knows(cfg: Config, h: PC, tr: seq<Turn>) {
    match h
    case Done => true
    case AtStart(p) =>
      (match p
       case StartRecheck(sandbox, pid) => Handed(tr, sandbox, pid)
       case StartCleanup(sandbox, pid) => Handed(tr, sandbox, pid)
       case _ => true)
    case AtSettle(p) =>
      (match p
       case FailRead(_, _, stage, error) => Blamed(tr, stage, error)
       case DeferRead(at) => PutOff(tr, at)
       case SkipRead(job) => Told(tr, job)
       case _ => false)
    case Write(site, base, row, ok, fail) => KnowsWrite(cfg, site, base, row, ok, fail, tr)
    case _ => false
  }

  lemma WriteHandsOn(cfg: Config, m: Turn, tr: seq<Turn>)
    requires m.pc.Write? && Knows(cfg, m.pc, tr)
    ensures Knows(cfg, After(m), tr + [m])
  {
    Remembered(tr, m);
  }

  lemma FailJudges(cfg: Config, m: Turn, tr: seq<Turn>, before: Row)
    requires m.cfg == cfg && m.pc.AtSettle? && m.pc.settle.FailRead? && Blamed(tr, m.pc.settle.stage, m.pc.settle.error)
    requires if m.read.Some? then before == m.read.value else before == m.pc.settle.st.(configSource := m.pc.settle.source)
    ensures
      var row := ApplyFailure(cfg, before, m.pc.settle.stage, m.pc.settle.error, m.c.now).0;
      JudgedBy(cfg, tr + [m], before, row) && (m.read.None? ==> JudgedBy(cfg, tr + [m], m.pc.settle.st, row))
  {
    var FailRead(st, source, stage, error) := m.pc.settle;
    var n :| n in tr && Blames(n, stage, error);
    FailureIsJudged(cfg, before, stage, error, m.c.now);
    Remembered(tr, m);
  }

  lemma FailHandsOn(cfg: Config, m: Turn, tr: seq<Turn>)
    requires m.cfg == cfg && Knows(cfg, m.pc, tr) && m.pc.AtSettle? && m.pc.settle.FailRead?
    ensures Knows(cfg, After(m), tr + [m])
  {
    FailJudges(cfg, m, tr, if m.read.Some? then m.read.value else m.pc.settle.st.(configSource := m.pc.settle.source));
  }

  lemma DeferHandsOn(cfg: Config, m: Turn, tr: seq<Turn>)
    requires m.cfg == cfg && Knows(cfg, m.pc, tr) && m.pc.AtSettle? && m.pc.settle.DeferRead?
    ensures Knows(cfg, After(m), tr + [m])
  {
    Remembered(tr, m);
  }

  lemma SkipHandsOn(cfg: Config, m: Turn, tr: seq<Turn>)
    requires m.cfg == cfg && Knows(cfg, m.pc, tr) && m.pc.AtSettle? && m.pc.settle.SkipRead?
    ensures Knows(cfg, After(m), tr + [m])
  {
    Remembered(tr, m);
  }

  lemma CountHandsOn(cfg: Config, m: Turn, tr: seq<Turn>)
    requires m.cfg == cfg && Knows(cfg, m.pc, tr) && m.pc.AtStart? && m.pc.start.StartCount?
    ensures Knows(cfg, After(m), tr + [m])
  {
    Remembered(tr, m);
    DecisionHeads(cfg, m.pc.start.st, m.c.now);
    Wrapped(ReleaseLease(Done));
  }

  lemma ProfileCountHandsOn(cfg: Config, m: Turn, tr: seq<Turn>)
    requires m.cfg == cfg && Knows(cfg, m.pc, tr) && m.pc.AtStart? && m.pc.start.StartCountProfile?
    ensures Knows(cfg, After(m), tr + [m])
  {
    Remembered(tr, m);
    DecisionHeads(cfg, m.pc.start.st, m.c.now);
    Wrapped(ReleaseLease(Done));
  }

  lemma EntryHandsOn(cfg: Config, m: Turn, tr: seq<Turn>)
    requires m.cfg == cfg && Knows(cfg, m.pc, tr) && m.pc.AtStart? && (m.pc.start.StartRead? || m.pc.start.StartProfile?)
    ensures Knows(cfg, After(m), tr + [m])
  {
    Remembered(tr, m);
    Wrapped(Done);
    if m.pc.start.StartProfile? { FailWithHead(m.pc.start.st, m.pc.start.st.configSource, "profile_lookup", m.c.error); }
  }

  lemma PreparationHandsOn(cfg: Config, m: Turn, tr: seq<Turn>)
    requires m.cfg == cfg && Knows(cfg, m.pc, tr) && m.pc.AtStart? && (m.pc.start.StartJob? || m.pc.start.StartConfig? || m.pc.start.StartSandbox?)
    ensures Knows(cfg, After(m), tr + [m])
  {
    Remembered(tr, m);
    var p := m.pc.start;
    FailWithHead(p.st, p.st.configSource, if p.StartJob? then "github_job_status" else if p.StartConfig? then "sandbox_config" else m.c.stage, m.c.error);
  }

  lemma SnapshotHandsOn(cfg: Config, m: Turn, tr: seq<Turn>)
    requires m.cfg == cfg && Knows(cfg, m.pc, tr) && m.pc.AtStart? && m.pc.start.StartSnapshot?
    ensures Knows(cfg, After(m), tr + [m])
  {
    Remembered(tr, m);
    var p := m.pc.start;
    if m.read.Some? { FailWithHead(m.read.value, p.source, "sandbox_config", m.c.error); }
    else { FailWithHead(p.st, p.st.configSource, "sandbox_config", m.c.error); }
  }

  lemma PlacingHandsOn(cfg: Config, m: Turn, tr: seq<Turn>)
    requires m.cfg == cfg && Knows(cfg, m.pc, tr) && m.pc.AtStart? && (m.pc.start.StartRecheck? || m.pc.start.StartCleanup?)
    ensures Knows(cfg, After(m), tr + [m])
  {
    Remembered(tr, m);
  }

  lemma StartHandsOn(cfg: Config, m: Turn, tr: seq<Turn>)
    requires m.cfg == cfg && Knows(cfg, m.pc, tr) && m.pc.AtStart?
    ensures Knows(cfg, After(m), tr + [m])
  {
    match m.pc.start
    case StartRead => EntryHandsOn(cfg, m, tr);
    case StartProfile(_) => EntryHandsOn(cfg, m, tr);
    case StartCount(_, _) => CountHandsOn(cfg, m, tr);
    case StartCountProfile(_, _) => ProfileCountHandsOn(cfg, m, tr);
    case StartSnapshot(_, _) => SnapshotHandsOn(cfg, m, tr);
    case StartRecheck(_, _) => PlacingHandsOn(cfg, m, tr);
    case StartCleanup(_, _) => PlacingHandsOn(cfg, m, tr);
    case _ => PreparationHandsOn(cfg, m, tr);
  }

  lemma TurnHandsOn(cfg: Config, m: Turn, tr: seq<Turn>)
    requires TakesTurn(m.pc) && m.cfg == cfg && Knows(cfg, m.pc, tr)
    ensures Knows(cfg, After(m), tr + [m])
  {
    if m.pc.Write? {
      WriteHandsOn(cfg, m, tr);
    } else if m.pc.AtSettle? && m.pc.settle.FailRead? {
      FailHandsOn(cfg, m, tr);
    } else if m.pc.AtSettle? && m.pc.settle.DeferRead? {
      DeferHandsOn(cfg, m, tr);
    } else if m.pc.AtSettle? {
      SkipHandsOn(cfg, m, tr);
    } else {
      StartHandsOn(cfg, m, tr);
    }
  }

  lemma KnowsAt(cfg: Config, id: string, job: int, tr: seq<Turn>, last: PC, k: nat)
    requires Chained(AtStart(StartRead), tr, last) && (forall m :: m in tr ==> About(m, cfg, id, job)) && k < |tr|
    ensures Knows(cfg, tr[k].pc, tr[..k])
  {
    var fact := (m: Turn) => m.cfg == cfg;
    var knows := (h: PC, before: seq<Turn>) => Knows(cfg, h, before);
    ChainUpTo(AtStart(StartRead), tr, last, k);
    forall m: Turn, before: seq<Turn> | TakesTurn(m.pc) && fact(m) && knows(m.pc, before) ensures knows(After(m), before + [m]) {
      TurnHandsOn(cfg, m, before);
    }
    forall m | m in tr[..k] ensures fact(m) { assert m in tr; }
    assert knows(AtStart(StartRead), []);
    ChainKeeps(AtStart(StartRead), tr[..k], tr[k].pc, fact, knows, []);
    assert [] + tr[..k] == tr[..k];
  }

  /** A sandbox is started for a workflow job only after GitHub said that the job is
      still queued, and a request is completed without one only after GitHub said
      that it is not. */
  lemma OnlyQueuedJobsAreStarted(w: World, t: nat, id: string, now: Clock, es: seq<Event>, k: nat)
    requires t !in w.threads && NextRunnable(w.rows, id, now) && k < |TurnsOfStart(w, t, id, now, es)|
    ensures
      var tr := TurnsOfStart(w, t, id, now, es);
      && (GivenSandbox(tr[k]) && w.rows[id].req.jobId != 0 ==> Answered(tr, k, true))
      && (tr[k].pc.Write? && tr[k].pc.row.status.Completed? && !tr[k].pc.base.status.Completed? ==> w.rows[id].req.jobId != 0 && Answered(tr, k, false))
  {
    var tr, job := TurnsOfStart(w, t, id, now, es), w.rows[id].req.jobId;
    var last := StartIsChained(w, t, id, now, es);
    if GivenSandbox(tr[k]) {
      var j := CauseBefore(Prepares, w.cfg, id, job, tr, last, k);
    }
    if tr[k].pc.Write? && tr[k].pc.row.status.Completed? {
      KnowsAt(w.cfg, id, job, tr, last, k);
      if tr[k].pc.site.SkipStart? { var j := CauseBefore(Skips, w.cfg, id, job, tr, last, k); }
    }
  }


  /** Every write of a start call is made of what it was told: a creating row is
      leased, a running row records the sandbox it was given, a skipped one the job
      GitHub named, a deferred one waits five seconds from the count that was full,
      and a failed one is judged by the answer that failed. */
  lemma StartsWriteAsAnswered(w: World, t: nat, id: string, now: Clock, es: seq<Event>, k: nat)
    requires t !in w.threads && NextRunnable(w.rows, id, now) && k < |TurnsOfStart(w, t, id, now, es)|
    ensures var tr := TurnsOfStart(w, t, id, now, es); Knows(w.cfg, tr[k].pc, tr[..k])
  {
    var last := StartIsChained(w, t, id, now, es);
    KnowsAt(w.cfg, id, w.rows[id].req.jobId, TurnsOfStart(w, t, id, now, es), last, k);
  }

  predicate IsFailure(m: Turn) {
    m.pc.Write? && (m.pc.site.FailStart? || m.pc.site.FailStale?)
  }

  /** A failed start leaves its row queued again exactly if the answer that failed was
      one of capacity, or one that may pass while the row in the store still had an
      attempt left; with the documented wait, and failed for good otherwise. */
  lemma FailedStartsAreRetried(w: World, t: nat, id: string, now: Clock, es: seq<Event>, k: nat)
    requires Inv(w) && t !in w.threads && NextRunnable(w.rows, id, now) && k < |TurnsOfStart(w, t, id, now, es)|
    ensures
      var tr := TurnsOfStart(w, t, id, now, es);
      IsFailure(tr[k]) && !tr[k].refused ==> tr[k].id == id && id in tr[k].rows && JudgedBy(w.cfg, tr[..k], tr[k].rows[id], Left(tr[k]))
  {
    var tr := TurnsOfStart(w, t, id, now, es);
    var last := StartIsChained(w, t, id, now, es);
    StepKeepsInv(w, Claim(t, id, now));
    TurnsAreFaithful(Step(w, Claim(t, id, now)), es, t);
    FailureOnChain(w.cfg, id, w.rows[id].req.jobId, tr, last, k);
  }

  lemma FailureOnChain(cfg: Config, id: string, job: int, tr: seq<Turn>, last: PC, k: nat)
    requires Chained(AtStart(StartRead), tr, last) && (forall m :: m in tr ==> About(m, cfg, id, job) && Faithful(m)) && k < |tr|
    ensures IsFailure(tr[k]) && !tr[k].refused ==> tr[k].id == id && id in tr[k].rows && JudgedBy(cfg, tr[..k], tr[k].rows[id], Left(tr[k]))
  {
    var m := tr[k];
    assert m in tr && About(m, cfg, id, job) && Faithful(m);
    KnowsAt(cfg, id, job, tr, last, k);
    if IsFailure(m) && !m.refused {
      assert KnowsWrite(cfg, m.pc.site, m.pc.base, m.pc.row, m.pc.ok, m.pc.fail, tr[..k]);
      FailureInStore(cfg, m, tr[..k]);
    }
  }

  lemma FailureInStore(cfg: Config, m: Turn, tr: seq<Turn>)
    requires m.pc.Write? && !m.refused && Faithful(m) && m.cfg == cfg && JudgedBy(cfg, tr, m.pc.base, m.pc.row)
    ensures JudgedBy(cfg, tr, m.rows[m.id], Left(m))
  {
    var row := m.pc.row;
    var x, n :| x in tr && n in tr && Blames(x, row.failureStage, x.c.error) &&
                Judged(cfg, m.pc.base, row.failureStage, x.c.error, n.c.now, row);
    JudgedInStore(m, row.failureStage, x.c.error, n.c.now);
  }
}
