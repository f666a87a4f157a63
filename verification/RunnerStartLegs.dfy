/** The legs of a start call's way: that it does go on, from its first read to its last
    write, exactly as long as nothing stops it. */
module RunnerStartLegs {
  import opened RunnerRows
  import opened RunnerCalls
  import opened RunnerMachine
  import opened RunnerTurns
  import opened RunnerStarts

  datatype Leg =
    | Looks | Counts | CountsProfile | AsksGitHub | Configures | Snapshots | Records | Starts | Runs
    | PutsOff | Completes | GivesUp | GivesUpBlindly

  predicate OnLeg(leg: Leg, h: PC) {
    match leg
    case Looks => h.AtStart? && h.start.StartProfile?
    case Counts => h.AtStart? && h.start.StartCount?
    case CountsProfile => h.AtStart? && h.start.StartCountProfile?
    case AsksGitHub => h.AtStart? && h.start.StartJob?
    case Configures => h.AtStart? && h.start.StartConfig?
    case Snapshots => h.AtStart? && h.start.StartSnapshot?
    case Records => h.Write? && h.site.ConfigSnapshot?
    case Starts => h.AtStart? && h.start.StartSandbox?
    case Runs => h.Write? && h.site.StartRunning?
    case PutsOff => h.Write? && h.site.DeferQueued?
    case Completes => h.Write? && h.site.SkipStart?
    case GivesUp => h.Write? && h.site.FailStart?
    case GivesUpBlindly => h.Write? && h.site.FailStale?
  }

  predicate Over(r: Row) {
    r.status.Completed? || r.status.Stopping?
  }

  predicate StartCauses(leg: Leg, job: int, m: Turn, p: StartPoint) {
    match p
    case StartRead => leg.Looks? && m.read.Some? && !Over(m.read.value)
    case StartProfile(st) => leg.Counts? && !m.c.fault && st.req.profile in m.profiles
    case StartCount(st, _) => leg.CountsProfile? && !m.c.fault && |InFlightIds(m.rows)| < m.cfg.maxRunners && st.req.profile != ""
    case StartJob(_) => leg.Configures? && (job == 0 || (!m.c.fault && m.c.job.status.JobQueued?))
    case StartConfig(_) => !m.c.fault && if m.c.yes then leg.Snapshots? else leg.Starts?
    case StartSnapshot(_, _) => leg.Records? && !m.c.fault
    case StartRecheck(_, _) => leg.Runs? && m.read.Some? && m.read.value.status.Creating?
    case _ => false
  }

  predicate LegCauses(leg: Leg, job: int, m: Turn) {
    match m.pc
    case AtStart(p) => StartCauses(leg, job, m, p)
    case AtSettle(p) =>
      (match p
       case FailRead(_, _, _, _) => if m.read.None? then leg.GivesUpBlindly? else leg.GivesUp? && !Over(m.read.value)
       case DeferRead(_) => leg.PutsOff? && m.read.Some? && m.read.value.status.Queued? && m.read.value.lease.owner == m.cfg.workerId
       case SkipRead(_) => leg.Completes? && m.read.Some? && !Over(m.read.value) && !m.read.value.status.Running?
       case _ => false)
    case Write(site, _, _, _, _) => !m.refused && ((leg.AsksGitHub? && site.StartCreating?) || (leg.Starts? && site.ConfigSnapshot?))
    case _ => false
  }

  predicate GoesOn(leg: Leg, job: int, m: Turn)
    requires TakesTurn(m.pc)
  {
    && (LegCauses(leg, job, m) ==> OnLeg(leg, After(m)))
    && (OnLeg(leg, After(m)) ==> LegCauses(leg, job, m) || OnLeg(leg, m.pc))
  }

  lemma WriteGoesOn(leg: Leg, cfg: Config, id: string, job: int, m: Turn)
    requires About(m, cfg, id, job) && Shape(job, m.pc) && m.pc.Write?
    ensures GoesOn(leg, job, m)
  {
  }

  lemma FailGoesOn(leg: Leg, cfg: Config, id: string, job: int, m: Turn)
    requires About(m, cfg, id, job) && m.pc.AtSettle? && m.pc.settle.FailRead?
    ensures GoesOn(leg, job, m)
  {
  }

  lemma DeferGoesOn(leg: Leg, cfg: Config, id: string, job: int, m: Turn)
    requires About(m, cfg, id, job) && m.pc.AtSettle? && m.pc.settle.DeferRead?
    ensures GoesOn(leg, job, m)
  {
  }

  lemma SkipGoesOn(leg: Leg, cfg: Config, id: string, job: int, m: Turn)
    requires About(m, cfg, id, job) && m.pc.AtSettle? && m.pc.settle.SkipRead?
    ensures GoesOn(leg, job, m)
  {
  }

  lemma ReadGoesOn(leg: Leg, cfg: Config, id: string, job: int, m: Turn)
    requires About(m, cfg, id, job) && m.pc.AtStart? && m.pc.start.StartRead?
    ensures GoesOn(leg, job, m)
  {
    Wrapped(Done);
  }

  lemma ProfileGoesOn(leg: Leg, cfg: Config, id: string, job: int, m: Turn)
    requires About(m, cfg, id, job) && m.pc.AtStart? && m.pc.start.StartProfile?
    ensures GoesOn(leg, job, m)
  {
    FailWithHead(m.pc.start.st, m.pc.start.st.configSource, "profile_lookup", m.c.error);
  }

  lemma CountGoesOn(leg: Leg, cfg: Config, id: string, job: int, m: Turn)
    requires About(m, cfg, id, job) && m.pc.AtStart? && m.pc.start.StartCount?
    ensures GoesOn(leg, job, m)
  {
    CountGoes(m);
    DecisionHeads(cfg, m.pc.start.st, m.c.now);
  }

  lemma ProfileCountGoesOn(leg: Leg, cfg: Config, id: string, job: int, m: Turn)
    requires About(m, cfg, id, job) && m.pc.AtStart? && m.pc.start.StartCountProfile?
    ensures GoesOn(leg, job, m)
  {
    ProfileCountGoes(m);
    DecisionHeads(cfg, m.pc.start.st, m.c.now);
  }

  lemma PreparationGoesOn(leg: Leg, cfg: Config, id: string, job: int, m: Turn)
    requires About(m, cfg, id, job) && Shape(job, m.pc) && m.pc.AtStart?
    requires m.pc.start.StartJob? || m.pc.start.StartConfig? || m.pc.start.StartSandbox?
    ensures GoesOn(leg, job, m)
  {
    var p := m.pc.start;
    FailWithHead(p.st, p.st.configSource, if p.StartJob? then "github_job_status" else if p.StartConfig? then "sandbox_config" else m.c.stage, m.c.error);
  }

  lemma SnapshotGoesOn(leg: Leg, cfg: Config, id: string, job: int, m: Turn)
    requires About(m, cfg, id, job) && m.pc.AtStart? && m.pc.start.StartSnapshot?
    ensures GoesOn(leg, job, m)
  {
    var p := m.pc.start;
    FailWithHead(p.st, p.st.configSource, "sandbox_config", m.c.error);
  }

  lemma PlacingGoesOn(leg: Leg, cfg: Config, id: string, job: int, m: Turn)
    requires About(m, cfg, id, job) && m.pc.AtStart? && (m.pc.start.StartRecheck? || m.pc.start.StartCleanup?)
    ensures GoesOn(leg, job, m)
  {
  }

  lemma TurnGoesOn(leg: Leg, cfg: Config, id: string, job: int, m: Turn)
    requires TakesTurn(m.pc) && About(m, cfg, id, job) && Shape(job, m.pc)
    ensures GoesOn(leg, job, m)
  {
    match m.pc
    case Write(_, _, _, _, _) => WriteGoesOn(leg, cfg, id, job, m);
    case AtSettle(p) =>
      if p.FailRead? { FailGoesOn(leg, cfg, id, job, m); }
      else if p.DeferRead? { DeferGoesOn(leg, cfg, id, job, m); }
      else { SkipGoesOn(leg, cfg, id, job, m); }
    case AtStart(p) =>
      if p.StartRead? { ReadGoesOn(leg, cfg, id, job, m); }
      else if p.StartProfile? { ProfileGoesOn(leg, cfg, id, job, m); }
      else if p.StartCount? { CountGoesOn(leg, cfg, id, job, m); }
      else if p.StartCountProfile? { ProfileCountGoesOn(leg, cfg, id, job, m); }
      else if p.StartSnapshot? { SnapshotGoesOn(leg, cfg, id, job, m); }
      else if p.StartRecheck? || p.StartCleanup? { PlacingGoesOn(leg, cfg, id, job, m); }
      else { PreparationGoesOn(leg, cfg, id, job, m); }
  }

  lemma ChainGoesOn(leg: Leg, cfg: Config, id: string, job: int, tr: seq<Turn>, last: PC)
    requires Chained(AtStart(StartRead), tr, last) && forall m :: m in tr ==> About(m, cfg, id, job)
    ensures Took(tr, last, (h: PC) => OnLeg(leg, h)) <==> Happened(tr, (m: Turn) => LegCauses(leg, job, m))
  {
    var fact := (m: Turn) => About(m, cfg, id, job);
    var shape := (h: PC) => Shape(job, h);
    var cause := (m: Turn) => LegCauses(leg, job, m);
    var on := (h: PC) => OnLeg(leg, h);
    forall m: Turn | TakesTurn(m.pc) && fact(m) && shape(m.pc)
      ensures shape(After(m)) && (cause(m) ==> on(After(m))) && (on(After(m)) ==> cause(m) || on(m.pc))
    {
      TurnLeads(Creates, cfg, id, job, m);
      TurnGoesOn(leg, cfg, id, job, m);
    }
    ChainTakes(AtStart(StartRead), tr, last, fact, shape, cause, on);
  }

  /** Whatever else runs, a start call reaches each leg exactly when the turn before it
      went well: it looks at a request that is not over, counts under a known profile,
      asks GitHub once its request is creating, starts a sandbox once it is configured,
      writes running over a row still creating; and a start put off, skipped or failed
      is written down exactly while the row still allows it. */
  lemma StartsGoOn(w: World, t: nat, id: string, now: Clock, es: seq<Event>, leg: Leg)
    requires t !in w.threads && NextRunnable(w.rows, id, now)
    ensures
      var w' := Step(w, Claim(t, id, now));
      && t in w'.threads
      && (Took(TurnsIn(w', es, t), HeadNow(w', es, t), (h: PC) => OnLeg(leg, h)) <==>
          Happened(TurnsIn(w', es, t), (m: Turn) => LegCauses(leg, w.rows[id].req.jobId, m)))
  {
    var last := StartIsChained(w, t, id, now, es);
    ChainGoesOn(leg, w.cfg, id, w.rows[id].req.jobId, TurnsOfStart(w, t, id, now, es), last);
  }
}
