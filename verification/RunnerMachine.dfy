/** The interleaving machine: any number of calls, each a `PC`, over one store,
    the striped request mutexes and the admission mutex. An `Event` is one
    atomic step of one actor together with everything the environment chose
    for it, so a sequence of events is one run and every run is one. */
module RunnerMachine {
  import opened Common
  import opened RunnerRows
  import opened RunnerCalls

  datatype Thread = Thread(id: string, pc: PC)

  datatype World = World(
    cfg: Config,
    rows: Rows,
    profiles: map<string, int>,      // profile name to MaxConcurrency
    threads: map<nat, Thread>,
    locks: map<nat, nat>,            // held request mutex (by stripe) to its holder
    admission: Option<nat>)          // holder of admissionMu

  datatype Event =
    | Create(id: string, req: Request)
    | Reject(id: string, req: Request, now: Clock)
    | Claim(t: nat, id: string, now: Clock)
    | Call(t: nat, id: string, entry: Entry)
    | ManualRetry(id: string)
    | SetProfile(name: string, limit: int)
    | DeleteProfile(name: string)
    | Restart                         // the process dies; only the store survives
    | Run(t: nat, c: Choice)

  function Stripe(cfg: Config, id: string): nat {
    if id in cfg.stripes then cfg.stripes[id] else 0
  }

  function Empty(cfg: Config, profiles: map<string, int>): World {
    World(cfg, map[], profiles, map[], map[], None)
  }

  function Spawn(w: World, t: nat, id: string, pc: PC): World {
    w.(threads := w.threads[t := Thread(id, pc)])
  }

  predicate WriteSucceeds(w: World, t: nat, c: Choice) {
    t in w.threads && w.threads[t].pc.Write? && !c.fault &&
    w.threads[t].id in w.rows && w.rows[w.threads[t].id].version == w.threads[t].pc.row.version
  }

  function RunThread(w: World, t: nat, c: Choice): World
    requires t in w.threads
  {
    var Thread(id, pc) := w.threads[t];
    var s := Stripe(w.cfg, id);
    match pc
    case Done => w
    case LockRunner(next) => if s in w.locks then w else Spawn(w, t, id, next).(locks := w.locks[s := t])
    case UnlockRunner(next) => Spawn(w, t, id, next).(locks := w.locks - {s})
    case LockAdmission(next) => if w.admission.Some? then w else Spawn(w, t, id, next).(admission := Some(t))
    case UnlockAdmission(next) => Spawn(w, t, id, next).(admission := None)
    case ReleaseLease(next) =>
      var w' := Spawn(w, t, id, next);
      if c.fault || id !in w.rows then w' else w'.(rows := w.rows[id := Released(w.rows[id], w.cfg.workerId)])
    case Write(site, base, row, ok, fail) =>
      if WriteSucceeds(w, t, c) then Spawn(w, t, id, ok).(rows := w.rows[id := Written(w.rows[id], row, c.now)])
      else Spawn(w, t, id, fail)
    case _ => Spawn(w, t, id, Decide(w.cfg, w.rows, w.profiles, ReadRow(w.rows, id, c), pc, c))
  }

  function Step(w: World, e: Event): World {
    match e
    case Create(id, req) => if CanCreate(w.rows, id, req) then w.(rows := w.rows[id := NewRow(req)]) else w
    case Reject(id, req, now) => if CanCreate(w.rows, id, req) then w.(rows := w.rows[id := RejectedRow(req, now)]) else w
    case Claim(t, id, now) =>
      if t in w.threads || !NextRunnable(w.rows, id, now) then w
      else
        Spawn(w, t, id, LockRunner(AtStart(StartRead)))
        .(rows := w.rows[id := Claimed(w.rows[id], w.cfg.workerId, now, w.cfg.leaseTtl)])
    case Call(t, id, entry) => if t in w.threads then w else Spawn(w, t, id, Enter(entry))
    case ManualRetry(id) =>
      if id in w.rows && RetryAllowed(w.rows[id]) then w.(rows := w.rows[id := Retried(w.rows[id])]) else w
    case SetProfile(name, limit) => w.(profiles := w.profiles[name := limit])
    case DeleteProfile(name) => w.(profiles := w.profiles - {name})
    case Restart => w.(threads := map[], locks := map[], admission := None)
    case Run(t, c) => if t in w.threads then RunThread(w, t, c) else w
  }

  function Exec(w: World, es: seq<Event>): World
    decreases |es|
  {
    if es == [] then w else Exec(Step(w, es[0]), es[1..])
  }

  // ---- What a program point relies on ----------------------------------------

  /** The call holds its request's mutex before its next step. */
  predicate HoldsRunner(pc: PC) {
    match pc
    case Done => false
    case LockRunner(_) => false
    case UnlockRunner(_) => true
    case LockAdmission(next) => HoldsRunner(next)
    case UnlockAdmission(next) => HoldsRunner(next)
    case ReleaseLease(next) => HoldsRunner(next)
    case Write(_, _, _, ok, _) => HoldsRunner(ok)
    case AtStart(p) => !(p.StartJob? || p.StartConfig? || p.StartSnapshot? || p.StartSandbox? || p.StartCleanup?)
    case AtSettle(p) => true
    case AtExit(p) => !p.ExitBusy?
    case AtStop(p) => true
    case AtForce(p) => true
    case AtRecover(p) => !(p.RecoverJob? || p.RecoverConnect?)
    case AtReconcile(p) => !(p.MismatchQuery? || p.CompleteQuery?)
  }

  predicate HoldsAdmission(pc: PC) {
    match pc
    case UnlockAdmission(_) => true
    case Write(_, _, _, ok, _) => HoldsAdmission(ok)
    case AtStart(p) => p.StartCount? || p.StartCountProfile?
    case _ => false
  }

  function StartSnapshotOf(p: StartPoint): Option<Row> {
    match p
    case StartRead => None
    case StartRecheck(_, _) => None
    case StartCleanup(_, _) => None
    case _ => Some(p.st)
  }

  /** The copy of the row a call may still write from. */
  function Snapshot(pc: PC): Option<Row> {
    match pc
    case Done => None
    case LockRunner(next) => Snapshot(next)
    case UnlockRunner(next) => Snapshot(next)
    case LockAdmission(next) => Snapshot(next)
    case UnlockAdmission(next) => Snapshot(next)
    case ReleaseLease(next) => Snapshot(next)
    case Write(_, base, _, _, _) => Some(base)
    case AtStart(p) => StartSnapshotOf(p)
    case AtSettle(p) => if p.FailRead? then Some(p.st) else None
    case AtExit(_) => None
    case AtStop(p) => if p.StopRead? then None else Some(p.st)
    case AtForce(p) => if p.ForceRead? then None else Some(p.st)
    case AtRecover(_) => None
    case AtReconcile(_) => None
  }

  predicate SameTime(mine: Time, stored: Time) {
    mine == stored || mine == 0
  }

  /** `mine` is the stored row apart from the lease, which ReleaseLease may have
      cleared without a new version, and from timestamps the call's own last
      write stamped into the store but not into the call's copy. */
  predicate Matches(mine: Row, stored: Row) {
    && mine == stored.(lease := mine.lease, times := mine.times)
    && (stored.lease == mine.lease || stored.lease == NO_LEASE)
    && SameTime(mine.times.creating, stored.times.creating)
    && SameTime(mine.times.running, stored.times.running)
    && SameTime(mine.times.stopping, stored.times.stopping)
    && SameTime(mine.times.completed, stored.times.completed)
    && SameTime(mine.times.failed, stored.times.failed)
  }

  /** The retry kind a site counts, if it counts one. */
  predicate OrdinaryRetry(site: Site) {
    match site
    case FailStart(k) => k.Ordinary?
    case FailStale(k) => k.Ordinary?
    case RetryOrFail(k) => k.Ordinary?
    case ExitCleanupRetry(k) => k.Ordinary?
    case StopCleanupRetry(k) => k.Ordinary?
    case ForceCleanupRetry(k) => k.Ordinary?
    case StopRetry => true
    case _ => false
  }

  /** The sites that clear the recorded sandbox, and those that record one. */
  predicate ForgetsSandbox(site: Site) {
    site.FailStart? || site.FailStale? || site.RetryOrFail? || site.StopRequeue? || site.RecoverRequeue? || site.MismatchRequeue?
  }

  predicate AdoptsSandbox(site: Site) {
    site.StartRunning? || site.RecoverRunning?
  }

  /** The status changes each program point may make. */
  predicate Allowed(site: Site, from: Status, to: Status) {
    match site
    case StartCreating => !Stopped(from) && to.Creating?
    case ConfigSnapshot => to == from
    case StartRunning => from.Creating? && to.Running?
    case FailStart(_) => !Stopped(from) && (to.Queued? || to.Failed?)
    case FailStale(_) => to.Queued? || to.Failed?
    case DeferQueued => from.Queued? && to.Queued?
    case SkipStart => (from.Queued? || from.Creating? || from.Failed?) && to.Completed?
    case MarkAssigned => !Stopped(from) && to == from
    case MarkStarted => !Stopped(from) && to == from
    case KeepBusy => Active(from) && to.Running?
    case RunnerExit => Active(from) && (to.Completed? || to.Failed?)
    case ExitCleanupRetry(_) => Active(from) && to.Stopping?
    case StopRecord => from.Completed? && to.Completed?
    case StopBegin => !from.Completed? && to.Stopping?
    case StopRetry => from.Stopping? && to.Stopping?
    case StopFailed => from.Stopping? && to.Failed?
    case StopCleanupRetry(_) => from.Stopping? && to.Stopping?
    case StopCleanupFailed => from.Stopping? && to.Failed?
    case StopRequeue => from.Stopping? && to.Queued?
    case StopInspect => from.Stopping? && to.Stopping?
    case StopMismatchDone => from.Stopping? && to.Completed?
    case StopDone => from.Stopping? && (to.Completed? || to.Failed?)
    case ForceBegin => !from.Completed? && !from.Failed? && to.Stopping?
    case ForceStopFailed => from.Stopping? && to.Failed?
    case ForceCleanupRetry(_) => from.Stopping? && to.Stopping?
    case ForceDone => from.Stopping? && to.Failed?
    case RetryOrFail(_) => !from.Completed? && !from.Failed? && (to.Queued? || to.Failed?)
    case RecoverQueued => from.Queued? && to.Queued?
    case RecoverRunning => Active(from) && to.Running?
    case RecoverRequeue => from.Creating? && to.Queued?
    case MismatchRequeue => from.Completed? && to.Queued?
    case MismatchInspect => from.Completed? && to.Completed?
    case ReconcileComplete => from.Failed? && to.Completed?
  }

  /** What a pending write must satisfy, whatever the store looks like when it happens. */
  predicate Justified(cfg: Config, site: Site, base: Row, row: Row) {
    && row.version == base.version
    && row.req == base.req
    && base.retryCount <= row.retryCount
    && (base.retryCount <= cfg.retryMax ==> row.retryCount <= cfg.retryMax)
    && (OrdinaryRetry(site) ==> row.retryCount == base.retryCount + 1)
    && Allowed(site, base.status, row.status)
    && (row.status.Queued? ==> Cleared(row))
    && (if ForgetsSandbox(site) then row.sandbox == "" else AdoptsSandbox(site) || row.sandbox == base.sandbox)
    && (site.MismatchRequeue? || site.MismatchInspect? ==> MismatchedCompleted(base) && row.assignedId == 0)
    && (site.FailStale? && base.status.Completed? ==> row.failureStage == "sandbox_config")
  }

  /** The copy a call keeps after a write: the written row, or an older copy that no write can use any more. */
  predicate SnapshotAfter(cfg: Config, base: Row, row: Row, s: Option<Row>) {
    s.Some? ==>
      || s.value == row.(version := row.version + 1)
      || (s.value.version <= base.version && (base.retryCount <= cfg.retryMax ==> s.value.retryCount <= cfg.retryMax))
  }

  /** What a point knows of the copy it carries. */
  predicate PointOk(pc: PC) {
    match pc
    case AtStart(p) =>
      && (p.StartProfile? || p.StartCount? || p.StartCountProfile? ==> !Stopped(p.st.status))
      && (p.StartJob? || p.StartConfig? || p.StartSnapshot? || p.StartSandbox? ==> p.st.status.Creating?)
    case AtSettle(p) => p.FailRead? && p.st.status.Completed? ==> p.stage == "sandbox_config"
    case AtStop(p) => !p.StopRead? ==> p.st.status.Stopping?
    case AtForce(p) => !p.ForceRead? ==> p.st.status.Stopping?
    case AtReconcile(p) => p.MismatchQuery? || p.MismatchReread? ==> MismatchedCompleted(p.cur)
    case _ => true
  }

  /** The continuation is well formed: locks are taken and returned in the
      server's order and every write in it is justified. */
  predicate Good(cfg: Config, pc: PC) {
    match pc
    case Done => true
    case LockRunner(next) => HoldsRunner(next) && !HoldsAdmission(next) && !next.LockRunner? && Good(cfg, next)
    case UnlockRunner(next) => !HoldsRunner(next) && !HoldsAdmission(next) && Good(cfg, next)
    case LockAdmission(next) => next.AtStart? && next.start.StartCount? && Good(cfg, next)
    case UnlockAdmission(next) => HoldsRunner(next) && !HoldsAdmission(next) && Good(cfg, next)
    case ReleaseLease(next) => !HoldsAdmission(next) && Good(cfg, next)
    case Write(site, base, row, ok, fail) =>
      && Justified(cfg, site, base, row)
      && HoldsRunner(ok) == HoldsRunner(fail)
      && HoldsAdmission(ok) == HoldsAdmission(fail)
      && (site.StartCreating? <==> HoldsAdmission(ok))
      && (site.StartCreating? ==> ok.UnlockAdmission? && fail.UnlockAdmission?)
      && (site.StartRunning? || site.StartCreating? ==> HoldsRunner(ok))
      && SnapshotAfter(cfg, base, row, Snapshot(ok))
      && (Snapshot(fail).None? || Snapshot(fail) == Some(base))
      && Good(cfg, ok) && Good(cfg, fail)
    case _ => PointOk(pc)
  }

  predicate SnapshotOk(cfg: Config, rows: Rows, id: string, s: Row) {
    && id in rows
    && s.version <= rows[id].version
    && (s.version == rows[id].version ==> Matches(s, rows[id]))
    && s.retryCount <= cfg.retryMax
  }

  predicate ThreadOk(cfg: Config, rows: Rows, th: Thread) {
    && Good(cfg, th.pc)
    && (Snapshot(th.pc).Some? ==> SnapshotOk(cfg, rows, th.id, Snapshot(th.pc).value))
  }

  predicate RowsOk(cfg: Config, rows: Rows) {
    forall id :: id in rows ==> TimesOk(rows[id]) && rows[id].retryCount <= cfg.retryMax
  }

  predicate ThreadsOk(w: World) {
    forall t :: t in w.threads ==> ThreadOk(w.cfg, w.rows, w.threads[t])
  }

  /** Each mutex is held by exactly the calls whose next step relies on it. */
  predicate LocksOk(w: World) {
    && (forall t :: t in w.threads ==>
          (HoldsRunner(w.threads[t].pc) <==>
           Stripe(w.cfg, w.threads[t].id) in w.locks && w.locks[Stripe(w.cfg, w.threads[t].id)] == t))
    && (forall s :: s in w.locks ==> w.locks[s] in w.threads && Stripe(w.cfg, w.threads[w.locks[s]].id) == s)
    && (forall t :: t in w.threads ==> (HoldsAdmission(w.threads[t].pc) <==> w.admission == Some(t)))
    && (w.admission.Some? ==> w.admission.value in w.threads)
  }

  predicate Inv(w: World) {
    RowsOk(w.cfg, w.rows) && ThreadsOk(w) && LocksOk(w)
  }

  // ---- Every decision keeps a call well formed -------------------------------

  /** What the invariant needs of the decision taken at a point. */
  predicate GoodDecision(cfg: Config, read: Option<Row>, pc: PC, next: PC) {
    && Good(cfg, next)
    && HoldsRunner(next) == HoldsRunner(pc)
    && HoldsAdmission(next) == HoldsAdmission(pc)
    && (Snapshot(next).None? || Snapshot(next) == read || Snapshot(next) == Snapshot(pc))
  }

  /** Rows and snapshots a decision may start from. */
  predicate Readable(cfg: Config, read: Option<Row>, pc: PC) {
    && PointOk(pc)
    && (read.Some? ==> TimesOk(read.value) && read.value.retryCount <= cfg.retryMax)
    && (Snapshot(pc).Some? ==> Snapshot(pc).value.retryCount <= cfg.retryMax)
    && (read.Some? && Snapshot(pc).Some? ==> Snapshot(pc).value.version <= read.value.version)
  }
}
