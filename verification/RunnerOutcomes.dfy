/** What whole calls do to their request, over runs in which anything else may
    happen in between and any store access may fail. */
module RunnerOutcomes {
  import opened Common
  import opened RunnerRows
  import opened RunnerCalls
  import opened RunnerMachine
  import opened RunnerInvariant

  /** A WriteState a call issued: the row it left in the store, or tried to. */
  datatype Attempt = Attempt(site: Site, row: Row, ok: bool)

  function AttemptOf(w: World, e: Event, t: nat): seq<Attempt> {
    if e.Run? && e.t == t && t in w.threads && w.threads[t].pc.Write? then
      var Thread(id, pc) := w.threads[t];
      if WriteSucceeds(w, t, e.c) then [Attempt(pc.site, Written(w.rows[id], pc.row, e.c.now), true)]
      else [Attempt(pc.site, pc.row, false)]
    else []
  }

  /** The writes call `t` issues in a run, until the process dies. */
  function Attempts(w: World, es: seq<Event>, t: nat): seq<Attempt>
    decreases |es|
  {
    if es == [] || es[0].Restart? then [] else AttemptOf(w, es[0], t) + Attempts(Step(w, es[0]), es[1..], t)
  }

  /** Where call `t` is at the end of the run, or was when the process died. */
  function LastPoint(w: World, es: seq<Event>, t: nat): PC
    requires t in w.threads
    decreases |es|
  {
    if es == [] || es[0].Restart? then w.threads[t].pc
    else
      StaysAlive(w, es[0], t);
      LastPoint(Step(w, es[0]), es[1..], t)
  }

  lemma StaysAlive(w: World, e: Event, t: nat)
    requires t in w.threads && !e.Restart?
    ensures t in Step(w, e).threads
    ensures !(e.Run? && e.t == t) ==> Step(w, e).threads[t] == w.threads[t]
  {
    if e.Run? && e.t in w.threads { RunTouchesOnlyItself(w, e.t, e.c); }
  }

  lemma OneMore(w: World, es: seq<Event>, t: nat, a: seq<Attempt>)
    requires t in w.threads && es != [] && !es[0].Restart?
    ensures t in Step(w, es[0]).threads
    ensures a + Attempts(w, es, t) == (a + AttemptOf(w, es[0], t)) + Attempts(Step(w, es[0]), es[1..], t)
    ensures LastPoint(w, es, t) == LastPoint(Step(w, es[0]), es[1..], t)
  {
    StaysAlive(w, es[0], t);
    var b, rest := AttemptOf(w, es[0], t), Attempts(Step(w, es[0]), es[1..], t);
    assert a + (b + rest) == (a + b) + rest;
  }

  // ---- Stopping: stopRunner and failAndStopRunnerVersion -------------------------------------

  /** Writes after which the call still has to tell the store how the stop ended. */
  predicate HalfWay(site: Site) {
    site.StopBegin? || site.StopInspect? || site.ForceBegin?
  }

  /** The request is not left hanging: it is final, queued again, or its stop has a retry time. */
  predicate Resolved(r: Row) {
    r.status.Completed? || r.status.Failed? || r.status.Queued? || (r.status.Stopping? && r.nextRetryAt != 0)
  }

  /** The successful writes were all half-way ones. */
  predicate Under(a: seq<Attempt>) {
    forall i :: 0 <= i < |a| ==> a[i].ok && HalfWay(a[i].site) && a[i].row.status.Stopping? && a[i].row.times.stopping != 0
  }

  /** All but the last write were half-way; the last one resolved the request, or failed. */
  predicate Finished(a: seq<Attempt>) {
    a == [] ||
    (Under(a[..|a| - 1]) && (a[|a| - 1].ok ==> !HalfWay(a[|a| - 1].site) && Resolved(a[|a| - 1].row)))
  }

  predicate Leave(pc: PC) {
    pc == Done || pc == UnlockRunner(Done)
  }

  /** A continuation of a stop after a half-way write. */
  predicate Stopping(pc: PC) {
    match pc
    case AtStop(p) => !p.StopRead? && p.st.status.Stopping?
    case AtForce(p) => !p.ForceRead? && p.st.status.Stopping?
    case Write(site, _, row, ok, fail) =>
      && fail == UnlockRunner(Done)
      && (if HalfWay(site) then row.status.Stopping? && Stopping(ok) else ok == UnlockRunner(Done) && Resolved(row))
    case _ => false
  }

  /** A stop that has written nothing yet. */
  predicate AtBeginning(pc: PC) {
    match pc
    case LockRunner(next) => AtBeginning(next)
    case AtStop(p) => p.StopRead? && !p.recovering
    case AtForce(p) => p.ForceRead?
    case Write(_, _, _, _, _) => Stopping(pc)
    case _ => false
  }

  /** How far a stop has come, and what it has written so far. */
  predicate OnCourse(pc: PC, a: seq<Attempt>) {
    if Leave(pc) then Finished(a) else (Stopping(pc) && Under(a)) || (AtBeginning(pc) && a == [])
  }

  lemma SettleDecides(cfg: Config, st: Row, job: Job, c: Choice)
    requires st.status.Stopping?
    ensures Stopping(DecideStop(cfg, None, StopSettle(st, job), c))
  {
    var next := DecideStop(cfg, None, StopSettle(st, job), c);
    if next.site.StopInspect? { assert Stopping(next.ok); }
  }

  lemma BeginDecides(cfg: Config, read: Option<Row>, job: Job, c: Choice)
    ensures
      var next := DecideStop(cfg, read, StopRead(job, false), c);
      Stopping(next) || next == UnlockRunner(Done)
  {
    if read.Some? {
      var row := Record(read.value, job).(status := Status.Stopping);
      assert Stopping(AtStop(StopSandbox(row.(version := row.version + 1), job)));
    }
  }

  lemma EndDecides(cfg: Config, read: Option<Row>, p: StopPoint, c: Choice)
    requires (p.StopSandbox? || p.StopCleanup?) && p.st.status.Stopping?
    ensures Stopping(DecideStop(cfg, read, p, c))
  {
  }

  lemma StopDecides(cfg: Config, read: Option<Row>, p: StopPoint, c: Choice)
    requires Stopping(AtStop(p)) || AtBeginning(AtStop(p))
    ensures
      var next := DecideStop(cfg, read, p, c);
      Stopping(next) || (next == UnlockRunner(Done) && AtBeginning(AtStop(p)))
  {
    if p.StopSettle? {
      SettleDecides(cfg, p.st, p.job, c);
    } else if p.StopRead? {
      BeginDecides(cfg, read, p.job, c);
    } else {
      EndDecides(cfg, read, p, c);
    }
  }

  lemma ForceBeginDecides(cfg: Config, read: Option<Row>, version: nat, stage: string, c: Choice)
    ensures
      var next := DecideForce(cfg, read, ForceRead(version, stage), c);
      Stopping(next) || next == UnlockRunner(Done)
  {
    if read.Some? {
      var row := read.value.(status := Status.Stopping, failureStage := stage);
      assert Stopping(AtForce(ForceSandbox(row.(version := row.version + 1), stage)));
    }
  }

  lemma ForceDecides(cfg: Config, read: Option<Row>, p: ForcePoint, c: Choice)
    requires Stopping(AtForce(p)) || AtBeginning(AtForce(p))
    ensures
      var next := DecideForce(cfg, read, p, c);
      Stopping(next) || (next == UnlockRunner(Done) && AtBeginning(AtForce(p)))
  {
    if p.ForceRead? { ForceBeginDecides(cfg, read, p.version, p.stage, c); }
  }

  lemma UnderGrows(a: seq<Attempt>, x: Attempt)
    requires Under(a) && x.ok && HalfWay(x.site) && x.row.status.Stopping? && x.row.times.stopping != 0
    ensures Under(a + [x])
  {
  }

  lemma FinishedBy(a: seq<Attempt>, x: Attempt)
    requires Under(a) && (x.ok ==> !HalfWay(x.site) && Resolved(x.row))
    ensures Finished(a + [x])
  {
    assert (a + [x])[..|a|] == a;
  }

  lemma WriteOnCourse(w: World, t: nat, c: Choice, a: seq<Attempt>)
    requires t in w.threads && w.threads[t].pc.Write? && Stopping(w.threads[t].pc) && Under(a)
    ensures OnCourse(RunThread(w, t, c).threads[t].pc, a + AttemptOf(w, Run(t, c), t))
  {
    var Thread(id, pc) := w.threads[t];
    if !WriteSucceeds(w, t, c) {
      FinishedBy(a, Attempt(pc.site, pc.row, false));
    } else if HalfWay(pc.site) {
      UnderGrows(a, Attempt(pc.site, Written(w.rows[id], pc.row, c.now), true));
    } else {
      FinishedBy(a, Attempt(pc.site, Written(w.rows[id], pc.row, c.now), true));
    }
  }

  lemma RunOnCourse(w: World, t: nat, c: Choice, a: seq<Attempt>)
    requires t in w.threads && OnCourse(w.threads[t].pc, a)
    ensures OnCourse(RunThread(w, t, c).threads[t].pc, a + AttemptOf(w, Run(t, c), t))
  {
    var Thread(id, pc) := w.threads[t];
    if pc.Write? {
      WriteOnCourse(w, t, c, a);
    } else {
      assert a + [] == a;
      if pc.AtStop? { StopDecides(w.cfg, ReadRow(w.rows, id, c), pc.stop, c); }
      if pc.AtForce? { ForceDecides(w.cfg, ReadRow(w.rows, id, c), pc.force, c); }
    }
  }

  lemma StepOnCourse(w: World, e: Event, t: nat, a: seq<Attempt>)
    requires t in w.threads && !e.Restart? && OnCourse(w.threads[t].pc, a)
    ensures t in Step(w, e).threads && OnCourse(Step(w, e).threads[t].pc, a + AttemptOf(w, e, t))
  {
    StaysAlive(w, e, t);
    if e.Run? && e.t == t { RunOnCourse(w, t, e.c, a); } else { assert a + [] == a; }
  }

  lemma {:induction false} StopStaysOnCourse(w: World, es: seq<Event>, t: nat, a: seq<Attempt>)
    requires t in w.threads && OnCourse(w.threads[t].pc, a)
    ensures OnCourse(LastPoint(w, es, t), a + Attempts(w, es, t))
    decreases |es|
  {
    if es == [] || es[0].Restart? {
      assert a + [] == a;
    } else {
      StepOnCourse(w, es[0], t, a);
      OneMore(w, es, t, a);
      StopStaysOnCourse(Step(w, es[0]), es[1..], t, a + AttemptOf(w, es[0], t));
    }
  }

  /** The call left its request stopping with nobody assigned to finish it. */
  predicate LeftHalfWay(a: seq<Attempt>) {
    exists i :: 0 <= i < |a| && a[i].ok && HalfWay(a[i].site) && forall j :: i < j < |a| ==> !a[j].ok
  }

  lemma LeftHalfWayExactly(a: seq<Attempt>)
    requires Finished(a)
    ensures LeftHalfWay(a) <==> |a| >= 2 && !a[|a| - 1].ok
  {
    if a != [] {
      var front := a[..|a| - 1];
      assert forall i :: 0 <= i < |front| ==> a[i] == front[i];
      if |a| >= 2 && !a[|a| - 1].ok { assert a[|a| - 2] == front[|a| - 2]; }
    }
  }

  /** How a stop that has come this far stands. */
  predicate StopStands(pc: PC, a: seq<Attempt>) {
    if Leave(pc) then Finished(a) && (LeftHalfWay(a) <==> |a| >= 2 && !a[|a| - 1].ok) else Under(a)
  }

  lemma CourseSaysAll(pc: PC, a: seq<Attempt>)
    requires OnCourse(pc, a)
    ensures StopStands(pc, a)
  {
    if Leave(pc) { LeftHalfWayExactly(a); }
  }

  lemma StopBegins(entry: Entry)
    requires entry.StopRequested? || entry.ForcedStop?
    ensures OnCourse(Enter(entry), [])
  {
    assert AtBeginning(Enter(entry).next);
  }

  lemma CourseEnds(w: World, es: seq<Event>, t: nat)
    requires t in w.threads && OnCourse(w.threads[t].pc, [])
    ensures StopStands(LastPoint(w, es, t), Attempts(w, es, t))
  {
    StopStaysOnCourse(w, es, t, []);
    var last, a := LastPoint(w, es, t), Attempts(w, es, t);
    assert OnCourse(last, a) by { assert [] + a == a; }
    CourseSaysAll(last, a);
  }

  /** A stop or forced stop, whatever else runs and fails meanwhile. At every moment,
      and so also if the process dies, it has written nothing but stopping rows
      that the sweeper will find. Once it is over, it has resolved its request,
      written nothing, or been refused its last write; and it leaves the request
      half-stopped exactly when that refusal came after an earlier write. */
  lemma StopsResolve(w: World, t: nat, id: string, entry: Entry, es: seq<Event>)
    requires t !in w.threads && (entry.StopRequested? || entry.ForcedStop?)
    ensures
      var w' := Step(w, Call(t, id, entry));
      StopStands(LastPoint(w', es, t), Attempts(w', es, t))
  {
    StopBegins(entry);
    CourseEnds(Step(w, Call(t, id, entry)), es, t);
  }

  // ---- Starting: startRunner ---------------------------------------------------------------------

  /** The order in which a start call may change its request. */
  function PhaseOf(site: Site): nat {
    if site.StartCreating? then 0 else if site.ConfigSnapshot? then 1 else 2
  }

  /** The earliest change still ahead of a start call. */
  function Phase(pc: PC): nat {
    match pc
    case Done => 3
    case LockRunner(next) => Phase(next)
    case UnlockRunner(next) => Phase(next)
    case LockAdmission(next) => Phase(next)
    case UnlockAdmission(next) => Phase(next)
    case ReleaseLease(next) => Phase(next)
    case Write(site, _, _, _, _) => PhaseOf(site)
    case AtStart(p) =>
      if p.StartRead? || p.StartProfile? || p.StartCount? || p.StartCountProfile? then 0
      else if p.StartJob? || p.StartConfig? || p.StartSnapshot? then 1 else 2
    case _ => 2
  }

  /** The call has moved the request to creating and may still snapshot or run it. */
  predicate PastCreating(pc: PC) {
    match pc
    case LockRunner(next) => PastCreating(next)
    case UnlockRunner(next) => PastCreating(next)
    case LockAdmission(next) => PastCreating(next)
    case UnlockAdmission(next) => PastCreating(next)
    case ReleaseLease(next) => PastCreating(next)
    case Write(site, _, _, _, _) => site.ConfigSnapshot? || site.StartRunning?
    case AtStart(p) => p.StartJob? || p.StartConfig? || p.StartSnapshot? || p.StartSandbox? || p.StartRecheck?
    case _ => false
  }

  /** A continuation of a start call. */
  predicate Starting(pc: PC) {
    match pc
    case Done => true
    case LockRunner(next) => Starting(next)
    case UnlockRunner(next) => Starting(next)
    case LockAdmission(next) => Starting(next)
    case UnlockAdmission(next) => Starting(next)
    case ReleaseLease(next) => Starting(next)
    case Write(site, _, _, ok, fail) =>
      && Starting(ok) && Starting(fail)
      && PhaseOf(site) < Phase(ok) && PhaseOf(site) <= Phase(fail)
      && (PastCreating(ok) ==> site.StartCreating? || PastCreating(pc))
      && (PastCreating(fail) ==> PastCreating(pc))
    case AtStart(_) => true
    case AtSettle(p) => p.FailRead? || p.DeferRead? || p.SkipRead?
    case _ => false
  }

  /** What a decision may make of a start call. */
  predicate Onward(pc: PC, next: PC) {
    Starting(next) && Phase(pc) <= Phase(next) && (PastCreating(next) ==> PastCreating(pc))
  }

  lemma LeavesStarting()
    ensures Starting(UnlockRunner(Done)) && Phase(UnlockRunner(Done)) == 3 && !PastCreating(UnlockRunner(Done))
    ensures
      var pc := UnlockRunner(ReleaseLease(Done));
      Starting(pc) && Phase(pc) == 3 && !PastCreating(pc)
    ensures
      var pc := ReleaseLease(UnlockRunner(Done));
      Starting(pc) && Phase(pc) == 3 && !PastCreating(pc)
    ensures
      var pc := LeaveAdmission(ReleaseLease(Done));
      Starting(pc) && Phase(pc) == 3 && !PastCreating(pc)
  {
    var release := ReleaseLease(Done);
    assert Starting(release) && Phase(release) == 3 && !PastCreating(release);
    var leave := UnlockRunner(release);
    assert Starting(leave) && Phase(leave) == 3 && !PastCreating(leave);
  }

  lemma FailWithStarting(st: Row, source: string, stage: string, error: ErrorClass)
    ensures
      var pc := FailWith(st, source, stage, error);
      Starting(pc) && Phase(pc) == 2 && !PastCreating(pc)
  {
    var at := AtSettle(FailRead(st, source, stage, error));
    assert Starting(at) && Phase(at) == 2 && !PastCreating(at);
  }

  lemma AdmissionStarting(cfg: Config, st: Row, now: Clock)
    ensures Starting(BeginCreating(cfg, st, now)) && Phase(BeginCreating(cfg, st, now)) == 0 && !PastCreating(BeginCreating(cfg, st, now))
    ensures Starting(Defer(now)) && Phase(Defer(now)) == 2 && !PastCreating(Defer(now))
  {
    LeavesStarting();
    var row := st.(status := Creating, lease := Lease(cfg.workerId, now + cfg.leaseTtl));
    var at := AtStart(StartJob(row));
    assert Starting(at) && Phase(at) == 1 && PastCreating(at);
    var job := UnlockRunner(at);
    assert Starting(job) && Phase(job) == 1 && PastCreating(job);
    var created := UnlockAdmission(job);
    assert Starting(created) && Phase(created) == 1;
    var read := AtSettle(DeferRead(now + 5_000_000_000));
    assert Starting(read) && Phase(read) == 2 && !PastCreating(read);
    var defer := LockRunner(read);
    assert Starting(defer) && Phase(defer) == 2 && !PastCreating(defer);
    var unlocked := UnlockRunner(defer);
    assert Starting(unlocked) && Phase(unlocked) == 2 && !PastCreating(unlocked);
  }

  lemma PreparationOnward(cfg: Config, rows: Rows, profiles: map<string, int>, read: Option<Row>, p: StartPoint, c: Choice)
    requires p.StartJob? || p.StartConfig? || p.StartSnapshot? || p.StartSandbox?
    ensures Onward(AtStart(p), DecideStart(cfg, rows, profiles, read, p, c))
  {
    var stage := if p.StartJob? then "github_job_status" else if p.StartSandbox? then c.stage else "sandbox_config";
    FailWithStarting(p.st, p.st.configSource, stage, c.error);
    if p.StartSnapshot? && read.Some? {
      FailWithStarting(read.value, p.source, "sandbox_config", c.error);
      var at := AtStart(StartSandbox(p.st));
      assert Starting(at) && Phase(at) == 2 && PastCreating(at);
    }
    var recheck := AtStart(StartRecheck(c.sandbox, c.pid));
    assert Starting(recheck) && Phase(recheck) == 2 && PastCreating(recheck);
  }

  lemma RecheckOnward(cfg: Config, rows: Rows, profiles: map<string, int>, read: Option<Row>, sandbox: string, pid: nat, c: Choice)
    ensures Onward(AtStart(StartRecheck(sandbox, pid)), DecideStart(cfg, rows, profiles, read, StartRecheck(sandbox, pid), c))
  {
    LeavesStarting();
    var at := AtStart(StartCleanup(sandbox, pid));
    assert Starting(at) && Phase(at) == 2 && !PastCreating(at);
    var cleanup := UnlockRunner(at);
    assert Starting(cleanup) && Phase(cleanup) == 2 && !PastCreating(cleanup);
  }

  lemma ProfileOnward(cfg: Config, rows: Rows, profiles: map<string, int>, read: Option<Row>, st: Row, c: Choice)
    ensures Onward(AtStart(StartProfile(st)), DecideStart(cfg, rows, profiles, read, StartProfile(st), c))
  {
    FailWithStarting(st, st.configSource, "profile_lookup", c.error);
    if !c.fault && st.req.profile in profiles {
      var count := AtStart(StartCount(st, profiles[st.req.profile]));
      assert Starting(count) && !PastCreating(count);
    } else {
      var fail := FailWith(st, st.configSource, "profile_lookup", c.error);
      assert Starting(UnlockRunner(fail)) && Phase(UnlockRunner(fail)) == 2 && !PastCreating(UnlockRunner(fail));
    }
  }

  lemma StartOnward(cfg: Config, rows: Rows, profiles: map<string, int>, read: Option<Row>, p: StartPoint, c: Choice)
    ensures Onward(AtStart(p), DecideStart(cfg, rows, profiles, read, p, c))
  {
    if p.StartJob? || p.StartConfig? || p.StartSnapshot? || p.StartSandbox? {
      PreparationOnward(cfg, rows, profiles, read, p, c);
    } else if p.StartRecheck? {
      RecheckOnward(cfg, rows, profiles, read, p.sandbox, p.pid, c);
    } else if p.StartProfile? {
      ProfileOnward(cfg, rows, profiles, read, p.st, c);
    } else {
      LeavesStarting();
      if p.StartCount? || p.StartCountProfile? { AdmissionStarting(cfg, p.st, c.now); }
    }
  }

  lemma SettleOnward(cfg: Config, read: Option<Row>, p: SettlePoint, c: Choice)
    requires p.FailRead? || p.DeferRead? || p.SkipRead?
    ensures Onward(AtSettle(p), DecideSettle(cfg, read, p, c))
  {
    LeavesStarting();
  }

  /** The successful writes so far are in order, before phase `bound`, and running follows creating. */
  predicate InOrder(a: seq<Attempt>, bound: nat) {
    && (forall i :: 0 <= i < |a| && a[i].ok ==> PhaseOf(a[i].site) < bound)
    && (forall i, j :: 0 <= i < j < |a| && a[i].ok && a[j].ok ==> PhaseOf(a[i].site) < PhaseOf(a[j].site))
    && (forall j :: 0 <= j < |a| && a[j].ok && a[j].site.StartRunning? ==> HasCreated(a[..j]))
  }

  predicate HasCreated(a: seq<Attempt>) {
    exists i :: 0 <= i < |a| && a[i].ok && a[i].site.StartCreating?
  }

  predicate StartCourse(pc: PC, a: seq<Attempt>) {
    Starting(pc) && InOrder(a, Phase(pc)) && (PastCreating(pc) ==> HasCreated(a))
  }

  lemma InOrderNext(a: seq<Attempt>, x: Attempt, bound: nat)
    requires InOrder(a, PhaseOf(x.site)) && (x.ok ==> PhaseOf(x.site) < bound) && PhaseOf(x.site) <= bound
    requires x.ok && x.site.StartRunning? ==> HasCreated(a)
    ensures InOrder(a + [x], bound)
    ensures HasCreated(a) || (x.ok && x.site.StartCreating?) ==> HasCreated(a + [x])
  {
    var b := a + [x];
    assert forall j :: 0 <= j <= |a| ==> b[..j] == a[..j];
    assert a[..|a|] == a;
    if HasCreated(a) {
      var i :| 0 <= i < |a| && a[i].ok && a[i].site.StartCreating?;
      assert b[i] == a[i];
    }
    if x.ok && x.site.StartCreating? { assert b[|a|] == x; }
  }

  lemma StartStep(w: World, e: Event, t: nat, a: seq<Attempt>)
    requires t in w.threads && !e.Restart? && StartCourse(w.threads[t].pc, a)
    ensures t in Step(w, e).threads && StartCourse(Step(w, e).threads[t].pc, a + AttemptOf(w, e, t))
  {
    StaysAlive(w, e, t);
    if e.Run? && e.t == t { StartRun(w, t, e.c, a); } else { assert a + [] == a; }
  }

  lemma StartWrite(w: World, t: nat, c: Choice, a: seq<Attempt>)
    requires t in w.threads && w.threads[t].pc.Write? && StartCourse(w.threads[t].pc, a)
    ensures t in RunThread(w, t, c).threads && StartCourse(RunThread(w, t, c).threads[t].pc, a + AttemptOf(w, Run(t, c), t))
  {
    var Thread(id, pc) := w.threads[t];
    if WriteSucceeds(w, t, c) {
      InOrderNext(a, Attempt(pc.site, Written(w.rows[id], pc.row, c.now), true), Phase(pc.ok));
    } else {
      InOrderNext(a, Attempt(pc.site, pc.row, false), Phase(pc.fail));
    }
  }

  lemma StartRun(w: World, t: nat, c: Choice, a: seq<Attempt>)
    requires t in w.threads && StartCourse(w.threads[t].pc, a)
    ensures t in RunThread(w, t, c).threads && StartCourse(RunThread(w, t, c).threads[t].pc, a + AttemptOf(w, Run(t, c), t))
  {
    var Thread(id, pc) := w.threads[t];
    if pc.Write? {
      StartWrite(w, t, c, a);
    } else {
      assert a + [] == a;
      if pc.AtStart? { StartOnward(w.cfg, w.rows, w.profiles, ReadRow(w.rows, id, c), pc.start, c); }
      if pc.AtSettle? { SettleOnward(w.cfg, ReadRow(w.rows, id, c), pc.settle, c); }
    }
  }

  lemma {:induction false} StartsStayInOrder(w: World, es: seq<Event>, t: nat, a: seq<Attempt>)
    requires t in w.threads && StartCourse(w.threads[t].pc, a)
    ensures InOrder(a + Attempts(w, es, t), Phase(LastPoint(w, es, t)))
    decreases |es|
  {
    if es == [] || es[0].Restart? {
      assert a + [] == a;
    } else {
      StartStep(w, es[0], t, a);
      OneMore(w, es, t, a);
      StartsStayInOrder(Step(w, es[0]), es[1..], t, a + AttemptOf(w, es[0], t));
    }
  }

  /** A start call, whatever else runs and fails meanwhile, changes its request at
      most three times and in order: to creating, the configuration snapshot, and
      one last time; and it writes running only after it wrote creating itself. */
  lemma StartsAreOrderly(w: World, t: nat, id: string, now: Clock, es: seq<Event>)
    requires t !in w.threads && NextRunnable(w.rows, id, now)
    ensures InOrder(Attempts(Step(w, Claim(t, id, now)), es, t), 3)
  {
    var w' := Step(w, Claim(t, id, now));
    assert Starting(AtStart(StartRead)) && Phase(AtStart(StartRead)) == 0 && !PastCreating(AtStart(StartRead));
    StartsStayInOrder(w', es, t, []);
    assert [] + Attempts(w', es, t) == Attempts(w', es, t);
    PhaseBound(LastPoint(w', es, t));
  }

  lemma PhaseBound(pc: PC)
    ensures Phase(pc) <= 3
  {
  }

  // ---- Exits: runnerExited ---------------------------------------------------------------------------

  /** A continuation of runnerExited for this exit: one more write at most, and none
      that completes the request unless the process ended well. */
  predicate Exiting(pc: PC, exit: Exit) {
    match pc
    case Done => true
    case LockRunner(next) => Exiting(next, exit)
    case UnlockRunner(next) => Exiting(next, exit)
    case Write(_, _, row, ok, fail) => (row.status.Completed? ==> exit.CleanExit?) && ok == UnlockRunner(Done) && Exiting(fail, exit)
    case AtExit(p) => p.exit == exit
    case _ => false
  }

  lemma ExitSettles(cfg: Config, st: Row, exit: Exit, c: Choice)
    ensures Exiting(ExitSettle(cfg, st, exit, c), exit)
  {
    assert Exiting(UnlockRunner(Done), exit);
  }

  lemma ExitDecides(cfg: Config, read: Option<Row>, p: ExitPoint, c: Choice)
    ensures Exiting(DecideExit(cfg, read, p, c), p.exit)
  {
    assert Exiting(UnlockRunner(Done), p.exit);
    var at := AtExit(ExitReread(p.exit));
    assert Exiting(at, p.exit);
    assert Exiting(LockRunner(at), p.exit);
    if read.Some? { ExitSettles(cfg, read.value, p.exit, c); }
  }

  /** At most the last write succeeded, and it completes only after a clean exit. */
  predicate ExitCourse(pc: PC, exit: Exit, a: seq<Attempt>) {
    && Exiting(pc, exit)
    && (forall i :: 0 <= i < |a| && a[i].ok ==> i == |a| - 1 && Leave(pc) && (a[i].row.status.Completed? ==> exit.CleanExit?))
  }

  lemma ExitRun(w: World, t: nat, c: Choice, exit: Exit, a: seq<Attempt>)
    requires t in w.threads && ExitCourse(w.threads[t].pc, exit, a)
    ensures t in RunThread(w, t, c).threads && ExitCourse(RunThread(w, t, c).threads[t].pc, exit, a + AttemptOf(w, Run(t, c), t))
  {
    var Thread(id, pc) := w.threads[t];
    if pc.Write? {
      assert Exiting(UnlockRunner(Done), exit);
    } else {
      assert a + [] == a;
      if pc.AtExit? { ExitDecides(w.cfg, ReadRow(w.rows, id, c), pc.exit, c); }
    }
  }

  lemma ExitStep(w: World, e: Event, t: nat, exit: Exit, a: seq<Attempt>)
    requires t in w.threads && !e.Restart? && ExitCourse(w.threads[t].pc, exit, a)
    ensures t in Step(w, e).threads && ExitCourse(Step(w, e).threads[t].pc, exit, a + AttemptOf(w, e, t))
  {
    StaysAlive(w, e, t);
    if e.Run? && e.t == t { ExitRun(w, t, e.c, exit, a); } else { assert a + [] == a; }
  }

  lemma {:induction false} ExitsStayOnCourse(w: World, es: seq<Event>, t: nat, exit: Exit, a: seq<Attempt>)
    requires t in w.threads && ExitCourse(w.threads[t].pc, exit, a)
    ensures ExitCourse(LastPoint(w, es, t), exit, a + Attempts(w, es, t))
    decreases |es|
  {
    if es == [] || es[0].Restart? {
      assert a + [] == a;
    } else {
      ExitStep(w, es[0], t, exit, a);
      OneMore(w, es, t, a);
      ExitsStayOnCourse(Step(w, es[0]), es[1..], t, exit, a + AttemptOf(w, es[0], t));
    }
  }

  /** An exit callback, whatever else runs and fails meanwhile, writes at most once
      with success, and never completes its request unless the process ended well. */
  lemma ExitsCompleteOnlyCleanly(w: World, t: nat, id: string, exit: Exit, es: seq<Event>)
    requires t !in w.threads
    ensures
      var a := Attempts(Step(w, Call(t, id, RunnerProcessExited(exit))), es, t);
      forall i :: 0 <= i < |a| && a[i].ok ==> i == |a| - 1 && (a[i].row.status.Completed? ==> exit.CleanExit?)
  {
    var w' := Step(w, Call(t, id, RunnerProcessExited(exit)));
    assert Exiting(AtExit(ExitRead(exit)), exit);
    ExitsStayOnCourse(w', es, t, exit, []);
    assert [] + Attempts(w', es, t) == Attempts(w', es, t);
  }
}
