/** The locks of the runner lifecycle: the request mutexes exclude, nothing can
    deadlock on them and the admission mutex, and every call ends. */
module RunnerLocks {
  import opened Common
  import opened RunnerRows
  import opened RunnerCalls
  import opened RunnerMachine
  import opened RunnerInvariant

  /** Two calls between lock and unlock of the same request are the same call. */
  lemma MutualExclusion(w: World, t: nat, u: nat)
    requires Inv(w) && t in w.threads && u in w.threads
    requires HoldsRunner(w.threads[t].pc) && HoldsRunner(w.threads[u].pc) && w.threads[t].id == w.threads[u].id
    ensures t == u
  {
  }

  /** The call is not finished and not waiting for a mutex another call holds. */
  predicate Enabled(w: World, t: nat) {
    t in w.threads &&
    match w.threads[t].pc
    case Done => false
    case LockRunner(_) => Stripe(w.cfg, w.threads[t].id) !in w.locks
    case LockAdmission(_) => w.admission.None?
    case _ => true
  }

  /** In every reachable state in which some call is unfinished, some call can
      move: a holder of the admission mutex waits for nothing, and a holder of
      a request mutex waits at most for the admission mutex. */
  lemma DeadlockFree(w: World, t: nat) returns (u: nat)
    requires Inv(w) && t in w.threads && !w.threads[t].pc.Done?
    ensures Enabled(w, u)
  {
    u := t;
    if !Enabled(w, u) && w.threads[u].pc.LockRunner? {
      u := w.locks[Stripe(w.cfg, w.threads[u].id)];
    }
    if !Enabled(w, u) {
      u := w.admission.value;
    }
  }

  /** An upper bound on the steps a call still takes. */
  function Rank(pc: PC): nat {
    match pc
    case Done => 0
    case LockRunner(next) => 1 + Rank(next)
    case UnlockRunner(next) => 1 + Rank(next)
    case LockAdmission(next) => 1 + Rank(next)
    case UnlockAdmission(next) => 1 + Rank(next)
    case ReleaseLease(next) => 1 + Rank(next)
    case Write(_, _, _, ok, fail) => 1 + Max(Rank(ok), Rank(fail))
    case AtStart(p) => StartRank(p)
    case AtSettle(p) => if p.DeferRead? || p.SkipRead? then 4 else 3
    case AtExit(p) =>
      (match p case ExitRead(_) => 11 case ExitBusy(_, _) => 9 case ExitBusyRead(_, _) => 7 case ExitReread(_) => 3)
    case AtStop(p) =>
      (match p
       case StopRead(_, recovering) => if recovering then 10 else 8
       case StopSandbox(_, _) => 6
       case StopCleanup(_, _) => 5
       case StopSettle(_, _) => 4)
    case AtForce(p) => (match p case ForceRead(_, _) => 6 case ForceSandbox(_, _) => 4 case ForceCleanup(_, _) => 3)
    case AtRecover(p) =>
      (match p
       case RecoverRead => 14
       case RecoverJob(_) => 12
       case RecoverConnect(_, _) => 8
       case RecoverAttach(_, _, _) => 3
       case RequeueRead(_) => 3)
    case AtReconcile(p) =>
      if p.MismatchRead? || p.CompleteRead? then 7 else if p.MismatchQuery? || p.CompleteQuery? then 5 else 3
  }

  function StartRank(p: StartPoint): nat {
    match p
    case StartRead => 18
    case StartProfile(_) => 17
    case StartCount(_, _) => 15
    case StartCountProfile(_, _) => 14
    case StartJob(_) => 10
    case StartConfig(_) => 9
    case StartSnapshot(_, _) => 8
    case StartSandbox(_) => 6
    case StartRecheck(_, _) => 4
    case StartCleanup(_, _) => 1
  }

  lemma LeaveRank()
    ensures Rank(UnlockRunner(Done)) == 1
    ensures Rank(UnlockRunner(ReleaseLease(Done))) == 2
    ensures Rank(ReleaseLease(UnlockRunner(Done))) == 2
    ensures Rank(LeaveAdmission(ReleaseLease(Done))) == 3
  {
    assert Rank(ReleaseLease(Done)) == 1;
    assert Rank(UnlockRunner(ReleaseLease(Done))) == 2;
  }

  lemma FailWithRank(st: Row, source: string, stage: string, error: ErrorClass)
    ensures Rank(FailWith(st, source, stage, error)) == 4
  {
    assert Rank(AtSettle(FailRead(st, source, stage, error))) == 3;
  }

  lemma AdmissionRank(cfg: Config, st: Row, now: Clock)
    ensures Rank(BeginCreating(cfg, st, now)) == 13
    ensures Rank(Defer(now)) == 7
  {
    LeaveRank();
    var row := st.(status := Creating, lease := Lease(cfg.workerId, now + cfg.leaseTtl));
    assert Rank(UnlockRunner(AtStart(StartJob(row)))) == 11;
    assert Rank(LeaveAdmission(AtStart(StartJob(row)))) == 12;
    var defer := LockRunner(AtSettle(DeferRead(now + 5_000_000_000)));
    assert Rank(defer) == 5;
    assert Rank(UnlockRunner(defer)) == 6;
  }

  lemma StartRankFalls(cfg: Config, rows: Rows, profiles: map<string, int>, read: Option<Row>, p: StartPoint, c: Choice)
    ensures Rank(DecideStart(cfg, rows, profiles, read, p, c)) < StartRank(p)
  {
    LeaveRank();
    match p
    case StartRead =>
    case StartProfile(st) => FailWithRank(st, st.configSource, "profile_lookup", c.error);
    case StartCount(st, limit) => AdmissionRank(cfg, st, c.now);
    case StartCountProfile(st, limit) => AdmissionRank(cfg, st, c.now);
    case StartJob(st) => FailWithRank(st, st.configSource, "github_job_status", c.error);
    case StartConfig(st) => FailWithRank(st, st.configSource, "sandbox_config", c.error);
    case StartSnapshot(st, source) =>
      FailWithRank(st, st.configSource, "sandbox_config", c.error);
      if read.Some? { FailWithRank(read.value, source, "sandbox_config", c.error); }
    case StartSandbox(st) => FailWithRank(st, st.configSource, c.stage, c.error);
    case StartRecheck(sandbox, pid) => assert Rank(UnlockRunner(AtStart(StartCleanup(sandbox, pid)))) == 2;
    case StartCleanup(sandbox, pid) =>
  }

  lemma ExitRankFalls(cfg: Config, read: Option<Row>, p: ExitPoint, c: Choice)
    ensures Rank(DecideExit(cfg, read, p, c)) < Rank(AtExit(p))
  {
    LeaveRank();
    assert Rank(LockRunner(AtExit(ExitReread(p.exit)))) == 4;
    assert Rank(UnlockRunner(LockRunner(AtExit(ExitReread(p.exit))))) == 5;
  }

  lemma StopRankFalls(cfg: Config, read: Option<Row>, p: StopPoint, c: Choice)
    ensures Rank(DecideStop(cfg, read, p, c)) < Rank(AtStop(p))
  {
    LeaveRank();
  }

  lemma RecoverRankFalls(cfg: Config, read: Option<Row>, p: RecoverPoint, c: Choice)
    ensures Rank(DecideRecover(cfg, read, p, c)) < Rank(AtRecover(p))
  {
    LeaveRank();
    assert Rank(LockRunner(AtStop(StopRead(NO_JOB, false)))) == 9;
  }

  lemma DecideRankFalls(cfg: Config, rows: Rows, profiles: map<string, int>, read: Option<Row>, pc: PC, c: Choice)
    requires AtPoint(pc)
    ensures Rank(Decide(cfg, rows, profiles, read, pc, c)) < Rank(pc)
  {
    LeaveRank();
    match pc
    case AtStart(p) => StartRankFalls(cfg, rows, profiles, read, p, c);
    case AtSettle(p) =>
    case AtExit(p) => ExitRankFalls(cfg, read, p, c);
    case AtStop(p) => StopRankFalls(cfg, read, p, c);
    case AtForce(p) =>
    case AtRecover(p) => RecoverRankFalls(cfg, read, p, c);
    case AtReconcile(p) =>
  }

  /** Each step of an enabled call brings it nearer its end, so a call ends
      after at most as many steps of its own as its rank. */
  lemma StepsRunOut(w: World, t: nat, c: Choice)
    requires Enabled(w, t)
    ensures t in Step(w, Run(t, c)).threads
    ensures Rank(Step(w, Run(t, c)).threads[t].pc) < Rank(w.threads[t].pc)
  {
    var Thread(id, pc) := w.threads[t];
    if AtPoint(pc) {
      DecideRankFalls(w.cfg, w.rows, w.profiles, ReadRow(w.rows, id, c), pc, c);
    }
  }

  lemma StartingRank(e: Entry)
    ensures Rank(Enter(e)) <= 15 && Rank(LockRunner(AtStart(StartRead))) == 19
  {
    assert Rank(AtStart(StartRead)) == 18;
  }

  /** The steps call `t` takes in a run before the process dies, not counting the
      times it is scheduled in vain because a mutex is taken. */
  function StepsTaken(w: World, es: seq<Event>, t: nat): nat
    decreases |es|
  {
    if es == [] || es[0].Restart? then 0
    else (if es[0].Run? && es[0].t == t && Enabled(w, t) then 1 else 0) + StepsTaken(Step(w, es[0]), es[1..], t)
  }

  lemma OthersKeepRank(w: World, e: Event, t: nat)
    requires t in w.threads && !e.Restart? && !(e.Run? && e.t == t && Enabled(w, t))
    ensures t in Step(w, e).threads && Step(w, e).threads[t] == w.threads[t]
  {
    if e.Run? && e.t in w.threads && e.t != t { RunTouchesOnlyItself(w, e.t, e.c); }
  }

  lemma {:induction false} StepsWithinRank(w: World, es: seq<Event>, t: nat)
    requires t in w.threads
    ensures StepsTaken(w, es, t) <= Rank(w.threads[t].pc)
    decreases |es|
  {
    if es != [] && !es[0].Restart? {
      if es[0].Run? && es[0].t == t && Enabled(w, t) {
        StepsRunOut(w, t, es[0].c);
      } else {
        OthersKeepRank(w, es[0], t);
      }
      StepsWithinRank(Step(w, es[0]), es[1..], t);
    }
  }

  /** Whatever else runs, a claimed start call takes at most 19 steps of its own
      and every other call at most 15. */
  lemma CallsAreShort(w: World, e: Event, es: seq<Event>)
    requires e.Call? || (e.Claim? && NextRunnable(w.rows, e.id, e.now))
    requires e.t !in w.threads
    ensures StepsTaken(Step(w, e), es, e.t) <= if e.Claim? then 19 else 15
  {
    if e.Call? { StartingRank(e.entry); } else { StartingRank(RunnerAcceptedJob); }
    StepsWithinRank(Step(w, e), es, e.t);
  }
}
