/** No sandbox is lost between the sandbox service and the store: each one
    StartRunner returns is either written into its request by one
    creating-to-running write or handed to the clean-up, never both. */
module RunnerSandboxes {
  import opened Common
  import opened RunnerRows
  import opened RunnerCalls
  import opened RunnerMachine
  import opened RunnerInvariant
  import opened RunnerHistory

  datatype Sandbox = Sandbox(id: string, pid: nat)

  type Sandboxes = multiset<Sandbox>

  function Bag(o: Option<Sandbox>): Sandboxes {
    if o.Some? then multiset{o.value} else multiset{}
  }

  /** The sandbox a call has been given and has not placed yet. */
  function Holding(pc: PC): Option<Sandbox> {
    match pc
    case LockRunner(next) => Holding(next)
    case UnlockRunner(next) => Holding(next)
    case LockAdmission(next) => Holding(next)
    case UnlockAdmission(next) => Holding(next)
    case ReleaseLease(next) => Holding(next)
    case Write(site, _, row, _, _) => if site.StartRunning? then Some(Sandbox(row.sandbox, row.pid)) else None
    case AtStart(p) =>
      (match p
       case StartRecheck(sandbox, pid) => Some(Sandbox(sandbox, pid))
       case StartCleanup(sandbox, pid) => Some(Sandbox(sandbox, pid))
       case _ => None)
    case _ => None
  }

  /** A failed running write keeps the sandbox, a successful one places it, no other write has one. */
  predicate Tidy(pc: PC) {
    match pc
    case LockRunner(next) => Tidy(next)
    case UnlockRunner(next) => Tidy(next)
    case LockAdmission(next) => Tidy(next)
    case UnlockAdmission(next) => Tidy(next)
    case ReleaseLease(next) => Tidy(next)
    case Write(_, _, _, ok, fail) => Holding(ok) == None && Holding(fail) == Holding(pc) && Tidy(ok) && Tidy(fail)
    case _ => true
  }

  function HeldBy(w: World, t: nat): Option<Sandbox> {
    if t in w.threads then Holding(w.threads[t].pc) else None
  }

  /** What a point takes in from StartRunner, and what it hands to cleanupStartedSandbox. */
  function TakenIn(pc: PC, c: Choice): Option<Sandbox> {
    if pc.AtStart? && pc.start.StartSandbox? && !c.fault then Some(Sandbox(c.sandbox, c.pid)) else None
  }

  function HandedOut(pc: PC): Option<Sandbox> {
    if pc.AtStart? && pc.start.StartCleanup? then Some(Sandbox(pc.start.sandbox, pc.start.pid)) else None
  }

  /** What StartRunner returned to call `t` in this event. */
  function Started(w: World, e: Event, t: nat): Option<Sandbox> {
    if e.Run? && e.t == t && t in w.threads then TakenIn(w.threads[t].pc, e.c) else None
  }

  /** What call `t` wrote into its request as running in this event. */
  function Adopted(w: World, e: Event, t: nat): Option<Sandbox> {
    if e.Run? && e.t == t && WriteSucceeds(w, t, e.c) then Holding(w.threads[t].pc) else None
  }

  /** What call `t` handed to the clean-up in this event. */
  function CleanedUp(w: World, e: Event, t: nat): Option<Sandbox> {
    if e.Run? && e.t == t && t in w.threads then HandedOut(w.threads[t].pc) else None
  }

  lemma LeaveTidy()
    ensures Tidy(UnlockRunner(Done)) && Holding(UnlockRunner(Done)) == None
    ensures Tidy(UnlockRunner(ReleaseLease(Done))) && Holding(UnlockRunner(ReleaseLease(Done))) == None
    ensures Tidy(ReleaseLease(UnlockRunner(Done))) && Holding(ReleaseLease(UnlockRunner(Done))) == None
    ensures Tidy(LeaveAdmission(ReleaseLease(Done))) && Holding(LeaveAdmission(ReleaseLease(Done))) == None
  {
    assert Tidy(ReleaseLease(Done)) && Holding(ReleaseLease(Done)) == None;
    var leave := UnlockRunner(ReleaseLease(Done));
    assert Tidy(leave) && Holding(leave) == None;
  }

  lemma AdmissionTidy(cfg: Config, st: Row, now: Clock)
    ensures Tidy(BeginCreating(cfg, st, now)) && Holding(BeginCreating(cfg, st, now)) == None
    ensures Tidy(Defer(now)) && Holding(Defer(now)) == None
  {
    LeaveTidy();
    var row := st.(status := Creating, lease := Lease(cfg.workerId, now + cfg.leaseTtl));
    var at := AtStart(StartJob(row));
    assert Tidy(at) && Holding(at) == None;
    var job := UnlockRunner(at);
    assert Tidy(job) && Holding(job) == None;
    assert Tidy(LeaveAdmission(AtStart(StartJob(row)))) && Holding(LeaveAdmission(AtStart(StartJob(row)))) == None;
    var read := AtSettle(DeferRead(now + 5_000_000_000));
    assert Tidy(read) && Holding(read) == None;
    var defer := LockRunner(read);
    assert Tidy(defer) && Holding(defer) == None;
    assert Tidy(UnlockRunner(defer)) && Holding(UnlockRunner(defer)) == None;
  }

  lemma FailWithTidy(st: Row, source: string, stage: string, error: ErrorClass)
    ensures Tidy(FailWith(st, source, stage, error)) && Holding(FailWith(st, source, stage, error)) == None
  {
    var read := AtSettle(FailRead(st, source, stage, error));
    assert Tidy(read) && Holding(read) == None;
  }

  lemma RecheckTidy(read: Option<Row>, sandbox: string, pid: nat)
    ensures
      var cleanup := UnlockRunner(AtStart(StartCleanup(sandbox, pid)));
      && Tidy(cleanup) && Holding(cleanup) == Some(Sandbox(sandbox, pid))
      && (read.Some? ==>
            var pc := Write(StartRunning, read.value, Unleased(read.value).(status := Running, sandbox := sandbox, pid := pid),
                            UnlockRunner(Done), cleanup);
            Tidy(pc) && Holding(pc) == Some(Sandbox(sandbox, pid)))
  {
    LeaveTidy();
    var at := AtStart(StartCleanup(sandbox, pid));
    assert Tidy(at) && Holding(at) == Some(Sandbox(sandbox, pid));
  }

  /** A call holds one sandbox at most: taking one in or handing one out is
      the only way its holding changes at a point. */
  predicate Conserves(pc: PC, c: Choice, next: PC) {
    && Tidy(next)
    && (TakenIn(pc, c).Some? ==> Holding(pc) == None && Holding(next) == TakenIn(pc, c))
    && (HandedOut(pc).Some? ==> Holding(pc) == HandedOut(pc) && Holding(next) == None)
    && (TakenIn(pc, c).None? && HandedOut(pc).None? ==> Holding(next) == Holding(pc))
  }

  lemma PreparationConserves(cfg: Config, rows: Rows, profiles: map<string, int>, read: Option<Row>, p: StartPoint, c: Choice)
    requires p.StartJob? || p.StartConfig? || p.StartSnapshot? || p.StartSandbox?
    ensures Conserves(AtStart(p), c, DecideStart(cfg, rows, profiles, read, p, c))
  {
    var stage := if p.StartJob? then "github_job_status" else if p.StartSandbox? then c.stage else "sandbox_config";
    FailWithTidy(p.st, p.st.configSource, stage, c.error);
    if p.StartSnapshot? && read.Some? {
      FailWithTidy(read.value, p.source, "sandbox_config", c.error);
    }
    assert Holding(AtStart(StartRecheck(c.sandbox, c.pid))) == Some(Sandbox(c.sandbox, c.pid));
  }

  lemma StartConserves(cfg: Config, rows: Rows, profiles: map<string, int>, read: Option<Row>, p: StartPoint, c: Choice)
    ensures Conserves(AtStart(p), c, DecideStart(cfg, rows, profiles, read, p, c))
  {
    if p.StartJob? || p.StartConfig? || p.StartSnapshot? || p.StartSandbox? {
      PreparationConserves(cfg, rows, profiles, read, p, c);
    } else if p.StartRecheck? {
      RecheckTidy(read, p.sandbox, p.pid);
    } else if p.StartProfile? {
      FailWithTidy(p.st, p.st.configSource, "profile_lookup", c.error);
    } else {
      LeaveTidy();
      if p.StartCount? || p.StartCountProfile? { AdmissionTidy(cfg, p.st, c.now); }
    }
  }

  lemma SettleConserves(cfg: Config, read: Option<Row>, p: SettlePoint, c: Choice)
    ensures var next := DecideSettle(cfg, read, p, c); Tidy(next) && Holding(next) == None
  {
    LeaveTidy();
  }

  lemma ForceConserves(cfg: Config, read: Option<Row>, p: ForcePoint, c: Choice)
    ensures var next := DecideForce(cfg, read, p, c); Tidy(next) && Holding(next) == None
  {
    LeaveTidy();
  }

  lemma ReconcileConserves(cfg: Config, read: Option<Row>, p: ReconcilePoint, c: Choice)
    ensures var next := DecideReconcile(cfg, read, p, c); Tidy(next) && Holding(next) == None
  {
    LeaveTidy();
  }

  lemma ExitConserves(cfg: Config, read: Option<Row>, p: ExitPoint, c: Choice)
    ensures var next := DecideExit(cfg, read, p, c); Tidy(next) && Holding(next) == None
  {
    LeaveTidy();
    var at := AtExit(ExitReread(p.exit));
    assert Tidy(at) && Holding(at) == None;
    var again := LockRunner(at);
    assert Tidy(again) && Holding(again) == None;
    assert Tidy(UnlockRunner(again)) && Holding(UnlockRunner(again)) == None;
  }

  lemma StopConserves(cfg: Config, read: Option<Row>, p: StopPoint, c: Choice)
    ensures var next := DecideStop(cfg, read, p, c); Tidy(next) && Holding(next) == None
  {
    LeaveTidy();
  }

  lemma RecoverConserves(cfg: Config, read: Option<Row>, p: RecoverPoint, c: Choice)
    ensures var next := DecideRecover(cfg, read, p, c); Tidy(next) && Holding(next) == None
  {
    LeaveTidy();
    var stop := LockRunner(AtStop(StopRead(NO_JOB, false)));
    assert Tidy(stop) && Holding(stop) == None;
  }

  lemma DecideConserves(cfg: Config, rows: Rows, profiles: map<string, int>, read: Option<Row>, pc: PC, c: Choice)
    requires AtPoint(pc)
    ensures Conserves(pc, c, Decide(cfg, rows, profiles, read, pc, c))
  {
    match pc
    case AtStart(p) => StartConserves(cfg, rows, profiles, read, p, c);
    case AtSettle(p) => SettleConserves(cfg, read, p, c);
    case AtExit(p) => ExitConserves(cfg, read, p, c);
    case AtStop(p) => StopConserves(cfg, read, p, c);
    case AtForce(p) => ForceConserves(cfg, read, p, c);
    case AtRecover(p) => RecoverConserves(cfg, read, p, c);
    case AtReconcile(p) => ReconcileConserves(cfg, read, p, c);
  }

  predicate AllTidy(w: World) {
    forall t :: t in w.threads ==> Tidy(w.threads[t].pc)
  }

  /** Nothing happens, or one sandbox is taken in, adopted, or cleaned up. */
  predicate Balance(before: Option<Sandbox>, taken: Option<Sandbox>, after: Option<Sandbox>,
                    adopted: Option<Sandbox>, cleaned: Option<Sandbox>) {
    || (taken == adopted == cleaned == None && after == before)
    || (adopted == cleaned == before == None && after == taken)
    || (taken == cleaned == after == None && adopted == before)
    || (taken == adopted == after == None && cleaned == before)
  }

  lemma BalanceOfBags(before: Option<Sandbox>, taken: Option<Sandbox>, after: Option<Sandbox>,
                      adopted: Option<Sandbox>, cleaned: Option<Sandbox>)
    requires Balance(before, taken, after, adopted, cleaned)
    ensures Bag(before) + Bag(taken) == Bag(after) + Bag(adopted) + Bag(cleaned)
  {
  }

  predicate StepBalance(w: World, e: Event, t: nat) {
    Balance(HeldBy(w, t), Started(w, e, t), HeldBy(Step(w, e), t), Adopted(w, e, t), CleanedUp(w, e, t))
  }

  /** The thread's own share of one step. */
  predicate PlacesWhatItLetsGo(pc: PC, c: Choice, wrote: bool, next: PC) {
    Balance(Holding(pc), TakenIn(pc, c), Holding(next), if wrote then Holding(pc) else None, HandedOut(pc))
  }

  lemma RunConserves(w: World, t: nat, c: Choice)
    requires t in w.threads && Tidy(w.threads[t].pc)
    ensures
      var next := RunThread(w, t, c).threads[t].pc;
      Tidy(next) && PlacesWhatItLetsGo(w.threads[t].pc, c, WriteSucceeds(w, t, c), next)
  {
    var Thread(id, pc) := w.threads[t];
    if AtPoint(pc) {
      DecideConserves(w.cfg, w.rows, w.profiles, ReadRow(w.rows, id, c), pc, c);
    }
  }

  lemma StepConserves(w: World, e: Event, t: nat)
    requires AllTidy(w) && !e.Restart?
    ensures AllTidy(Step(w, e))
    ensures StepBalance(w, e, t)
  {
    if e.Run? && e.t in w.threads {
      assert Tidy(w.threads[e.t].pc);
      RunConserves(w, e.t, e.c);
      RunTouchesOnlyItself(w, e.t, e.c);
    } else if e.Call? {
      assert Tidy(Enter(e.entry)) && Holding(Enter(e.entry)) == None;
    } else if e.Claim? {
      assert Tidy(AtStart(StartRead)) && Holding(AtStart(StartRead)) == None;
    }
  }

  function StartedIn(w: World, es: seq<Event>, t: nat): Sandboxes
    decreases |es|
  {
    if es == [] then multiset{} else Bag(Started(w, es[0], t)) + StartedIn(Step(w, es[0]), es[1..], t)
  }

  function AdoptedIn(w: World, es: seq<Event>, t: nat): Sandboxes
    decreases |es|
  {
    if es == [] then multiset{} else Bag(Adopted(w, es[0], t)) + AdoptedIn(Step(w, es[0]), es[1..], t)
  }

  function CleanedUpIn(w: World, es: seq<Event>, t: nat): Sandboxes
    decreases |es|
  {
    if es == [] then multiset{} else Bag(CleanedUp(w, es[0], t)) + CleanedUpIn(Step(w, es[0]), es[1..], t)
  }

  /** What call `t` was holding whenever the process died. */
  function LostIn(w: World, es: seq<Event>, t: nat): Sandboxes
    decreases |es|
  {
    if es == [] then multiset{}
    else (if es[0].Restart? then Bag(HeldBy(w, t)) else multiset{}) + LostIn(Step(w, es[0]), es[1..], t)
  }

  predicate DiesHolding(w: World, es: seq<Event>, t: nat)
    decreases |es|
  {
    es != [] && ((es[0].Restart? && HeldBy(w, t).Some?) || DiesHolding(Step(w, es[0]), es[1..], t))
  }

  /** A sandbox is lost exactly when its call holds it while the process dies. */
  lemma {:induction false} LostExactly(w: World, es: seq<Event>, t: nat)
    ensures LostIn(w, es, t) == multiset{} <==> !DiesHolding(w, es, t)
    decreases |es|
  {
    if es != [] {
      LostExactly(Step(w, es[0]), es[1..], t);
      if es[0].Restart? && HeldBy(w, t).Some? { assert HeldBy(w, t).value in LostIn(w, es, t); }
    }
  }

  /** Two balances in a row are one. */
  lemma Chain(before: Sandboxes, s: Sandboxes, mid: Sandboxes, out: Sandboxes, s': Sandboxes, after: Sandboxes, out': Sandboxes)
    requires before + s == mid + out && mid + s' == after + out'
    ensures before + (s + s') == after + (out + out')
  {
    assert before + (s + s') == (before + s) + s' == (mid + s') + out;
  }

  lemma Regroup(a: Sandboxes, c: Sandboxes, l: Sandboxes, a': Sandboxes, c': Sandboxes, l': Sandboxes)
    ensures (a + c + l) + (a' + c' + l') == (a + a') + (c + c') + (l + l')
  {
  }

  lemma RestartPlaces(w: World, t: nat)
    ensures
      var e := Restart;
      && AllTidy(Step(w, e)) && HeldBy(Step(w, e), t) == None
      && Started(w, e, t) == None && Adopted(w, e, t) == None && CleanedUp(w, e, t) == None
  {
    assert Step(w, Restart).threads == map[];
  }

  lemma StepPlaces(w: World, e: Event, t: nat)
    requires AllTidy(w)
    ensures AllTidy(Step(w, e))
    ensures Bag(HeldBy(w, t)) + Bag(Started(w, e, t)) ==
            Bag(HeldBy(Step(w, e), t)) + (Bag(Adopted(w, e, t)) + Bag(CleanedUp(w, e, t)) + if e.Restart? then Bag(HeldBy(w, t)) else multiset{})
  {
    if e.Restart? {
      RestartPlaces(w, t);
    } else {
      StepConserves(w, e, t);
      BalanceOfBags(HeldBy(w, t), Started(w, e, t), HeldBy(Step(w, e), t), Adopted(w, e, t), CleanedUp(w, e, t));
    }
  }

  lemma {:induction false} ExecConserves(w: World, es: seq<Event>, t: nat)
    requires AllTidy(w)
    ensures Bag(HeldBy(w, t)) + StartedIn(w, es, t) ==
            Bag(HeldBy(Exec(w, es), t)) + (AdoptedIn(w, es, t) + CleanedUpIn(w, es, t) + LostIn(w, es, t))
    decreases |es|
  {
    if es != [] {
      var e, w1, rest := es[0], Step(w, es[0]), es[1..];
      var lost := if e.Restart? then Bag(HeldBy(w, t)) else multiset{};
      StepPlaces(w, e, t);
      ExecConserves(w1, rest, t);
      Chain(Bag(HeldBy(w, t)), Bag(Started(w, e, t)), Bag(HeldBy(w1, t)), Bag(Adopted(w, e, t)) + Bag(CleanedUp(w, e, t)) + lost,
            StartedIn(w1, rest, t), Bag(HeldBy(Exec(w, es), t)), AdoptedIn(w1, rest, t) + CleanedUpIn(w1, rest, t) + LostIn(w1, rest, t));
      Regroup(Bag(Adopted(w, e, t)), Bag(CleanedUp(w, e, t)), lost, AdoptedIn(w1, rest, t), CleanedUpIn(w1, rest, t), LostIn(w1, rest, t));
    }
  }

  /** In every run, restarts included: the sandboxes a call was given are those it
      still holds, those it adopted, those it cleaned up and those it held when
      the process died, each once. So once it is over, exactly its sandboxes have
      been adopted or cleaned up, if and only if it never held one at a restart. */
  lemma EverySandboxIsPlaced(cfg: Config, profiles: map<string, int>, es: seq<Event>, t: nat)
    ensures
      var w := Empty(cfg, profiles);
      var w' := Exec(w, es);
      && StartedIn(w, es, t) == Bag(HeldBy(w', t)) + (AdoptedIn(w, es, t) + CleanedUpIn(w, es, t) + LostIn(w, es, t))
      && (HeldBy(w', t).None? ==>
            (StartedIn(w, es, t) == AdoptedIn(w, es, t) + CleanedUpIn(w, es, t) <==> !DiesHolding(w, es, t)))
  {
    var w := Empty(cfg, profiles);
    ExecConserves(w, es, t);
    LostExactly(w, es, t);
    NothingAdded(AdoptedIn(w, es, t) + CleanedUpIn(w, es, t), LostIn(w, es, t));
  }

  lemma NothingAdded(a: Sandboxes, l: Sandboxes)
    ensures a + l == a <==> l == multiset{}
  {
    if l != multiset{} {
      var x :| x in l;
      assert (a + l)[x] > a[x];
    }
  }

  // ---- The sandbox a row records -------------------------------------------------------

  /** Who makes the store forget a recorded sandbox: a manual retry, and exactly the
      writes of failStart, retryOrFail, the two requeues and an interrupted
      creation. Any other change of it is an adoption. */
  lemma SandboxForgotten(w: World, e: Event, id: string)
    requires Inv(w) && id in w.rows && w.rows[id].sandbox != ""
    requires !(WritesRow(w, e, id) && AdoptsSandbox(SiteOf(w, e)))
    ensures id in Step(w, e).rows
    ensures Step(w, e).rows[id].sandbox == "" || Step(w, e).rows[id].sandbox == w.rows[id].sandbox
    ensures Step(w, e).rows[id].sandbox == "" <==>
            (e == ManualRetry(id) && RetryAllowed(w.rows[id])) || (WritesRow(w, e, id) && ForgetsSandbox(SiteOf(w, e)))
  {
    RowOnlyMovesForward(w, e, id);
    if e.Run? && e.t in w.threads {
      assert ThreadOk(w.cfg, w.rows, w.threads[e.t]);
    }
  }

  /** An adoption is one write that takes the request from creating to running
      and records exactly that sandbox. */
  lemma AdoptionIsOneWrite(w: World, e: Event, t: nat)
    requires Inv(w) && Adopted(w, e, t).Some?
    ensures
      var id, w' := w.threads[t].id, Step(w, e);
      && id in w.rows && id in w'.rows
      && w.rows[id].status.Creating? && w'.rows[id].status.Running?
      && Adopted(w, e, t) == Some(Sandbox(w'.rows[id].sandbox, w'.rows[id].pid))
  {
    var Thread(id, pc) := w.threads[t];
    assert ThreadOk(w.cfg, w.rows, w.threads[t]);
    WrittenOk(w.cfg, pc.site, pc.base, pc.row, w.rows[id], e.c.now);
  }
}
