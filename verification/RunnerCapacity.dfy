/** Concurrency limits: however the calls interleave, the number of requests in
    creating or running never exceeds the configured maximum, nor a profile's
    own limit while that limit stays fixed. */
module RunnerCapacity {
  import opened Common
  import opened RunnerRows
  import opened RunnerCalls
  import opened RunnerMachine
  import opened RunnerInvariant

  /** Every capacity check still ahead of the call uses limit `limit` for profile `p`. */
  predicate LimitsOk(p: string, limit: int, pc: PC) {
    match pc
    case LockRunner(next) => LimitsOk(p, limit, next)
    case UnlockRunner(next) => LimitsOk(p, limit, next)
    case LockAdmission(next) => LimitsOk(p, limit, next)
    case UnlockAdmission(next) => LimitsOk(p, limit, next)
    case ReleaseLease(next) => LimitsOk(p, limit, next)
    case Write(_, _, _, ok, fail) => LimitsOk(p, limit, ok) && LimitsOk(p, limit, fail)
    case AtStart(q) => (q.StartCount? || q.StartCountProfile?) && q.st.req.profile == p ==> q.limit == limit
    case _ => true
  }

  /** What a call inside the admission mutex has established about the store. */
  predicate RoomOk(cfg: Config, rows: Rows, p: string, limit: int, pc: PC) {
    match pc
    case AtStart(q) => q.StartCountProfile? ==> |ActiveIds(rows)| < cfg.maxRunners
    case Write(site, base, _, _, _) =>
      site.StartCreating? ==>
        |ActiveIds(rows)| < cfg.maxRunners && (base.req.profile == p ==> |ProfileActiveIds(rows, p)| < limit)
    case _ => true
  }

  predicate WithinLimits(w: World, p: string, limit: int) {
    |ActiveIds(w.rows)| <= w.cfg.maxRunners && |ProfileActiveIds(w.rows, p)| <= limit
  }

  predicate RoomInv(w: World, p: string, limit: int) {
    && WithinLimits(w, p, limit)
    && (p in w.profiles ==> w.profiles[p] == limit)
    && (forall t :: t in w.threads ==> LimitsOk(p, limit, w.threads[t].pc))
    && (forall t :: t in w.threads ==> RoomOk(w.cfg, w.rows, p, limit, w.threads[t].pc))
  }

  predicate CapacityInv(w: World, p: string, limit: int) {
    Inv(w) && RoomInv(w, p, limit)
  }

  /** The event does not change the limit of profile `p`. */
  predicate KeepsLimit(e: Event, p: string, limit: int) {
    e.SetProfile? && e.name == p ==> e.limit == limit
  }

  lemma SettleLimits(cfg: Config, p: string, limit: int, read: Option<Row>, q: SettlePoint, c: Choice)
    ensures LimitsOk(p, limit, DecideSettle(cfg, read, q, c))
  {
    LeaveLimits(p, limit);
  }

  lemma StopLimits(cfg: Config, p: string, limit: int, read: Option<Row>, q: StopPoint, c: Choice)
    ensures LimitsOk(p, limit, DecideStop(cfg, read, q, c))
  {
    LeaveLimits(p, limit);
  }

  lemma RecoverLimits(cfg: Config, p: string, limit: int, read: Option<Row>, q: RecoverPoint, c: Choice)
    ensures LimitsOk(p, limit, DecideRecover(cfg, read, q, c))
  {
    LeaveLimits(p, limit);
  }

  lemma DecideLimits(w: World, p: string, limit: int, read: Option<Row>, pc: PC, c: Choice)
    requires AtPoint(pc) && LimitsOk(p, limit, pc)
    requires p in w.profiles ==> w.profiles[p] == limit
    ensures LimitsOk(p, limit, Decide(w.cfg, w.rows, w.profiles, read, pc, c))
  {
    match pc
    case AtStart(q) => StartLimits(w, p, limit, read, q, c);
    case AtSettle(q) => SettleLimits(w.cfg, p, limit, read, q, c);
    case AtExit(q) => ExitLimits(w, p, limit, read, q, c);
    case AtStop(q) => StopLimits(w.cfg, p, limit, read, q, c);
    case AtForce(q) => LeaveLimits(p, limit);
    case AtRecover(q) => RecoverLimits(w.cfg, p, limit, read, q, c);
    case AtReconcile(q) => LeaveLimits(p, limit);
  }

  lemma LeaveLimits(p: string, limit: int)
    ensures LimitsOk(p, limit, UnlockRunner(Done))
    ensures LimitsOk(p, limit, UnlockRunner(ReleaseLease(Done)))
    ensures LimitsOk(p, limit, ReleaseLease(UnlockRunner(Done)))
    ensures LimitsOk(p, limit, LeaveAdmission(ReleaseLease(Done)))
  {
    assert LimitsOk(p, limit, ReleaseLease(Done));
    assert LimitsOk(p, limit, UnlockRunner(ReleaseLease(Done)));
  }

  lemma ExitLimits(w: World, p: string, limit: int, read: Option<Row>, q: ExitPoint, c: Choice)
    ensures LimitsOk(p, limit, DecideExit(w.cfg, read, q, c))
  {
    LeaveLimits(p, limit);
    var exit := q.exit;
    assert LimitsOk(p, limit, LockRunner(AtExit(ExitReread(exit))));
  }

  lemma StartLimits(w: World, p: string, limit: int, read: Option<Row>, q: StartPoint, c: Choice)
    requires LimitsOk(p, limit, AtStart(q))
    requires p in w.profiles ==> w.profiles[p] == limit
    ensures LimitsOk(p, limit, DecideStart(w.cfg, w.rows, w.profiles, read, q, c))
  {
    LeaveLimits(p, limit);
    if q.StartCount? || q.StartCountProfile? {
      var row := q.st.(status := Creating, lease := Lease(w.cfg.workerId, c.now + w.cfg.leaseTtl));
      assert LimitsOk(p, limit, UnlockRunner(AtStart(StartJob(row))));
      var defer := LockRunner(AtSettle(DeferRead(c.now + 5_000_000_000)));
      assert LimitsOk(p, limit, UnlockRunner(defer));
    }
  }

  /** Only a call inside the admission mutex carries a claim about free room. */
  lemma RoomNeedsAdmission(cfg: Config, rows: Rows, p: string, limit: int, pc: PC)
    requires Good(cfg, pc) && !HoldsAdmission(pc)
    ensures RoomOk(cfg, rows, p, limit, pc)
  {
  }

  /** Claims about free room survive a write that adds no active row. */
  lemma RoomKept(w: World, p: string, limit: int, id: string, next: Row)
    requires CapacityInv(w, p, limit)
    requires id in w.rows ==> w.rows[id].req.profile == next.req.profile
    requires Active(next.status) ==> id in w.rows && Active(w.rows[id].status)
    ensures WithinLimits(w.(rows := w.rows[id := next]), p, limit)
    ensures forall t :: t in w.threads ==> RoomOk(w.cfg, w.rows[id := next], p, limit, w.threads[t].pc)
  {
    ActiveAfterUpdate(w.rows, id, next, p);
  }

  /** The count checks of startRunner establish the room its creating write relies on. */
  lemma CountRoom(w: World, p: string, limit: int, q: StartPoint, read: Option<Row>, c: Choice)
    requires p != "" && limit > 0 && (q.StartCount? || q.StartCountProfile?)
    requires LimitsOk(p, limit, AtStart(q)) && RoomOk(w.cfg, w.rows, p, limit, AtStart(q))
    ensures RoomOk(w.cfg, w.rows, p, limit, DecideStart(w.cfg, w.rows, w.profiles, read, q, c))
  {
    ActiveAtMostInFlight(w.rows, p);
  }

  lemma DecideRoom(w: World, t: nat, p: string, limit: int, c: Choice)
    requires CapacityInv(w, p, limit) && p != "" && limit > 0
    requires t in w.threads && AtPoint(w.threads[t].pc)
    ensures RoomOk(w.cfg, w.rows, p, limit, Decide(w.cfg, w.rows, w.profiles, ReadRow(w.rows, w.threads[t].id, c), w.threads[t].pc, c))
  {
    var Thread(id, pc) := w.threads[t];
    var read := ReadRow(w.rows, id, c);
    assert ThreadOk(w.cfg, w.rows, w.threads[t]) && LimitsOk(p, limit, pc) && RoomOk(w.cfg, w.rows, p, limit, pc);
    if HoldsAdmission(pc) {
      CountRoom(w, p, limit, pc.start, read, c);
    } else {
      DecideGood(w.cfg, w.rows, w.profiles, read, pc, c);
      RoomNeedsAdmission(w.cfg, w.rows, p, limit, Decide(w.cfg, w.rows, w.profiles, read, pc, c));
    }
  }

  lemma AfterWriteRoom(cfg: Config, rows: Rows, p: string, limit: int, pc: PC)
    requires Good(cfg, pc) && pc.Write?
    ensures RoomOk(cfg, rows, p, limit, pc.ok) && RoomOk(cfg, rows, p, limit, pc.fail)
  {
    if !pc.site.StartCreating? {
      RoomNeedsAdmission(cfg, rows, p, limit, pc.ok);
      RoomNeedsAdmission(cfg, rows, p, limit, pc.fail);
    }
  }

  lemma AdmittedRoom(w: World, t: nat, p: string, limit: int, next: Row)
    requires CapacityInv(w, p, limit) && t in w.threads
    requires w.threads[t].pc.Write? && w.threads[t].pc.site.StartCreating?
    requires w.threads[t].id in w.rows && next.req == w.rows[w.threads[t].id].req == w.threads[t].pc.base.req
    ensures WithinLimits(w.(rows := w.rows[w.threads[t].id := next]), p, limit)
    ensures forall u :: u in w.threads && u != t ==> RoomOk(w.cfg, w.rows[w.threads[t].id := next], p, limit, w.threads[u].pc)
  {
    var Thread(id, pc) := w.threads[t];
    assert ThreadOk(w.cfg, w.rows, w.threads[t]) && RoomOk(w.cfg, w.rows, p, limit, pc);
    ActiveAfterUpdate(w.rows, id, next, p);
    assert HoldsAdmission(pc);
    forall u | u in w.threads && u != t
      ensures RoomOk(w.cfg, w.rows[id := next], p, limit, w.threads[u].pc)
    {
      assert ThreadOk(w.cfg, w.rows, w.threads[u]) && !HoldsAdmission(w.threads[u].pc);
      RoomNeedsAdmission(w.cfg, w.rows[id := next], p, limit, w.threads[u].pc);
    }
  }

  lemma WriteWithinLimits(w: World, t: nat, p: string, limit: int, c: Choice)
    requires CapacityInv(w, p, limit) && WriteSucceeds(w, t, c)
    ensures
      var w' := RunThread(w, t, c);
      && WithinLimits(w', p, limit)
      && (forall u :: u in w'.threads ==> RoomOk(w.cfg, w'.rows, p, limit, w'.threads[u].pc))
  {
    var Thread(id, pc) := w.threads[t];
    var next := Written(w.rows[id], pc.row, c.now);
    assert ThreadOk(w.cfg, w.rows, w.threads[t]);
    WrittenOk(w.cfg, pc.site, pc.base, pc.row, w.rows[id], c.now);
    AfterWriteRoom(w.cfg, w.rows[id := next], p, limit, pc);
    if pc.site.StartCreating? {
      AdmittedRoom(w, t, p, limit, next);
    } else {
      RoomKept(w, p, limit, id, next);
    }
  }

  /** A call goes on to `pc` while the rows stay as they are. */
  lemma MoveRoom(w: World, t: nat, id: string, pc: PC, p: string, limit: int)
    requires RoomInv(w, p, limit) && LimitsOk(p, limit, pc) && RoomOk(w.cfg, w.rows, p, limit, pc)
    ensures RoomInv(Spawn(w, t, id, pc), p, limit)
  {
  }

  lemma LockingRoom(w: World, t: nat, p: string, limit: int, c: Choice)
    requires CapacityInv(w, p, limit) && t in w.threads
    requires
      var pc := w.threads[t].pc;
      pc.LockRunner? || pc.UnlockRunner? || pc.LockAdmission? || pc.UnlockAdmission?
    ensures RoomInv(RunThread(w, t, c), p, limit)
  {
    var Thread(id, pc) := w.threads[t];
    assert ThreadOk(w.cfg, w.rows, w.threads[t]) && LimitsOk(p, limit, pc);
    if !pc.LockAdmission? {
      RoomNeedsAdmission(w.cfg, w.rows, p, limit, pc.next);
    }
    MoveRoom(w, t, id, pc.next, p, limit);
  }

  lemma ReleasingRoom(w: World, t: nat, p: string, limit: int, c: Choice)
    requires CapacityInv(w, p, limit) && t in w.threads && w.threads[t].pc.ReleaseLease?
    ensures RoomInv(RunThread(w, t, c), p, limit)
  {
    var Thread(id, pc) := w.threads[t];
    assert ThreadOk(w.cfg, w.rows, w.threads[t]) && LimitsOk(p, limit, pc);
    var w' := RunThread(w, t, c);
    if id in w.rows {
      RoomKept(w, p, limit, id, Released(w.rows[id], w.cfg.workerId));
    }
    RoomNeedsAdmission(w.cfg, w'.rows, p, limit, pc.next);
  }

  lemma WritingRoom(w: World, t: nat, p: string, limit: int, c: Choice)
    requires CapacityInv(w, p, limit) && t in w.threads && w.threads[t].pc.Write?
    ensures RoomInv(RunThread(w, t, c), p, limit)
  {
    var Thread(id, pc) := w.threads[t];
    assert ThreadOk(w.cfg, w.rows, w.threads[t]) && LimitsOk(p, limit, pc);
    if WriteSucceeds(w, t, c) {
      WriteWithinLimits(w, t, p, limit, c);
    } else {
      AfterWriteRoom(w.cfg, w.rows, p, limit, pc);
      MoveRoom(w, t, id, pc.fail, p, limit);
    }
  }

  lemma RunWithinLimits(w: World, t: nat, p: string, limit: int, c: Choice)
    requires CapacityInv(w, p, limit) && p != "" && limit > 0 && t in w.threads
    ensures RoomInv(RunThread(w, t, c), p, limit)
  {
    var Thread(id, pc) := w.threads[t];
    if pc.Write? {
      WritingRoom(w, t, p, limit, c);
    } else if AtPoint(pc) {
      var read := ReadRow(w.rows, id, c);
      DecideLimits(w, p, limit, read, pc, c);
      DecideRoom(w, t, p, limit, c);
      MoveRoom(w, t, id, Decide(w.cfg, w.rows, w.profiles, read, pc, c), p, limit);
    } else if pc.ReleaseLease? {
      ReleasingRoom(w, t, p, limit, c);
    } else if !pc.Done? {
      LockingRoom(w, t, p, limit, c);
    }
  }

  lemma StepWithinLimits(w: World, e: Event, p: string, limit: int)
    requires CapacityInv(w, p, limit) && p != "" && limit > 0 && KeepsLimit(e, p, limit)
    ensures RoomInv(Step(w, e), p, limit)
  {
    match e
    case Create(id, req) =>
      if CanCreate(w.rows, id, req) { RoomKept(w, p, limit, id, NewRow(req)); }
    case Reject(id, req, now) =>
      if CanCreate(w.rows, id, req) { RoomKept(w, p, limit, id, RejectedRow(req, now)); }
    case Claim(t, id, now) =>
      if t !in w.threads && NextRunnable(w.rows, id, now) {
        var next := Claimed(w.rows[id], w.cfg.workerId, now, w.cfg.leaseTtl);
        RoomKept(w, p, limit, id, next);
        assert LimitsOk(p, limit, AtStart(StartRead));
        MoveRoom(w.(rows := w.rows[id := next]), t, id, LockRunner(AtStart(StartRead)), p, limit);
      }
    case Call(t, id, entry) =>
      if t !in w.threads {
        MoveRoom(w, t, id, Enter(entry), p, limit);
      }
    case ManualRetry(id) =>
      if id in w.rows && RetryAllowed(w.rows[id]) { RoomKept(w, p, limit, id, Retried(w.rows[id])); }
    case SetProfile(name, l) =>
    case DeleteProfile(name) =>
    case Restart =>
    case Run(t, c) =>
      if t in w.threads { RunWithinLimits(w, t, p, limit, c); }
  }

  lemma {:induction false} ExecWithinLimits(w: World, es: seq<Event>, p: string, limit: int)
    requires CapacityInv(w, p, limit) && p != "" && limit > 0
    requires forall e :: e in es ==> KeepsLimit(e, p, limit)
    ensures CapacityInv(Exec(w, es), p, limit)
    decreases |es|
  {
    if es != [] {
      StepKeepsInv(w, es[0]);
      StepWithinLimits(w, es[0], p, limit);
      ExecWithinLimits(Step(w, es[0]), es[1..], p, limit);
    }
  }

  /** From an empty store, in every reachable state of every interleaving: at
      most maxRunners requests are creating or running, and at most `limit` of
      those that belong to a profile whose limit stays `limit`. */
  lemma CapacityHolds(cfg: Config, profiles: map<string, int>, es: seq<Event>, p: string, limit: int)
    requires p != "" && limit > 0 && (p in profiles ==> profiles[p] == limit)
    requires forall e :: e in es ==> KeepsLimit(e, p, limit)
    ensures |ActiveIds(Exec(Empty(cfg, profiles), es).rows)| <= cfg.maxRunners
    ensures |ProfileActiveIds(Exec(Empty(cfg, profiles), es).rows, p)| <= limit
  {
    var w := Empty(cfg, profiles);
    EmptyInv(cfg, profiles);
    assert ActiveIds(w.rows) == {} && ProfileActiveIds(w.rows, p) == {};
    ExecWithinLimits(w, es, p, limit);
    ConfigFixed(w, es);
  }

  /** The global limit needs nothing of the profiles at all. */
  lemma GlobalCapacityHolds(cfg: Config, profiles: map<string, int>, es: seq<Event>)
    ensures |ActiveIds(Exec(Empty(cfg, profiles), es).rows)| <= cfg.maxRunners
  {
    // some profile name and limit the run never mentions
    var p := Unmentioned(profiles, es);
    CapacityHolds(cfg, profiles, es, p, 1);
  }

  lemma {:induction false} ConfigFixed(w: World, es: seq<Event>)
    ensures Exec(w, es).cfg == w.cfg
    decreases |es|
  {
    if es != [] {
      StepConfig(w, es[0]);
      ConfigFixed(Step(w, es[0]), es[1..]);
    }
  }

  ghost function NamedBy(es: seq<Event>): set<string> {
    set e | e in es && e.SetProfile? :: e.name
  }

  lemma Unmentioned(profiles: map<string, int>, es: seq<Event>) returns (p: string)
    ensures p != "" && p !in profiles && forall e :: e in es ==> !(e.SetProfile? && e.name == p)
  {
    p := LongerName(profiles.Keys + NamedBy(es), 1);
    forall e | e in es && e.SetProfile? ensures e.name != p {
      assert e.name in NamedBy(es);
    }
  }

  function Repeat(n: nat): (s: string)
    ensures |s| == n
  {
    seq(n, _ => 'p')
  }

  lemma {:induction false} LongerName(used: set<string>, n: nat) returns (p: string)
    requires n > 0
    ensures |p| >= n && p !in used
    decreases |used|
  {
    p := Repeat(n);
    if p in used {
      var q := LongerName(used - {p}, n + 1);
      p := q;
    }
  }
}
