/** What any run does to one request: no lost updates, who may leave Completed,
    how often it may be retried, and what its timestamps say. */
module RunnerHistory {
  import opened Common
  import opened RunnerRows
  import opened RunnerCalls
  import opened RunnerMachine
  import opened RunnerInvariant

  predicate WritesRow(w: World, e: Event, id: string) {
    e.Run? && WriteSucceeds(w, e.t, e.c) && w.threads[e.t].id == id
  }

  function SiteOf(w: World, e: Event): Site
    requires e.Run? && WriteSucceeds(w, e.t, e.c)
  {
    w.threads[e.t].pc.site
  }

  /** The write brings back a lease its caller had read but that was released meanwhile. */
  predicate UndoesRelease(w: World, t: nat, c: Choice) {
    WriteSucceeds(w, t, c) &&
    var Thread(id, pc) := w.threads[t];
    w.rows[id].lease != pc.base.lease && Step(w, Run(t, c)).rows[id].lease == pc.base.lease
  }

  /** A successful WriteState extends exactly the version its caller read: the
      row it replaces is the caller's copy, apart from timestamps that copy never
      received and from a lease that is either the one read or released, and the
      change is one its program point may make. A release is undone exactly when
      the stored lease is gone and the written copy still has the one read. A
      write whose copy is out of date changes nothing. */
  lemma NoLostUpdate(w: World, t: nat, c: Choice)
    requires Inv(w) && t in w.threads && w.threads[t].pc.Write?
    ensures
      var Thread(id, pc) := w.threads[t];
      var w' := Step(w, Run(t, c));
      && (WriteSucceeds(w, t, c) ==>
            && Matches(pc.base, w.rows[id])
            && (w.rows[id].lease == pc.base.lease || w.rows[id].lease == NO_LEASE)
            && (UndoesRelease(w, t, c) <==> w.rows[id].lease == NO_LEASE != pc.base.lease && pc.row.lease == pc.base.lease)
            && w'.rows[id].version == w.rows[id].version + 1
            && w'.rows[id].req == w.rows[id].req
            && Allowed(pc.site, w.rows[id].status, w'.rows[id].status)
            && w'.rows == w.rows[id := w'.rows[id]])
      && (!WriteSucceeds(w, t, c) ==> w'.rows == w.rows)
  {
    var Thread(id, pc) := w.threads[t];
    assert ThreadOk(w.cfg, w.rows, w.threads[t]);
    if WriteSucceeds(w, t, c) {
      WrittenOk(w.cfg, pc.site, pc.base, pc.row, w.rows[id], c.now);
    }
  }

  /** What one event may do to one row: what the request was created with never
      changes, version and retry count never go back, and a row whose version
      did not move changed at most its lease. */
  predicate MovesForward(cfg: Config, r: Row, r': Row) {
    && r'.req == r.req
    && r.version <= r'.version
    && r.retryCount <= r'.retryCount <= cfg.retryMax
    && (r'.version == r.version ==> r' == r.(lease := r'.lease))
  }

  lemma RunMovesForward(w: World, t: nat, c: Choice, id: string)
    requires Inv(w) && id in w.rows && t in w.threads
    ensures id in RunThread(w, t, c).rows && MovesForward(w.cfg, w.rows[id], RunThread(w, t, c).rows[id])
  {
    var Thread(i, pc) := w.threads[t];
    assert ThreadOk(w.cfg, w.rows, w.threads[t]);
    if WriteSucceeds(w, t, c) {
      WrittenOk(w.cfg, pc.site, pc.base, pc.row, w.rows[i], c.now);
    }
  }

  /** Rows are never deleted and only move forward. */
  lemma RowOnlyMovesForward(w: World, e: Event, id: string)
    requires Inv(w) && id in w.rows
    ensures id in Step(w, e).rows && MovesForward(w.cfg, w.rows[id], Step(w, e).rows[id])
  {
    if e.Run? && e.t in w.threads {
      RunMovesForward(w, e.t, e.c, id);
    }
  }

  /** A version names one content: a row that is back at the version it had has
      not changed since, but for a lease given up. What a call checks by version
      after an absence is therefore the row it had looked at. */
  lemma {:induction false} SameVersionSameRow(w: World, es: seq<Event>, id: string)
    requires Inv(w) && id in w.rows
    ensures id in Exec(w, es).rows && w.rows[id].version <= Exec(w, es).rows[id].version
    ensures
      var r := Exec(w, es).rows[id];
      r.version == w.rows[id].version ==> r == w.rows[id].(lease := r.lease)
    decreases |es|
  {
    if es != [] {
      StepKeepsInv(w, es[0]);
      RowOnlyMovesForward(w, es[0], id);
      SameVersionSameRow(Step(w, es[0]), es[1..], id);
    }
  }

  lemma StepKeepsUniqueJobs(w: World, e: Event)
    requires Inv(w) && UniqueJobs(w.rows)
    ensures UniqueJobs(Step(w, e).rows)
  {
    forall id | id in w.rows ensures id in Step(w, e).rows && Step(w, e).rows[id].req == w.rows[id].req {
      RowOnlyMovesForward(w, e, id);
    }
    OnlyCreatedRowsAppear(w, e);
  }

  lemma OnlyCreatedRowsAppear(w: World, e: Event)
    ensures forall id :: id in Step(w, e).rows && id !in w.rows ==>
              (e.Create? || e.Reject?) && e.id == id && CanCreate(w.rows, id, e.req) && Step(w, e).rows[id].req == e.req
  {
  }

  /** In every reachable state at most one request belongs to a workflow job. */
  lemma {:induction false} ExecKeepsUniqueJobs(w: World, es: seq<Event>)
    requires Inv(w) && UniqueJobs(w.rows)
    ensures UniqueJobs(Exec(w, es).rows)
    decreases |es|
  {
    if es != [] {
      StepKeepsInv(w, es[0]);
      StepKeepsUniqueJobs(w, es[0]);
      ExecKeepsUniqueJobs(Step(w, es[0]), es[1..]);
    }
  }

  lemma WhatLeavingWrites(w: World, e: Event, id: string)
    requires Inv(w) && id in w.rows && w.rows[id].status.Completed? && WritesRow(w, e, id)
    ensures id in Step(w, e).rows
    ensures SiteOf(w, e).FailStale? ==> Step(w, e).rows[id].failureStage == "sandbox_config"
    ensures SiteOf(w, e).MismatchRequeue? ==> MismatchedCompleted(w.rows[id])
    ensures !Step(w, e).rows[id].status.Completed? <==> SiteOf(w, e).MismatchRequeue? || SiteOf(w, e).FailStale?
  {
    NoLostUpdate(w, e.t, e.c);
  }

  /** Who takes a completed request out of Completed: the mismatch requeue, and
      a failStart whose re-read failed and which writes its caller's copy; that
      copy can only be the one read for the configuration snapshot. */
  lemma LeavingCompleted(w: World, e: Event, id: string)
    requires Inv(w) && id in w.rows && w.rows[id].status.Completed?
    ensures id in Step(w, e).rows
    ensures !Step(w, e).rows[id].status.Completed? <==>
            WritesRow(w, e, id) && (SiteOf(w, e).MismatchRequeue? || SiteOf(w, e).FailStale?)
    ensures WritesRow(w, e, id) && SiteOf(w, e).FailStale? ==> Step(w, e).rows[id].failureStage == "sandbox_config"
    ensures WritesRow(w, e, id) && SiteOf(w, e).MismatchRequeue? ==> MismatchedCompleted(w.rows[id])
  {
    if WritesRow(w, e, id) { WhatLeavingWrites(w, e, id); } else { RowOnlyMovesForward(w, e, id); }
  }

  // ---- Completed requests without a workflow job ---------------------------------

  /** No failStart in this continuation writes its caller's copy. */
  predicate NoStaleWrite(pc: PC) {
    match pc
    case LockRunner(next) => NoStaleWrite(next)
    case UnlockRunner(next) => NoStaleWrite(next)
    case LockAdmission(next) => NoStaleWrite(next)
    case UnlockAdmission(next) => NoStaleWrite(next)
    case ReleaseLease(next) => NoStaleWrite(next)
    case Write(site, _, _, ok, fail) => !site.FailStale? && NoStaleWrite(ok) && NoStaleWrite(fail)
    case _ => true
  }

  predicate NoStaleWrites(w: World, id: string) {
    forall t :: t in w.threads && w.threads[t].id == id ==> NoStaleWrite(w.threads[t].pc)
  }

  /** In this step the store fails the read with which failStart looks at request `id` again. */
  predicate RereadFails(w: World, e: Event, id: string) {
    e.Run? && e.t in w.threads && w.threads[e.t].id == id && e.c.fault &&
    w.threads[e.t].pc.AtSettle? && w.threads[e.t].pc.settle.FailRead?
  }

  predicate RereadsSucceed(w: World, es: seq<Event>, id: string)
    decreases |es|
  {
    es == [] || (!RereadFails(w, es[0], id) && RereadsSucceed(Step(w, es[0]), es[1..], id))
  }

  /** The event writes a failStart's stale copy into request `id`. */
  predicate WritesStale(w: World, e: Event, id: string) {
    WritesRow(w, e, id) && SiteOf(w, e).FailStale?
  }

  predicate NoStaleWriteIn(w: World, es: seq<Event>, id: string)
    decreases |es|
  {
    es == [] || (!WritesStale(w, es[0], id) && NoStaleWriteIn(Step(w, es[0]), es[1..], id))
  }

  /** The request is completed in every state of the run. */
  predicate StaysCompleted(w: World, es: seq<Event>, id: string)
    decreases |es|
  {
    id in w.rows && w.rows[id].status.Completed? && (es == [] || StaysCompleted(Step(w, es[0]), es[1..], id))
  }

  lemma LeavesNoStale()
    ensures NoStaleWrite(UnlockRunner(Done))
    ensures NoStaleWrite(UnlockRunner(ReleaseLease(Done)))
    ensures NoStaleWrite(ReleaseLease(UnlockRunner(Done)))
    ensures NoStaleWrite(LeaveAdmission(ReleaseLease(Done)))
  {
    assert NoStaleWrite(ReleaseLease(Done));
    assert NoStaleWrite(UnlockRunner(ReleaseLease(Done)));
  }

  lemma StartNoStale(cfg: Config, rows: Rows, profiles: map<string, int>, read: Option<Row>, p: StartPoint, c: Choice)
    ensures NoStaleWrite(DecideStart(cfg, rows, profiles, read, p, c))
  {
    LeavesNoStale();
    if p.StartCount? || p.StartCountProfile? {
      var row := p.st.(status := Creating, lease := Lease(cfg.workerId, c.now + cfg.leaseTtl));
      assert NoStaleWrite(UnlockRunner(AtStart(StartJob(row))));
      assert NoStaleWrite(UnlockRunner(LockRunner(AtSettle(DeferRead(c.now + 5_000_000_000)))));
    }
  }

  lemma SettleNoStale(cfg: Config, read: Option<Row>, p: SettlePoint, c: Choice)
    requires p.FailRead? ==> read.Some?
    ensures NoStaleWrite(DecideSettle(cfg, read, p, c))
  {
    LeavesNoStale();
  }

  lemma StopNoStale(cfg: Config, read: Option<Row>, p: StopPoint, c: Choice)
    ensures NoStaleWrite(DecideStop(cfg, read, p, c))
  {
    LeavesNoStale();
  }

  lemma RecoverNoStale(cfg: Config, read: Option<Row>, p: RecoverPoint, c: Choice)
    ensures NoStaleWrite(DecideRecover(cfg, read, p, c))
  {
    LeavesNoStale();
  }

  lemma DecideNoStale(w: World, read: Option<Row>, pc: PC, c: Choice)
    requires AtPoint(pc) && (pc.AtSettle? && pc.settle.FailRead? ==> read.Some?)
    ensures NoStaleWrite(Decide(w.cfg, w.rows, w.profiles, read, pc, c))
  {
    match pc
    case AtStart(p) => StartNoStale(w.cfg, w.rows, w.profiles, read, p, c);
    case AtSettle(p) => SettleNoStale(w.cfg, read, p, c);
    case AtExit(p) => ExitNoStale(w.cfg, read, p, c);
    case AtStop(p) => StopNoStale(w.cfg, read, p, c);
    case AtForce(p) => LeavesNoStale();
    case AtRecover(p) => RecoverNoStale(w.cfg, read, p, c);
    case AtReconcile(p) => LeavesNoStale();
  }

  lemma ExitNoStale(cfg: Config, read: Option<Row>, p: ExitPoint, c: Choice)
    ensures NoStaleWrite(DecideExit(cfg, read, p, c))
  {
    LeavesNoStale();
    assert NoStaleWrite(LockRunner(AtExit(ExitReread(p.exit))));
  }

  lemma RunNoStale(w: World, t: nat, c: Choice)
    requires Inv(w) && t in w.threads && NoStaleWrite(w.threads[t].pc) && !RereadFails(w, Run(t, c), w.threads[t].id)
    ensures t in RunThread(w, t, c).threads && NoStaleWrite(RunThread(w, t, c).threads[t].pc)
  {
    var Thread(id, pc) := w.threads[t];
    assert ThreadOk(w.cfg, w.rows, w.threads[t]);
    if AtPoint(pc) {
      if pc.AtSettle? && pc.settle.FailRead? { assert id in w.rows; }
      DecideNoStale(w, ReadRow(w.rows, id, c), pc, c);
    }
  }

  lemma StepNoStale(w: World, e: Event, id: string)
    requires Inv(w) && NoStaleWrites(w, id) && !RereadFails(w, e, id)
    ensures NoStaleWrites(Step(w, e), id)
  {
    if e.Run? {
      if e.t in w.threads {
        if w.threads[e.t].id == id { RunNoStale(w, e.t, e.c); }
        RunKeepsId(w, e.t, e.c);
        RunTouchesOnlyItself(w, e.t, e.c);
      }
    } else if e.Call? {
      assert NoStaleWrite(Enter(e.entry));
    } else if e.Claim? {
      assert NoStaleWrite(AtStart(StartRead));
    }
  }

  lemma RunKeepsId(w: World, t: nat, c: Choice)
    requires t in w.threads
    ensures t in RunThread(w, t, c).threads && RunThread(w, t, c).threads[t].id == w.threads[t].id
  {
  }

  lemma StaysCompletedStep(w: World, e: Event, id: string)
    requires Inv(w) && id in w.rows && w.rows[id].status.Completed? && w.rows[id].req.jobId == 0
    ensures id in Step(w, e).rows && Step(w, e).rows[id].req.jobId == 0
    ensures Step(w, e).rows[id].status.Completed? <==> !WritesStale(w, e, id)
  {
    LeavingCompleted(w, e, id);
    RowOnlyMovesForward(w, e, id);
  }

  /** Exactly when a completed request that belongs to no workflow job stays
      completed through a run: when no failStart writes a stale copy of it. */
  lemma {:induction false} CompletedExactly(w: World, es: seq<Event>, id: string)
    requires Inv(w) && id in w.rows && w.rows[id].status.Completed? && w.rows[id].req.jobId == 0
    ensures StaysCompleted(w, es, id) <==> NoStaleWriteIn(w, es, id)
    decreases |es|
  {
    if es != [] {
      StepKeepsInv(w, es[0]);
      StaysCompletedStep(w, es[0], id);
      if !WritesStale(w, es[0], id) { CompletedExactly(Step(w, es[0]), es[1..], id); }
    }
  }

  /** The same for every run from an empty store. */
  lemma CompletedInEveryRun(cfg: Config, profiles: map<string, int>, before: seq<Event>, after: seq<Event>, id: string)
    ensures
      var w := Exec(Empty(cfg, profiles), before);
      id in w.rows && w.rows[id].status.Completed? && w.rows[id].req.jobId == 0 ==>
        (StaysCompleted(w, after, id) <==> NoStaleWriteIn(w, after, id))
  {
    EmptyInv(cfg, profiles);
    ExecKeepsInv(Empty(cfg, profiles), before);
    var w := Exec(Empty(cfg, profiles), before);
    if id in w.rows && w.rows[id].status.Completed? && w.rows[id].req.jobId == 0 {
      CompletedExactly(w, after, id);
    }
  }

  /** It stays completed for ever while the store never fails the re-reads of
      that request in failStart, whatever happens to other requests. */
  lemma {:induction false} CompletedForever(w: World, es: seq<Event>, id: string)
    requires Inv(w) && NoStaleWrites(w, id) && RereadsSucceed(w, es, id)
    requires id in w.rows && w.rows[id].status.Completed? && w.rows[id].req.jobId == 0
    ensures StaysCompleted(w, es, id)
    decreases |es|
  {
    if es != [] {
      StepKeepsInv(w, es[0]);
      StepNoStale(w, es[0], id);
      StaysCompletedStep(w, es[0], id);
      if WritesRow(w, es[0], id) { assert NoStaleWrite(w.threads[es[0].t].pc); }
      CompletedForever(Step(w, es[0]), es[1..], id);
    }
  }

  // ---- Retry budget ----------------------------------------------------------------

  /** The event persists an ordinary retry of request `id`: not a queue
      deferral, not a wait for a busy runner. */
  predicate PersistsRetry(w: World, e: Event, id: string) {
    WritesRow(w, e, id) && OrdinaryRetry(SiteOf(w, e))
  }

  function RetriesIn(w: World, es: seq<Event>, id: string): nat
    decreases |es|
  {
    if es == [] then 0
    else (if PersistsRetry(w, es[0], id) then 1 else 0) + RetriesIn(Step(w, es[0]), es[1..], id)
  }

  function RetryCount(w: World, id: string): nat {
    if id in w.rows then w.rows[id].retryCount else 0
  }

  lemma WriteRetries(w: World, e: Event, id: string)
    requires Inv(w) && WritesRow(w, e, id)
    ensures w.rows[id].retryCount + (if PersistsRetry(w, e, id) then 1 else 0) <= Step(w, e).rows[id].retryCount
  {
    var pc := w.threads[e.t].pc;
    assert ThreadOk(w.cfg, w.rows, w.threads[e.t]);
    WrittenOk(w.cfg, pc.site, pc.base, pc.row, w.rows[id], e.c.now);
  }

  lemma StepRetries(w: World, e: Event, id: string)
    requires Inv(w)
    ensures RetryCount(w, id) + (if PersistsRetry(w, e, id) then 1 else 0) <= RetryCount(Step(w, e), id) <= w.cfg.retryMax
  {
    StepKeepsInv(w, e);
    StepConfig(w, e);
    if id in w.rows {
      RowOnlyMovesForward(w, e, id);
      if WritesRow(w, e, id) { WriteRetries(w, e, id); }
    }
  }

  lemma {:induction false} ExecRetries(w: World, es: seq<Event>, id: string)
    requires Inv(w)
    ensures RetryCount(w, id) + RetriesIn(w, es, id) <= RetryCount(Exec(w, es), id) <= w.cfg.retryMax
    decreases |es|
  {
    if es != [] {
      StepKeepsInv(w, es[0]);
      StepRetries(w, es[0], id);
      StepConfig(w, es[0]);
      ExecRetries(Step(w, es[0]), es[1..], id);
    }
  }

  /** Over its whole life, manual retries and requeues included, a request is
      given at most retryMax ordinary retries, and its counter says so. */
  lemma RetryBudget(cfg: Config, profiles: map<string, int>, es: seq<Event>, id: string)
    ensures RetriesIn(Empty(cfg, profiles), es, id) <= RetryCount(Exec(Empty(cfg, profiles), es), id) <= cfg.retryMax
  {
    EmptyInv(cfg, profiles);
    ExecRetries(Empty(cfg, profiles), es, id);
  }

  // ---- Timestamps ---------------------------------------------------------------------

  /** In every reachable state a queued row carries no trace of an attempt and
      every other row carries the timestamp of its status, so the sweeper's
      zero-time guards never excuse a request that is in flight. */
  lemma StampedWhenReachable(cfg: Config, profiles: map<string, int>, es: seq<Event>, id: string, now: Clock, timeout: nat)
    requires id in Exec(Empty(cfg, profiles), es).rows
    ensures
      var r := Exec(Empty(cfg, profiles), es).rows[id];
      && TimesOk(r)
      && (r.status.Creating? && now > r.times.creating + timeout ==> SweepsCreating(r, now, timeout))
      && (r.status.Running? && now > r.times.running + timeout ==> SweepsRunning(r, now, timeout))
      && (r.status.Stopping? && now > r.times.stopping + timeout && now >= r.nextRetryAt ==> SweepsStopping(r, now, timeout))
  {
    EmptyInv(cfg, profiles);
    ExecKeepsInv(Empty(cfg, profiles), es);
  }

  /** sweepOnce's guards */
  predicate SweepsCreating(r: Row, now: Clock, timeout: nat) {
    r.status.Creating? && r.times.creating != 0 && now - r.times.creating > timeout
  }

  predicate SweepsRunning(r: Row, now: Clock, timeout: nat) {
    r.status.Running? && r.times.running != 0 && now - r.times.running > timeout
  }

  predicate SweepsStopping(r: Row, now: Clock, timeout: nat) {
    r.status.Stopping? && !(r.nextRetryAt != 0 && now < r.nextRetryAt) &&
    r.times.stopping != 0 && now - r.times.stopping > timeout
  }
}
