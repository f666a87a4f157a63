/** When a failure is retried, and when: what applyFailure, scheduleStopRetry and
    scheduleCleanupRetry make of a row, told by its fields. */
module RunnerFailures {
  import opened Common
  import opened RunnerRows
  import opened RunnerCalls
  import opened RunnerMachine
  import opened RunnerInvariant
  import opened RunnerHistory
  import opened RunnerTurns
  import Backoff

  /** The documented wait of attempt `n`. */
  function Wait(cfg: Config, n: nat): int {
    Min(cfg.retryBase * Backoff.Pow2(if n == 0 then 0 else n - 1), cfg.retryCap)
  }

  /** `before` failed at `stage` and became `after`: queued again exactly if the
      fault is one of capacity, or may pass and an attempt is left. */
  predicate Judged(cfg: Config, before: Row, stage: string, error: ErrorClass, now: Clock, after: Row) {
    && (after.status.Queued? <==> error.Capacity? || (!error.Permanent? && before.retryCount < cfg.retryMax))
    && (after.status.Queued? ==> after.retryCount == before.retryCount + (if before.retryCount < cfg.retryMax then 1 else 0)
                                 && after.nextRetryAt == now + Wait(cfg, after.retryCount) && Cleared(after))
    && (!after.status.Queued? ==> after.status.Failed? && after.nextRetryAt == 0 && after.retryCount == before.retryCount)
    && after.failureStage == stage && (after.errorRetryable <==> !error.Permanent?)
    && after.sandbox == "" && after.pid == 0 && after.lease == NO_LEASE && after.times.completed == 0
    && after.req == before.req && after.assignedId == before.assignedId && after.assignedName == before.assignedName
  }

  lemma FailureIsJudged(cfg: Config, r: Row, stage: string, error: ErrorClass, now: Clock)
    ensures Judged(cfg, r, stage, error, now, ApplyFailure(cfg, r, stage, error, now).0)
  {
  }

  /** Stopping the sandbox failed: `after` waits for a retry if and only if the
      fault may pass and an attempt is left, and is failed otherwise. */
  predicate StopJudged(cfg: Config, before: Row, error: ErrorClass, now: Clock, after: Row) {
    && after.failureStage == "stop" && after.sandbox == before.sandbox
    && (if !error.Permanent? && before.retryCount < cfg.retryMax then
          after.status.Stopping? && after.retryCount == before.retryCount + 1 && after.errorRetryable
          && after.nextRetryAt == now + Wait(cfg, after.retryCount)
        else after.status.Failed? && after.retryCount == before.retryCount)
  }

  /** Removing the GitHub runner can be retried: a busy runner is always waited for. */
  predicate MayRetryCleanup(cfg: Config, r: Row, error: ErrorClass) {
    error.RunnerBusy? || (!error.Permanent? && r.retryCount < cfg.retryMax)
  }

  predicate CleanupRetried(cfg: Config, before: Row, now: Clock, after: Row) {
    && after.status.Stopping? && after.errorRetryable && after.sandbox == before.sandbox
    && after.failureStage == (if before.failureStage == "" then "cleanup" else before.failureStage)
    && after.retryCount == before.retryCount + (if before.retryCount < cfg.retryMax then 1 else 0)
    && after.nextRetryAt == now + Wait(cfg, after.retryCount)
  }

  lemma CleanupIsJudged(cfg: Config, r: Row, error: ErrorClass, now: Clock)
    ensures
      var scheduled := ScheduleCleanupRetry(cfg, r, error, now);
      (scheduled.Some? <==> MayRetryCleanup(cfg, r, error)) && (scheduled.Some? ==> CleanupRetried(cfg, r, now, scheduled.value.0))
  {
  }

  lemma StopIsJudged(cfg: Config, r: Row, error: ErrorClass, now: Clock)
    ensures
      var scheduled := ScheduleStopRetry(cfg, r, error, now);
      StopJudged(cfg, r, error, now, if scheduled.Some? then scheduled.value else r.(status := Failed, failureStage := "stop"))
  {
  }

  // ---- What is judged is what the store had -----------------------------------------------

  /** A write that is not refused finds the row its caller judged. */
  predicate Faithful(m: Turn) {
    m.pc.Write? && !m.refused ==> m.id in m.rows && Matches(m.pc.base, m.rows[m.id])
  }

  lemma TurnIsFaithful(w: World, t: nat, c: Choice)
    requires Inv(w) && t in w.threads
    ensures Faithful(TurnAt(w, t, c))
  {
    if w.threads[t].pc.Write? && WriteSucceeds(w, t, c) { NoLostUpdate(w, t, c); }
  }

  lemma {:induction false} TurnsAreFaithful(w: World, es: seq<Event>, t: nat)
    requires Inv(w)
    ensures forall m :: m in TurnsIn(w, es, t) ==> Faithful(m)
    decreases |es|
  {
    if es != [] && !es[0].Restart? {
      if TurnOf(w, es[0], t) != [] { TurnIsFaithful(w, t, es[0].c); }
      StepKeepsInv(w, es[0]);
      TurnsAreFaithful(Step(w, es[0]), es[1..], t);
    }
  }

  /** The judgement passed on the caller's copy is one on the stored row. */
  lemma JudgedInStore(m: Turn, stage: string, error: ErrorClass, now: Clock)
    requires m.pc.Write? && !m.refused && Faithful(m) && Judged(m.cfg, m.pc.base, stage, error, now, m.pc.row)
    ensures Judged(m.cfg, m.rows[m.id], stage, error, now, Left(m))
  {
  }

  // ---- retryOrFail, as the sweeper calls it ---------------------------------------------------

  const SWEEP_STAGE := "sweeper_create_timeout"

  /** The call has yet to read its row, has judged it by a fault that may pass, or is over. */
  ghost predicate SweepKnows(cfg: Config, h: PC, tr: seq<Turn>) {
    match h
    case Done => true
    case AtSettle(p) => p == RetryRead(SWEEP_STAGE, Transient) && tr == []
    case Write(site, base, row, ok, fail) =>
      && site.RetryOrFail? && Head(ok) == Head(fail) == Done
      && |tr| == 1 && tr[0].read == Some(base) && Judged(cfg, base, SWEEP_STAGE, Transient, tr[0].c.now, row)
    case _ => false
  }

  lemma SweepHandsOn(cfg: Config, m: Turn, tr: seq<Turn>)
    requires TakesTurn(m.pc) && m.cfg == cfg && SweepKnows(cfg, m.pc, tr)
    ensures SweepKnows(cfg, After(m), tr + [m])
  {
    if m.pc.AtSettle? && m.read.Some? { FailureIsJudged(cfg, m.read.value, SWEEP_STAGE, Transient, m.c.now); }
  }

  lemma SweepChain(cfg: Config, tr: seq<Turn>, last: PC, k: nat)
    requires Chained(AtSettle(RetryRead(SWEEP_STAGE, Transient)), tr, last) && (forall m :: m in tr ==> m.cfg == cfg) && k < |tr|
    ensures SweepKnows(cfg, tr[k].pc, tr[..k])
  {
    var fact := (m: Turn) => m.cfg == cfg;
    var knows := (h: PC, before: seq<Turn>) => SweepKnows(cfg, h, before);
    ChainUpTo(AtSettle(RetryRead(SWEEP_STAGE, Transient)), tr, last, k);
    forall m: Turn, before: seq<Turn> | TakesTurn(m.pc) && fact(m) && knows(m.pc, before) ensures knows(After(m), before + [m]) {
      SweepHandsOn(cfg, m, before);
    }
    ChainKeeps(AtSettle(RetryRead(SWEEP_STAGE, Transient)), tr[..k], tr[k].pc, fact, knows, []);
    assert [] + tr[..k] == tr[..k];
  }

  lemma CallIsFaithful(w: World, t: nat, id: string, entry: Entry, es: seq<Event>)
    requires Inv(w)
    ensures forall m :: m in TurnsOf(w, t, id, entry, es) ==> Faithful(m)
  {
    StepKeepsInv(w, Call(t, id, entry));
    TurnsAreFaithful(Step(w, Call(t, id, entry)), es, t);
  }

  /** A creation that took too long is tried again exactly while attempts are left:
      whatever the sweep writes is judged so against the row in the store. */
  lemma SweepsRetry(w: World, t: nat, id: string, es: seq<Event>, k: nat)
    requires Inv(w) && t !in w.threads && id in w.rows && k < |TurnsOf(w, t, id, SweepCreateTimeout, es)|
    ensures
      var tr := TurnsOf(w, t, id, SweepCreateTimeout, es);
      tr[k].pc.Write? && !tr[k].refused ==>
        tr[k].id in tr[k].rows && Judged(w.cfg, tr[k].rows[tr[k].id], SWEEP_STAGE, Transient, tr[0].c.now, Left(tr[k]))
  {
    var tr := TurnsOf(w, t, id, SweepCreateTimeout, es);
    var last := CallIsChained(w, t, id, SweepCreateTimeout, es);
    CallIsFaithful(w, t, id, SweepCreateTimeout, es);
    SweepChain(w.cfg, tr, last, k);
    if tr[k].pc.Write? && !tr[k].refused { JudgedInStore(tr[k], SWEEP_STAGE, Transient, tr[0].c.now); }
  }
}
