/** What the end of a runner process makes of its request: each way runnerExited can
    go, against the row it read and the answers it was given. */
module RunnerExits {
  import opened Common
  import opened RunnerRows
  import opened RunnerCalls
  import opened RunnerMachine
  import opened RunnerFailures
  import opened RunnerTurns

  datatype Road = AsksBusy | TriesToKeep | Keeps | LooksAgain | Settles | CleansLater

  predicate OnRoad(road: Road, h: PC) {
    match road
    case AsksBusy => h.AtExit? && h.exit.ExitBusy?
    case TriesToKeep => h.AtExit? && h.exit.ExitBusyRead?
    case Keeps => h.Write? && h.site.KeepBusy?
    case LooksAgain => h.AtExit? && h.exit.ExitReread?
    case Settles => h.Write? && h.site.RunnerExit?
    case CleansLater => h.Write? && h.site.ExitCleanupRetry?
  }

  predicate FindsActive(m: Turn) {
    m.read.Some? && Active(m.read.value.status)
  }

  /** The row this turn found is to be settled, as far as the runner on GitHub allows. */
  predicate Decides(m: Turn) {
    m.pc.AtExit? && FindsActive(m) && ((m.pc.exit.ExitRead? && m.pc.exit.exit.CleanExit?) || m.pc.exit.ExitReread?)
  }

  predicate MustWait(m: Turn) {
    m.read.Some? && m.c.cleanupFails && MayRetryCleanup(m.cfg, m.read.value, m.c.error)
  }

  predicate SameRunner(a: Row, b: Row) {
    a.req.runnerName == b.req.runnerName && a.sandbox == b.sandbox
  }

  predicate Causes(road: Road, m: Turn) {
    match road
    case AsksBusy => m.pc.AtExit? && m.pc.exit.ExitRead? && FindsActive(m) && !m.pc.exit.exit.CleanExit?
    case TriesToKeep => m.pc.AtExit? && m.pc.exit.ExitBusy? && !m.c.fault && m.c.yes
    case Keeps => m.pc.AtExit? && m.pc.exit.ExitBusyRead? && FindsActive(m) && SameRunner(m.read.value, m.pc.exit.st)
    case LooksAgain =>
      || (m.pc.AtExit? && m.pc.exit.ExitBusy? && (m.c.fault || !m.c.yes))
      || (m.pc.AtExit? && m.pc.exit.ExitBusyRead? && m.read.None?)
      || (m.pc.Write? && m.pc.site.KeepBusy? && m.refused)
    case Settles => Decides(m) && !MustWait(m)
    case CleansLater => Decides(m) && MustWait(m)
  }

  predicate Shape(exit: Exit, h: PC) {
    match h
    case Done => true
    case AtExit(p) => p.exit == exit
    case Write(site, _, _, ok, fail) =>
      Head(ok) == Done && if site.KeepBusy? then Head(fail) == AtExit(ExitReread(exit)) else Head(fail) == Done
    case _ => false
  }

  predicate Leads(road: Road, exit: Exit, m: Turn)
    requires TakesTurn(m.pc)
  {
    && Shape(exit, After(m))
    && (Causes(road, m) ==> OnRoad(road, After(m)))
    && (OnRoad(road, After(m)) ==> Causes(road, m) || OnRoad(road, m.pc))
  }

  lemma SettleGoes(cfg: Config, st: Row, exit: Exit, c: Choice)
    ensures
      var pc := ExitSettle(cfg, st, exit, c);
      && pc.Write? && Head(pc.ok) == Head(pc.fail) == Done && pc.base == st
      && (if c.cleanupFails && MayRetryCleanup(cfg, st, c.error) then
            pc.site.ExitCleanupRetry? && CleanupRetried(cfg, if exit.CleanExit? then st else st.(failureStage := "runner_exit"), c.now, pc.row)
          else pc.site.RunnerExit? && Ended(st, exit, c, pc.row))
  {
    var failed := st.(status := Failed, failureStage := "runner_exit");
    CleanupIsJudged(cfg, failed, c.error, c.now);
    CleanupIsJudged(cfg, st.(status := Failed), c.error, c.now);
    CleanupIsJudged(cfg, st.(status := Completed, times := st.times.(completed := c.now)), c.error, c.now);
  }

  /** A request is completed exactly if its process ended well and neither its sandbox
      nor its runner on GitHub is left behind; it is failed otherwise. */
  predicate Ended(before: Row, exit: Exit, c: Choice, after: Row) {
    && (after.status.Completed? <==> exit.CleanExit? && !(before.sandbox != "" && c.stopFails) && !c.cleanupFails)
    && (after.status.Failed? <==> !after.status.Completed?)
    && (after.failureStage ==
        if c.cleanupFails && !exit.ProcessError? then "cleanup" else if exit.CleanExit? then before.failureStage else "runner_exit")
    && after.sandbox == before.sandbox && after.retryCount == before.retryCount && after.assignedId == before.assignedId
  }

  /** The runner is still at work on GitHub: the request runs on, its job unknown if nobody said which. */
  predicate Kept(before: Row, after: Row) {
    after == before.(status := Running, errorRetryable := true,
                     assignedName := if before.assignedName == "" then RUNNER_JOB_STARTED else before.assignedName)
  }

  lemma ReadLeads(road: Road, exit: Exit, m: Turn)
    requires Shape(exit, m.pc) && m.pc.AtExit? && m.pc.exit.ExitRead?
    ensures Leads(road, exit, m)
  {
    if m.read.Some? { SettleGoes(m.cfg, m.read.value, exit, m.c); }
  }

  lemma RereadLeads(road: Road, exit: Exit, m: Turn)
    requires Shape(exit, m.pc) && m.pc.AtExit? && m.pc.exit.ExitReread?
    ensures Leads(road, exit, m)
  {
    if m.read.Some? { SettleGoes(m.cfg, m.read.value, exit, m.c); }
  }

  lemma BusyLeads(road: Road, exit: Exit, m: Turn)
    requires Shape(exit, m.pc) && m.pc.AtExit? && (m.pc.exit.ExitBusy? || m.pc.exit.ExitBusyRead?)
    ensures Leads(road, exit, m)
  {
    Wrapped(AtExit(ExitReread(exit)));
  }

  lemma WriteLeads(road: Road, exit: Exit, m: Turn)
    requires Shape(exit, m.pc) && m.pc.Write?
    ensures Leads(road, exit, m)
  {
  }

  lemma ChainGoes(road: Road, exit: Exit, tr: seq<Turn>, last: PC)
    requires Chained(AtExit(ExitRead(exit)), tr, last)
    ensures Took(tr, last, (h: PC) => OnRoad(road, h)) <==> Happened(tr, (m: Turn) => Causes(road, m))
  {
    var fact := (m: Turn) => true;
    var shape := (h: PC) => Shape(exit, h);
    var cause := (m: Turn) => Causes(road, m);
    var on := (h: PC) => OnRoad(road, h);
    forall m: Turn | TakesTurn(m.pc) && fact(m) && shape(m.pc)
      ensures shape(After(m)) && (cause(m) ==> on(After(m))) && (on(After(m)) ==> cause(m) || on(m.pc))
    {
      if m.pc.Write? {
        WriteLeads(road, exit, m);
      } else if m.pc.exit.ExitRead? {
        ReadLeads(road, exit, m);
      } else if m.pc.exit.ExitReread? {
        RereadLeads(road, exit, m);
      } else {
        BusyLeads(road, exit, m);
      }
    }
    ChainTakes(AtExit(ExitRead(exit)), tr, last, fact, shape, cause, on);
  }

  // ---- What is written ----------------------------------------------------------------------

  /** The last turn before a write found the row the write is made from. */
  predicate KnowsWrite(cfg: Config, exit: Exit, site: Site, base: Row, row: Row, ok: PC, fail: PC, m: Turn) {
    && Head(ok) == Done && m.read == Some(base) && Active(base.status)
    && match site
       case KeepBusy => Kept(base, row) && Head(fail) == AtExit(ExitReread(exit)) && m.pc.AtExit? && m.pc.exit.ExitBusyRead?
       case RunnerExit => Decides(m) && Ended(base, exit, m.c, row) && Head(fail) == Done
       case ExitCleanupRetry(_) =>
         && Decides(m) && Head(fail) == Done
         && CleanupRetried(cfg, if exit.CleanExit? then base else base.(failureStage := "runner_exit"), m.c.now, row)
       case _ => false
  }

  predicate Knows(cfg: Config, exit: Exit, h: PC, tr: seq<Turn>) {
    match h
    case Done => true
    case AtExit(p) => p.exit == exit
    case Write(site, base, row, ok, fail) => tr != [] && KnowsWrite(cfg, exit, site, base, row, ok, fail, tr[|tr| - 1])
    case _ => false
  }

  lemma WriteHandsOn(cfg: Config, exit: Exit, m: Turn, tr: seq<Turn>)
    requires m.cfg == cfg && Knows(cfg, exit, m.pc, tr) && m.pc.Write?
    ensures Knows(cfg, exit, After(m), tr + [m])
  {
  }

  lemma BusyHandsOn(cfg: Config, exit: Exit, m: Turn, tr: seq<Turn>)
    requires m.cfg == cfg && Knows(cfg, exit, m.pc, tr) && m.pc.AtExit? && (m.pc.exit.ExitBusy? || m.pc.exit.ExitBusyRead?)
    ensures Knows(cfg, exit, After(m), tr + [m])
  {
    assert (tr + [m])[|tr + [m]| - 1] == m;
    Wrapped(AtExit(ExitReread(exit)));
  }

  lemma ReadHandsOn(cfg: Config, exit: Exit, m: Turn, tr: seq<Turn>)
    requires m.cfg == cfg && Knows(cfg, exit, m.pc, tr) && m.pc.AtExit? && (m.pc.exit.ExitRead? || m.pc.exit.ExitReread?)
    ensures Knows(cfg, exit, After(m), tr + [m])
  {
    assert (tr + [m])[|tr + [m]| - 1] == m;
    if m.read.Some? { SettleGoes(cfg, m.read.value, exit, m.c); }
  }

  lemma TurnHandsOn(cfg: Config, exit: Exit, m: Turn, tr: seq<Turn>)
    requires TakesTurn(m.pc) && m.cfg == cfg && Knows(cfg, exit, m.pc, tr)
    ensures Knows(cfg, exit, After(m), tr + [m])
  {
    if m.pc.Write? {
      WriteHandsOn(cfg, exit, m, tr);
    } else if m.pc.exit.ExitRead? || m.pc.exit.ExitReread? {
      ReadHandsOn(cfg, exit, m, tr);
    } else {
      BusyHandsOn(cfg, exit, m, tr);
    }
  }

  lemma KnowsAt(cfg: Config, exit: Exit, tr: seq<Turn>, last: PC, k: nat)
    requires Chained(AtExit(ExitRead(exit)), tr, last) && (forall m :: m in tr ==> m.cfg == cfg) && k < |tr|
    ensures Knows(cfg, exit, tr[k].pc, tr[..k])
  {
    var fact := (m: Turn) => m.cfg == cfg;
    var knows := (h: PC, before: seq<Turn>) => Knows(cfg, exit, h, before);
    ChainUpTo(AtExit(ExitRead(exit)), tr, last, k);
    forall m: Turn, before: seq<Turn> | TakesTurn(m.pc) && fact(m) && knows(m.pc, before) ensures knows(After(m), before + [m]) {
      TurnHandsOn(cfg, exit, m, before);
    }
    forall m | m in tr[..k] ensures fact(m) { assert m in tr; }
    assert knows(AtExit(ExitRead(exit)), []);
    ChainKeeps(AtExit(ExitRead(exit)), tr[..k], tr[k].pc, fact, knows, []);
    assert [] + tr[..k] == tr[..k];
  }

  // ---- Over runs -----------------------------------------------------------------------------

  /** Whatever else runs, an exit goes each of its ways exactly when it was given the answer for it. */
  lemma ExitsGoAsAnswered(w: World, t: nat, id: string, exit: Exit, es: seq<Event>, road: Road)
    requires t !in w.threads && id in w.rows
    ensures
      var w' := Step(w, Call(t, id, RunnerProcessExited(exit)));
      && t in w'.threads
      && (Took(TurnsIn(w', es, t), HeadNow(w', es, t), (h: PC) => OnRoad(road, h)) <==>
          Happened(TurnsIn(w', es, t), (m: Turn) => Causes(road, m)))
  {
    var last := CallIsChained(w, t, id, RunnerProcessExited(exit), es);
    ChainGoes(road, exit, TurnsOf(w, t, id, RunnerProcessExited(exit), es), last);
  }

  /** And what it writes is made of the row its turn before read: completed exactly
      after a clean exit that leaves nothing behind, kept running while GitHub says
      the runner is busy, waiting for the clean-up if that can be tried again. */
  lemma ExitsWriteAsAnswered(w: World, t: nat, id: string, exit: Exit, es: seq<Event>, k: nat)
    requires t !in w.threads && id in w.rows && k < |TurnsOf(w, t, id, RunnerProcessExited(exit), es)|
    ensures var tr := TurnsOf(w, t, id, RunnerProcessExited(exit), es); Knows(w.cfg, exit, tr[k].pc, tr[..k])
  {
    var last := CallIsChained(w, t, id, RunnerProcessExited(exit), es);
    KnowsAt(w.cfg, exit, TurnsOf(w, t, id, RunnerProcessExited(exit), es), last, k);
  }

  /** A clean exit completes its request: if the row it reads is active and neither
      the sandbox nor the runner on GitHub is left behind, its next turn writes the
      row completed, and unless the store refuses it that is what the store has. */
  lemma CleanExitsComplete(w: World, t: nat, id: string, es: seq<Event>)
    requires t !in w.threads && id in w.rows
    ensures
      var tr := TurnsOf(w, t, id, RunnerProcessExited(CleanExit), es);
      |tr| >= 2 && FindsActive(tr[0]) && (tr[0].read.value.sandbox == "" || !tr[0].c.stopFails) && !tr[0].c.cleanupFails ==>
        tr[1].pc.Write? && tr[1].pc.row.status.Completed? && (!tr[1].refused ==> id in tr[1].rows && tr[1].id == id && Left(tr[1]).status.Completed?)
  {
    var tr := TurnsOf(w, t, id, RunnerProcessExited(CleanExit), es);
    var last := CallIsChained(w, t, id, RunnerProcessExited(CleanExit), es);
    if |tr| >= 2 && FindsActive(tr[0]) {
      FirstTurns(AtExit(ExitRead(CleanExit)), tr, last);
      SettleGoes(w.cfg, tr[0].read.value, CleanExit, tr[0].c);
      assert tr[0] in tr && tr[1] in tr;
    }
  }
}
