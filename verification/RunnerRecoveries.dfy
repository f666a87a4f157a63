/** What restart recovery does with a request: each way it can go, against the row it
    read and the answers of GitHub and the sandbox service. */
module RunnerRecoveries {
  import opened Common
  import opened RunnerRows
  import opened RunnerCalls
  import opened RunnerMachine
  import RunnerStops
  import opened RunnerTurns

  datatype Road = Unleases | StopsOn | AsksForJob | StopsFinished | Connects | Forces | Attaches | Restores | Requeues | StartsOver

  predicate OnRoad(road: Road, h: PC) {
    match road
    case Unleases => h.Write? && h.site.RecoverQueued?
    case StopsOn => h == AtStop(StopRead(NO_JOB, false))
    case AsksForJob => h.AtRecover? && h.recover.RecoverJob?
    case StopsFinished => h.AtStop? && h.stop.StopRead? && h.stop.recovering
    case Connects => h.AtRecover? && h.recover.RecoverConnect?
    case Forces => h.AtForce? && h.force.ForceRead?
    case Attaches => h.AtRecover? && h.recover.RecoverAttach?
    case Restores => h.Write? && h.site.RecoverRunning?
    case Requeues => h.AtRecover? && h.recover.RequeueRead?
    case StartsOver => h.Write? && h.site.RecoverRequeue?
  }

  /** The request has a workflow job, and GitHub says how it stands. */
  predicate Learns(m: Turn, r: Row) {
    r.req.jobId != 0 && r.req.repository != "" && !m.c.fault
  }

  /** Another run of the job is to be expected, or already under way elsewhere. */
  predicate NotStarted(answer: Option<JobStatus>) {
    answer.None? || answer.value.JobQueued?
  }

  /** What the attempt to reconnect puts the call on; a sandbox whose time is over is not reconnected. */
  predicate ConnectCauses(road: Road, m: Turn, st: Row, answer: Option<JobStatus>) {
    if m.c.yes then road.Forces?
    else if m.c.fault then false
    else
      match m.c.reconnect
      case Reconnected => road.Attaches?
      case SandboxNotFound =>
        || (road.Forces? && (st.status.Running? || (st.status.Creating? && answer == Some(JobInProgress))))
        || (road.Requeues? && st.status.Creating? && NotStarted(answer))
      case RunnerNotFound => road.Requeues? && st.status.Creating? && m.c.sandbox != "" && !m.c.stopFails
      case ReconnectFailed => false
  }

  predicate Causes(road: Road, m: Turn) {
    || (m.pc.AtRecover? &&
        match m.pc.recover
        case RecoverRead =>
          m.read.Some? &&
          (match m.read.value.status
           case Queued => road.Unleases?
           case Stopping => road.StopsOn?
           case Creating => road.AsksForJob?
           case Running => road.AsksForJob?
           case _ => false)
        case RecoverJob(st) => if Learns(m, st) && m.c.job.status.JobCompleted? then road.StopsFinished? else road.Connects?
        case RecoverConnect(st, answer) => ConnectCauses(road, m, st, answer)
        case RecoverAttach(version, _, _) =>
          road.Restores? && m.read.Some? && m.read.value.version == version && Active(m.read.value.status)
        case RequeueRead(version) =>
          road.StartsOver? && m.read.Some? && m.read.value.version == version && m.read.value.status.Creating?)
    || (m.pc.AtStop? && m.pc.stop.StopRead? && m.pc.stop.recovering && road.Connects?
        && m.read.Some? && !RunnerStops.Concerns(m.read.value, m.pc.stop.job) && Active(m.read.value.status))
  }

  /** What may follow a write. */
  predicate Tail(site: Site, head: PC) {
    || head == Done
    || (head.AtStop? && !head.stop.StopRead?)
    || (head.AtForce? && !head.force.ForceRead?)
    || (site.StopInspect? && head.Write? && head.site.StopMismatchDone? && Head(head.ok) == Head(head.fail) == Done)
  }

  predicate Shape(h: PC) {
    match h
    case Done => true
    case AtRecover(_) => true
    case AtStop(_) => true
    case AtForce(_) => true
    case Write(site, _, _, ok, fail) => Tail(site, Head(ok)) && Head(fail) == Done
    case _ => false
  }

  predicate Leads(road: Road, m: Turn)
    requires TakesTurn(m.pc)
  {
    && Shape(After(m))
    && (Causes(road, m) ==> OnRoad(road, After(m)))
    && (OnRoad(road, After(m)) ==> Causes(road, m) || OnRoad(road, m.pc))
  }

  lemma WriteLeads(road: Road, m: Turn)
    requires Shape(m.pc) && m.pc.Write?
    ensures Leads(road, m)
  {
  }

  lemma StopReadLeads(road: Road, m: Turn)
    requires m.pc.AtStop? && m.pc.stop.StopRead?
    ensures Leads(road, m)
  {
  }

  lemma StopEndLeads(road: Road, m: Turn)
    requires m.pc.AtStop? && (m.pc.stop.StopSandbox? || m.pc.stop.StopCleanup?)
    ensures Leads(road, m)
  {
  }

  lemma StopSettleGoes(m: Turn)
    requires m.pc.AtStop? && m.pc.stop.StopSettle?
    ensures
      var next := After(m);
      && next.Write? && Head(next.fail) == Done
      && (next.site.StopRequeue? || next.site.StopInspect? || next.site.StopDone?) && Tail(next.site, Head(next.ok))
  {
    var next := After(m);
    if next.site.StopInspect? {
      assert next.ok.Write? && next.ok.site.StopMismatchDone? && Head(next.ok.ok) == Head(next.ok.fail) == Done;
    }
  }

  lemma StopSettleLeads(road: Road, m: Turn)
    requires m.pc.AtStop? && m.pc.stop.StopSettle?
    ensures Leads(road, m)
  {
    StopSettleGoes(m);
  }

  lemma ForceLeads(road: Road, m: Turn)
    requires m.pc.AtForce?
    ensures Leads(road, m)
  {
  }

  lemma ReadGoes(m: Turn)
    requires m.pc.AtRecover? && m.pc.recover.RecoverRead?
    ensures
      var next := After(m);
      if m.read.None? || m.read.value.status.Completed? || m.read.value.status.Failed? then next == Done
      else if m.read.value.status.Queued? then next.Write? && next.site.RecoverQueued? && Head(next.ok) == Head(next.fail) == Done
      else if m.read.value.status.Stopping? then next == AtStop(StopRead(NO_JOB, false))
      else next.AtRecover? && next.recover.RecoverJob?
  {
    Wrapped(AtStop(StopRead(NO_JOB, false)));
  }

  lemma ReadLeads(road: Road, m: Turn)
    requires m.pc.AtRecover? && m.pc.recover.RecoverRead?
    ensures Leads(road, m)
  {
    ReadGoes(m);
  }

  lemma JobLeads(road: Road, m: Turn)
    requires m.pc.AtRecover? && m.pc.recover.RecoverJob?
    ensures Leads(road, m)
  {
  }

  lemma ConnectLeads(road: Road, m: Turn)
    requires m.pc.AtRecover? && m.pc.recover.RecoverConnect?
    ensures Leads(road, m)
  {
  }

  lemma SettleLeads(road: Road, m: Turn)
    requires m.pc.AtRecover? && (m.pc.recover.RecoverAttach? || m.pc.recover.RequeueRead?)
    ensures Leads(road, m)
  {
  }

  lemma TurnLeads(road: Road, m: Turn)
    requires TakesTurn(m.pc) && Shape(m.pc)
    ensures Leads(road, m)
  {
    match m.pc
    case Write(_, _, _, _, _) => WriteLeads(road, m);
    case AtForce(_) => ForceLeads(road, m);
    case AtStop(p) =>
      if p.StopRead? { StopReadLeads(road, m); } else if p.StopSettle? { StopSettleLeads(road, m); } else { StopEndLeads(road, m); }
    case AtRecover(p) =>
      if p.RecoverRead? { ReadLeads(road, m); }
      else if p.RecoverJob? { JobLeads(road, m); }
      else if p.RecoverConnect? { ConnectLeads(road, m); }
      else { SettleLeads(road, m); }
  }

  lemma ChainGoes(road: Road, tr: seq<Turn>, last: PC)
    requires Chained(AtRecover(RecoverRead), tr, last)
    ensures Took(tr, last, (h: PC) => OnRoad(road, h)) <==> Happened(tr, (m: Turn) => Causes(road, m))
  {
    var fact := (m: Turn) => true;
    var shape := (h: PC) => Shape(h);
    var cause := (m: Turn) => Causes(road, m);
    var on := (h: PC) => OnRoad(road, h);
    forall m: Turn | TakesTurn(m.pc) && fact(m) && shape(m.pc)
      ensures shape(After(m)) && (cause(m) ==> on(After(m))) && (on(After(m)) ==> cause(m) || on(m.pc))
    {
      TurnLeads(road, m);
    }
    ChainTakes(AtRecover(RecoverRead), tr, last, fact, shape, cause, on);
  }

  // ---- What recovery works with ------------------------------------------------------------------

  /** Some earlier turn read this row. */
  ghost predicate WasRead(tr: seq<Turn>, st: Row) {
    exists n :: n in tr && n.read == Some(st)
  }

  ghost predicate WasTold(tr: seq<Turn>, job: Job) {
    exists n :: n in tr && n.c.job == job
  }

  ghost predicate WasSaid(tr: seq<Turn>, status: JobStatus) {
    exists n :: n in tr && n.c.job.status == status
  }

  /** An attempt to reconnect, for a row of this version, found this sandbox and process. */
  ghost predicate WasFound(tr: seq<Turn>, version: nat, sandbox: string, pid: nat) {
    exists n :: n in tr && n.pc.AtRecover? && n.pc.recover.RecoverConnect? && n.pc.recover.st.version == version
                && n.c.reconnect.Reconnected? && n.c.sandbox == sandbox && n.c.pid == pid
  }

  ghost predicate WasLost(tr: seq<Turn>, version: nat) {
    exists n :: n in tr && n.pc.AtRecover? && n.pc.recover.RecoverConnect? && n.pc.recover.st.version == version
  }

  /** Attached again: running in the sandbox that was found, with no trace of a failure. */
  predicate Reattached(before: Row, sandbox: string, pid: nat, after: Row) {
    after == before.(status := Running, sandbox := sandbox, pid := pid, failureStage := "", errorRetryable := false, lease := NO_LEASE)
  }

  /** Queued at once, as before its creation began. */
  predicate PutBack(before: Row, after: Row) {
    && after.status.Queued? && Cleared(after) && after.nextRetryAt == 0 && after.failureStage == "" && !after.errorRetryable
    && after.lease == NO_LEASE && after.retryCount == before.retryCount && after.req == before.req
  }

  ghost predicate KnowsWrite(site: Site, base: Row, row: Row, tr: seq<Turn>) {
    match site
    case RecoverQueued => base.status.Queued? && row == base.(lease := NO_LEASE)
    case RecoverRunning => WasFound(tr, base.version, row.sandbox, row.pid) && Reattached(base, row.sandbox, row.pid, row)
    case RecoverRequeue => WasLost(tr, base.version) && PutBack(base, row)
    case _ => true
  }

  ghost predicate Knows(h: PC, tr: seq<Turn>) {
    && Shape(h)
    && match h
       case AtRecover(p) =>
         (match p
          case RecoverRead => true
          case RecoverJob(st) => WasRead(tr, st)
          case RecoverConnect(st, answer) => WasRead(tr, st) && (answer.Some? ==> WasSaid(tr, answer.value))
          case RecoverAttach(version, sandbox, pid) => WasFound(tr, version, sandbox, pid)
          case RequeueRead(version) => WasLost(tr, version))
       case AtStop(p) => p.StopRead? && p.recovering ==> WasTold(tr, p.job) && p.job.status.JobCompleted?
       case AtForce(p) => p.ForceRead? ==> WasLost(tr, p.version) && p.stage in ["sandbox_timeout", "recovery"]
       case Write(site, base, row, _, _) => KnowsWrite(site, base, row, tr)
       case _ => true
  }

  lemma ReadHandsOn(m: Turn, tr: seq<Turn>)
    requires m.pc.AtRecover? && Knows(m.pc, tr) && m.pc.recover.RecoverRead?
    ensures Knows(After(m), tr + [m])
  {
    Remembered(tr, m);
    TurnLeads(Unleases, m);
    Wrapped(AtStop(StopRead(NO_JOB, false)));
  }

  lemma AskHandsOn(m: Turn, tr: seq<Turn>)
    requires m.pc.AtRecover? && Knows(m.pc, tr) && (m.pc.recover.RecoverJob? || m.pc.recover.RecoverConnect?)
    ensures Knows(After(m), tr + [m])
  {
    Remembered(tr, m);
    TurnLeads(Unleases, m);
  }

  lemma SettleHandsOn(m: Turn, tr: seq<Turn>)
    requires m.pc.AtRecover? && Knows(m.pc, tr) && (m.pc.recover.RecoverAttach? || m.pc.recover.RequeueRead?)
    ensures Knows(After(m), tr + [m])
  {
    Remembered(tr, m);
    TurnLeads(Unleases, m);
  }

  lemma OtherHandsOn(m: Turn, tr: seq<Turn>)
    requires TakesTurn(m.pc) && !m.pc.AtRecover? && Knows(m.pc, tr)
    ensures Knows(After(m), tr + [m])
  {
    Remembered(tr, m);
    TurnLeads(Unleases, m);
  }

  lemma KnowsAt(tr: seq<Turn>, last: PC, k: nat)
    requires Chained(AtRecover(RecoverRead), tr, last) && k < |tr|
    ensures Knows(tr[k].pc, tr[..k])
  {
    var fact := (m: Turn) => true;
    var knows := (h: PC, before: seq<Turn>) => Knows(h, before);
    ChainUpTo(AtRecover(RecoverRead), tr, last, k);
    forall m: Turn, before: seq<Turn> | TakesTurn(m.pc) && fact(m) && knows(m.pc, before) ensures knows(After(m), before + [m]) {
      if !m.pc.AtRecover? { OtherHandsOn(m, before); }
      else if m.pc.recover.RecoverRead? { ReadHandsOn(m, before); }
      else if m.pc.recover.RecoverJob? || m.pc.recover.RecoverConnect? { AskHandsOn(m, before); }
      else { SettleHandsOn(m, before); }
    }
    assert knows(AtRecover(RecoverRead), []);
    ChainKeeps(AtRecover(RecoverRead), tr[..k], tr[k].pc, fact, knows, []);
    assert [] + tr[..k] == tr[..k];
  }

  // ---- Over runs -----------------------------------------------------------------------------

  /** Whatever else runs, a recovery goes each of its ways exactly when it was given the answer for it. */
  lemma RecoveriesGoAsAnswered(w: World, t: nat, id: string, es: seq<Event>, road: Road)
    requires t !in w.threads && id in w.rows
    ensures
      var w' := Step(w, Call(t, id, RestartRecovery));
      && t in w'.threads
      && (Took(TurnsIn(w', es, t), HeadNow(w', es, t), (h: PC) => OnRoad(road, h)) <==>
          Happened(TurnsIn(w', es, t), (m: Turn) => Causes(road, m)))
  {
    var last := CallIsChained(w, t, id, RestartRecovery, es);
    ChainGoes(road, TurnsOf(w, t, id, RestartRecovery, es), last);
  }

  /** And what it writes, or has stopped, is what it had looked at: a row still at
      the version of the attempt to reconnect, attached to the sandbox that attempt found. */
  lemma RecoveriesWriteAsAnswered(w: World, t: nat, id: string, es: seq<Event>, k: nat)
    requires t !in w.threads && id in w.rows && k < |TurnsOf(w, t, id, RestartRecovery, es)|
    ensures var tr := TurnsOf(w, t, id, RestartRecovery, es); Knows(tr[k].pc, tr[..k])
  {
    var last := CallIsChained(w, t, id, RestartRecovery, es);
    KnowsAt(TurnsOf(w, t, id, RestartRecovery, es), last, k);
  }
}
