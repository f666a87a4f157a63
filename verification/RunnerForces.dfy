/** What a forced stop writes (failAndStopRunnerVersion), told by the row it read
    and the answers it was given. */
module RunnerForces {
  import opened RunnerRows
  import opened RunnerCalls
  import opened RunnerMachine
  import opened RunnerFailures
  import opened RunnerTurns

  datatype Road = Begins | StopFails | Cleans | CleansLater | Finishes

  predicate OnRoad(road: Road, h: PC) {
    match road
    case Begins => h.Write? && h.site.ForceBegin?
    case StopFails => h.Write? && h.site.ForceStopFailed?
    case Cleans => h.AtForce? && h.force.ForceCleanup?
    case CleansLater => h.Write? && h.site.ForceCleanupRetry?
    case Finishes => h.Write? && h.site.ForceDone?
  }

  /** The row is still the one the caller looked at, if it looked, and not final. */
  predicate Stoppable(r: Row, version: nat) {
    (version == 0 || r.version == version) && !r.status.Completed? && !r.status.Failed?
  }

  predicate Causes(road: Road, m: Turn) {
    m.pc.AtForce? &&
    match m.pc.force
    case ForceRead(version, _) => road.Begins? && m.read.Some? && Stoppable(m.read.value, version)
    case ForceSandbox(st, _) => if st.sandbox != "" && m.c.stopFails then road.StopFails? else road.Cleans?
    case ForceCleanup(st, _) =>
      if m.c.cleanupFails && MayRetryCleanup(m.cfg, st, m.c.error) then road.CleansLater? else road.Finishes?
  }

  /** The copy a forced stop works on. */
  function Begun(r: Row, stage: string): Row {
    r.(status := Stopping, failureStage := stage, version := r.version + 1)
  }

  predicate Shape(stage: string, h: PC) {
    match h
    case Done => true
    case AtForce(p) => p.stage == stage && (!p.ForceRead? ==> p.st.failureStage == stage)
    case Write(site, _, row, ok, fail) =>
      Head(fail) == Done &&
      if site.ForceBegin? then row.failureStage == stage && Head(ok) == AtForce(ForceSandbox(row.(version := row.version + 1), stage))
      else Head(ok) == Done
    case _ => false
  }

  predicate Leads(road: Road, stage: string, m: Turn)
    requires TakesTurn(m.pc)
  {
    && Shape(stage, After(m))
    && (Causes(road, m) ==> OnRoad(road, After(m)))
    && (OnRoad(road, After(m)) ==> Causes(road, m) || OnRoad(road, m.pc))
  }

  lemma BeforeCleanupLeads(road: Road, stage: string, m: Turn)
    requires Shape(stage, m.pc) && m.pc.AtForce?
    requires !m.pc.force.ForceCleanup?
    ensures Leads(road, stage, m)
  {
  }

  lemma CleanupLeads(road: Road, stage: string, m: Turn)
    requires Shape(stage, m.pc) && m.pc.AtForce?
    requires m.pc.force.ForceCleanup?
    ensures Leads(road, stage, m)
  {
    CleanupIsJudged(m.cfg, m.pc.force.st, m.c.error, m.c.now);
  }

  lemma WriteLeads(road: Road, stage: string, m: Turn)
    requires Shape(stage, m.pc) && m.pc.Write?
    ensures Leads(road, stage, m)
  {
  }

  lemma ChainGoes(road: Road, version: nat, stage: string, tr: seq<Turn>, last: PC)
    requires Chained(AtForce(ForceRead(version, stage)), tr, last)
    ensures Took(tr, last, (h: PC) => OnRoad(road, h)) <==> Happened(tr, (m: Turn) => Causes(road, m))
  {
    var fact := (m: Turn) => true;
    var shape := (h: PC) => Shape(stage, h);
    var cause := (m: Turn) => Causes(road, m);
    var on := (h: PC) => OnRoad(road, h);
    forall m: Turn | TakesTurn(m.pc) && fact(m) && shape(m.pc)
      ensures shape(After(m)) && (cause(m) ==> on(After(m))) && (on(After(m)) ==> cause(m) || on(m.pc))
    {
      if m.pc.Write? { WriteLeads(road, stage, m); }
      else if m.pc.force.ForceCleanup? { CleanupLeads(road, stage, m); }
      else { BeforeCleanupLeads(road, stage, m); }
    }
    ChainTakes(AtForce(ForceRead(version, stage)), tr, last, fact, shape, cause, on);
  }

  // ---- What is written ----------------------------------------------------------------------

  /** `m` is the turn before the write. */
  predicate KnowsWrite(cfg: Config, version: nat, stage: string, r: Row, site: Site, base: Row, row: Row, m: Turn) {
    match site
    case ForceBegin => base == r && Stoppable(r, version) && row == r.(status := Stopping, failureStage := stage)
    case ForceStopFailed => base == Begun(r, stage) && m.c.stopFails && row == base.(status := Failed, failureStage := "stop")
    case ForceCleanupRetry(_) =>
      && base == Begun(r, stage) && m.c.cleanupFails && MayRetryCleanup(cfg, base, m.c.error)
      && CleanupRetried(cfg, base, m.c.now, row)
    case ForceDone =>
      && base == Begun(r, stage) && row.status.Failed? && row.lease == NO_LEASE && row.sandbox == r.sandbox
      && row.failureStage == (if m.c.cleanupFails then "cleanup" else stage)
    case _ => false
  }

  /** Everything a forced stop does is for the row it read in its first turn. */
  predicate Knows(cfg: Config, version: nat, stage: string, h: PC, tr: seq<Turn>) {
    if tr == [] then h == AtForce(ForceRead(version, stage))
    else if tr[0].read.None? then h == Done
    else
      var r := tr[0].read.value;
      Shape(stage, h) &&
      match h
      case Done => true
      case AtForce(p) => !p.ForceRead? && p.st == Begun(r, stage)
      case Write(site, base, row, ok, fail) =>
        KnowsWrite(cfg, version, stage, r, site, base, row, tr[|tr| - 1]) && (site.ForceBegin? ==> row.(version := row.version + 1) == Begun(r, stage))
      case _ => false
  }

  lemma FirstHandsOn(cfg: Config, version: nat, stage: string, m: Turn)
    requires m.pc == AtForce(ForceRead(version, stage))
    ensures Knows(cfg, version, stage, After(m), [m])
  {
  }

  lemma WriteHandsOn(cfg: Config, version: nat, stage: string, m: Turn, tr: seq<Turn>)
    requires m.cfg == cfg && tr != [] && Knows(cfg, version, stage, m.pc, tr) && m.pc.Write?
    ensures Knows(cfg, version, stage, After(m), tr + [m])
  {
    assert (tr + [m])[|tr + [m]| - 1] == m && (tr + [m])[0] == tr[0];
  }

  lemma BeforeCleanupHandsOn(cfg: Config, version: nat, stage: string, m: Turn, tr: seq<Turn>)
    requires m.cfg == cfg && tr != [] && Knows(cfg, version, stage, m.pc, tr) && m.pc.AtForce?
    requires !m.pc.force.ForceCleanup?
    ensures Knows(cfg, version, stage, After(m), tr + [m])
  {
    assert (tr + [m])[|tr + [m]| - 1] == m && (tr + [m])[0] == tr[0];
  }

  lemma CleanupHandsOn(cfg: Config, version: nat, stage: string, m: Turn, tr: seq<Turn>)
    requires m.cfg == cfg && tr != [] && Knows(cfg, version, stage, m.pc, tr) && m.pc.AtForce?
    requires m.pc.force.ForceCleanup?
    ensures Knows(cfg, version, stage, After(m), tr + [m])
  {
    assert (tr + [m])[|tr + [m]| - 1] == m && (tr + [m])[0] == tr[0];
    CleanupIsJudged(cfg, m.pc.force.st, m.c.error, m.c.now);
  }

  lemma KnowsAt(cfg: Config, version: nat, stage: string, tr: seq<Turn>, last: PC, k: nat)
    requires Chained(AtForce(ForceRead(version, stage)), tr, last) && (forall m :: m in tr ==> m.cfg == cfg) && k < |tr|
    ensures Knows(cfg, version, stage, tr[k].pc, tr[..k])
  {
    var fact := (m: Turn) => m.cfg == cfg;
    var knows := (h: PC, before: seq<Turn>) => Knows(cfg, version, stage, h, before);
    ChainUpTo(AtForce(ForceRead(version, stage)), tr, last, k);
    forall m: Turn, before: seq<Turn> | TakesTurn(m.pc) && fact(m) && knows(m.pc, before) ensures knows(After(m), before + [m]) {
      if before == [] {
        FirstHandsOn(cfg, version, stage, m);
        assert before + [m] == [m];
      } else if m.pc.Write? {
        WriteHandsOn(cfg, version, stage, m, before);
      } else if m.pc.force.ForceCleanup? {
        CleanupHandsOn(cfg, version, stage, m, before);
      } else {
        BeforeCleanupHandsOn(cfg, version, stage, m, before);
      }
    }
    forall m | m in tr[..k] ensures fact(m) { assert m in tr; }
    assert knows(AtForce(ForceRead(version, stage)), []);
    ChainKeeps(AtForce(ForceRead(version, stage)), tr[..k], tr[k].pc, fact, knows, []);
    assert [] + tr[..k] == tr[..k];
  }

  // ---- Over runs -----------------------------------------------------------------------------

  /** Whatever else runs, a forced stop goes each of its ways exactly when it was given the answer for it. */
  lemma ForcedStopsGoAsAnswered(w: World, t: nat, id: string, stage: string, es: seq<Event>, road: Road)
    requires t !in w.threads && id in w.rows
    ensures
      var w' := Step(w, Call(t, id, ForcedStop(stage)));
      && t in w'.threads
      && (Took(TurnsIn(w', es, t), HeadNow(w', es, t), (h: PC) => OnRoad(road, h)) <==>
          Happened(TurnsIn(w', es, t), (m: Turn) => Causes(road, m)))
  {
    var last := CallIsChained(w, t, id, ForcedStop(stage), es);
    ChainGoes(road, 0, stage, TurnsOf(w, t, id, ForcedStop(stage), es), last);
  }

  /** And it fails its request under its own stage, unless the sandbox cannot be
      stopped or its runner cannot be removed. */
  lemma ForcedStopsWriteAsAnswered(w: World, t: nat, id: string, stage: string, es: seq<Event>, k: nat)
    requires t !in w.threads && id in w.rows && k < |TurnsOf(w, t, id, ForcedStop(stage), es)|
    ensures var tr := TurnsOf(w, t, id, ForcedStop(stage), es); Knows(w.cfg, 0, stage, tr[k].pc, tr[..k])
  {
    var last := CallIsChained(w, t, id, ForcedStop(stage), es);
    KnowsAt(w.cfg, 0, stage, TurnsOf(w, t, id, ForcedStop(stage), es), last, k);
  }
}
