/** What the reconcilers make of a finished request: each way they can go, against
    the rows they read and what GitHub said in between. */
module RunnerReconciles {
  import opened RunnerRows
  import opened RunnerCalls
  import opened RunnerMachine
  import opened RunnerTurns

  datatype Road = Queries | Rereads | Requeues | Inspects | Asks | LooksAgain | Completes

  predicate OnRoad(road: Road, h: PC) {
    match road
    case Queries => h.AtReconcile? && h.reconcile.MismatchQuery?
    case Rereads => h.AtReconcile? && h.reconcile.MismatchReread?
    case Requeues => h.Write? && h.site.MismatchRequeue?
    case Inspects => h.Write? && h.site.MismatchInspect?
    case Asks => h.AtReconcile? && h.reconcile.CompleteQuery?
    case LooksAgain => h.AtReconcile? && h.reconcile.CompleteReread?
    case Completes => h.Write? && h.site.ReconcileComplete?
  }

  /** A completed request whose runner ran the job of another. */
  predicate RanAnother(r: Row) {
    r.status.Completed? && r.req.jobId != 0 && r.assignedId != 0 && r.assignedId != r.req.jobId
  }

  /** A request with a workflow job that only recovery or the clean-up failed. */
  predicate FailedAside(r: Row) {
    r.status.Failed? && r.failureStage in ["recovery", "cleanup"] && r.req.jobId != 0 && r.req.repository != ""
  }

  predicate SameJobs(a: Row, b: Row) {
    a.status.Completed? && a.req.jobId == b.req.jobId && a.assignedId == b.assignedId
  }

  predicate Causes(road: Road, m: Turn) {
    m.pc.AtReconcile? &&
    match m.pc.reconcile
    case MismatchRead => road.Queries? && m.read.Some? && RanAnother(m.read.value)
    case MismatchQuery(_) => road.Rereads?
    case MismatchReread(cur, queued) =>
      m.read.Some? && SameJobs(m.read.value, cur) && if queued then road.Requeues? else road.Inspects?
    case CompleteRead => road.Asks? && m.read.Some? && FailedAside(m.read.value)
    case CompleteQuery(_) => road.LooksAgain? && !m.c.fault && m.c.job.status.JobCompleted?
    case CompleteReread(st) =>
      && road.Completes? && m.read.Some? && FailedAside(m.read.value)
      && m.read.value.version == st.version && m.read.value.req.jobId == st.req.jobId && m.read.value.req.repository == st.req.repository
  }

  predicate Shape(h: PC) {
    match h
    case Done => true
    case AtReconcile(_) => true
    case Write(_, _, _, ok, fail) => Head(ok) == Head(fail) == Done
    case _ => false
  }

  predicate Leads(road: Road, m: Turn)
    requires TakesTurn(m.pc)
  {
    && Shape(After(m))
    && (Causes(road, m) ==> OnRoad(road, After(m)))
    && (OnRoad(road, After(m)) ==> Causes(road, m) || OnRoad(road, m.pc))
  }

  predicate OfMismatch(p: ReconcilePoint) {
    p.MismatchRead? || p.MismatchQuery? || p.MismatchReread?
  }

  lemma MismatchLeads(road: Road, m: Turn)
    requires m.pc.AtReconcile? && OfMismatch(m.pc.reconcile)
    ensures Leads(road, m)
  {
  }

  lemma CompleteLeads(road: Road, m: Turn)
    requires m.pc.AtReconcile? && !OfMismatch(m.pc.reconcile)
    ensures Leads(road, m)
  {
  }

  lemma TurnLeads(road: Road, m: Turn)
    requires TakesTurn(m.pc) && Shape(m.pc)
    ensures Leads(road, m)
  {
    if m.pc.AtReconcile? {
      if OfMismatch(m.pc.reconcile) { MismatchLeads(road, m); } else { CompleteLeads(road, m); }
    }
  }

  lemma ChainGoes(road: Road, h: PC, tr: seq<Turn>, last: PC)
    requires Chained(h, tr, last) && h in [AtReconcile(MismatchRead), AtReconcile(CompleteRead)]
    ensures Took(tr, last, (pc: PC) => OnRoad(road, pc)) <==> Happened(tr, (m: Turn) => Causes(road, m))
  {
    var fact := (m: Turn) => true;
    var shape := (pc: PC) => Shape(pc);
    var cause := (m: Turn) => Causes(road, m);
    var on := (pc: PC) => OnRoad(road, pc);
    forall m: Turn | TakesTurn(m.pc) && fact(m) && shape(m.pc)
      ensures shape(After(m)) && (cause(m) ==> on(After(m))) && (on(After(m)) ==> cause(m) || on(m.pc))
    {
      TurnLeads(road, m);
    }
    ChainTakes(h, tr, last, fact, shape, cause, on);
  }

  // ---- What is written ----------------------------------------------------------------------

  /** GitHub was asked about the row read before, and that is what it said. */
  ghost predicate Said(tr: seq<Turn>, cur: Row, queued: bool) {
    exists n :: n in tr && n.pc == AtReconcile(MismatchQuery(cur)) && (queued <==> MayBeQueued(n, cur))
  }

  ghost predicate SaidOf(tr: seq<Turn>, r: Row, queued: bool) {
    exists n :: n in tr && n.pc.AtReconcile? && n.pc.reconcile.MismatchQuery? && SameJobs(r, n.pc.reconcile.cur)
                && RanAnother(n.pc.reconcile.cur) && (queued <==> MayBeQueued(n, n.pc.reconcile.cur))
  }

  ghost predicate SaidCompleted(tr: seq<Turn>, version: nat) {
    exists n :: n in tr && n.pc.AtReconcile? && n.pc.reconcile.CompleteQuery? && n.pc.reconcile.st.version == version
                && !n.c.fault && n.c.job.status.JobCompleted?
  }

  predicate Repaired(before: Row, after: Row) {
    && after.status.Completed? && after.failureStage == "" && !after.errorRetryable && after.nextRetryAt == 0 && after.lease == NO_LEASE
    && after.assignedId == 0 && after.assignedName == "" && after.req == before.req && after.sandbox == before.sandbox
  }

  ghost predicate Knows(h: PC, tr: seq<Turn>) {
    && Shape(h)
    && match h
       case AtReconcile(p) =>
         (match p
          case MismatchQuery(cur) => RanAnother(cur)
          case MismatchReread(cur, queued) => RanAnother(cur) && Said(tr, cur, queued)
          case CompleteReread(st) => SaidCompleted(tr, st.version)
          case _ => true)
       case Write(site, base, row, _, _) =>
         (match site
          case MismatchRequeue => SaidOf(tr, base, true) && StartedOver(base, row)
          case MismatchInspect => SaidOf(tr, base, false) && Looked(base, row)
          case ReconcileComplete => SaidCompleted(tr, base.version) && FailedAside(base) && Repaired(base, row)
          case _ => false)
       case _ => true
  }

  lemma MismatchHandsOn(m: Turn, tr: seq<Turn>)
    requires m.pc.AtReconcile? && OfMismatch(m.pc.reconcile) && Knows(m.pc, tr)
    ensures Knows(After(m), tr + [m])
  {
    Remembered(tr, m);
    MismatchLeads(Queries, m);
  }

  lemma CompleteHandsOn(m: Turn, tr: seq<Turn>)
    requires m.pc.AtReconcile? && !OfMismatch(m.pc.reconcile) && Knows(m.pc, tr)
    ensures Knows(After(m), tr + [m])
  {
    Remembered(tr, m);
    CompleteLeads(Queries, m);
  }

  lemma TurnHandsOn(m: Turn, tr: seq<Turn>)
    requires TakesTurn(m.pc) && Knows(m.pc, tr)
    ensures Knows(After(m), tr + [m])
  {
    if m.pc.AtReconcile? {
      if OfMismatch(m.pc.reconcile) { MismatchHandsOn(m, tr); } else { CompleteHandsOn(m, tr); }
    }
  }

  lemma KnowsAt(h: PC, tr: seq<Turn>, last: PC, k: nat)
    requires Chained(h, tr, last) && k < |tr| && h in [AtReconcile(MismatchRead), AtReconcile(CompleteRead)]
    ensures Knows(tr[k].pc, tr[..k])
  {
    var fact := (m: Turn) => true;
    var knows := (pc: PC, before: seq<Turn>) => Knows(pc, before);
    ChainUpTo(h, tr, last, k);
    forall m: Turn, before: seq<Turn> | TakesTurn(m.pc) && fact(m) && knows(m.pc, before) ensures knows(After(m), before + [m]) {
      TurnHandsOn(m, before);
    }
    assert knows(h, []);
    ChainKeeps(h, tr[..k], tr[k].pc, fact, knows, []);
    assert [] + tr[..k] == tr[..k];
  }

  // ---- Over runs -----------------------------------------------------------------------------

  predicate Reconciles(e: Entry) {
    e.ReconcileMismatch? || e.ReconcileFailed?
  }

  /** Whatever else runs, a reconciler goes each of its ways exactly when it was given the answer for it. */
  lemma ReconcilersGoAsAnswered(w: World, t: nat, id: string, e: Entry, es: seq<Event>, road: Road)
    requires t !in w.threads && id in w.rows && Reconciles(e)
    ensures
      var w' := Step(w, Call(t, id, e));
      && t in w'.threads
      && (Took(TurnsIn(w', es, t), HeadNow(w', es, t), (h: PC) => OnRoad(road, h)) <==>
          Happened(TurnsIn(w', es, t), (m: Turn) => Causes(road, m)))
  {
    var last := CallIsChained(w, t, id, e, es);
    ChainGoes(road, Head(Enter(e)), TurnsOf(w, t, id, e, es), last);
  }

  /** A mismatched request is queued again only if GitHub said that its own job may
      still be queued, and only looked at if GitHub said that it is not; a failed one
      is repaired only after GitHub said that the job is completed. */
  lemma ReconcilersWriteAsAnswered(w: World, t: nat, id: string, e: Entry, es: seq<Event>, k: nat)
    requires t !in w.threads && id in w.rows && Reconciles(e) && k < |TurnsOf(w, t, id, e, es)|
    ensures var tr := TurnsOf(w, t, id, e, es); Knows(tr[k].pc, tr[..k])
  {
    var last := CallIsChained(w, t, id, e, es);
    KnowsAt(Head(Enter(e)), TurnsOf(w, t, id, e, es), last, k);
  }
}
