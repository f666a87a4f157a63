/** Who waits in the queue, who is taken from it and who is sent back to it by hand,
    told by the fields of the rows. */
module RunnerQueue {
  import opened RunnerRows
  import opened RunnerCalls
  import opened RunnerMachine

  /** The request waits for nothing but a worker: its own wait and any lease are over. */
  predicate Due(r: Row, now: Clock) {
    r.status.Queued? && r.nextRetryAt <= now && r.lease.expiresAt <= now
  }

  /** A claim takes a request exactly if it is due and none that is due has waited
      longer; it takes a lease on it, which keeps everybody else from claiming it
      until that expires, and changes nothing else. */
  lemma ClaimsAreDue(w: World, t: nat, id: string, now: Clock)
    requires t !in w.threads
    ensures
      var w' := Step(w, Claim(t, id, now));
      && (w' != w <==> id in w.rows && Due(w.rows[id], now) &&
                       forall i :: i in w.rows && Due(w.rows[i], now) ==> w.rows[id].req.queuedAt <= w.rows[i].req.queuedAt)
      && (w' != w ==>
            && w'.rows == w.rows[id := w.rows[id].(lease := Lease(w.cfg.workerId, now + w.cfg.leaseTtl), version := w.rows[id].version + 1)]
            && forall later: Clock :: later < now + w.cfg.leaseTtl ==> !Due(w'.rows[id], later))
  {
    var w' := Step(w, Claim(t, id, now));
    assert NextRunnable(w.rows, id, now) <==>
      id in w.rows && Due(w.rows[id], now) &&
      forall i :: i in w.rows && Due(w.rows[i], now) ==> w.rows[id].req.queuedAt <= w.rows[i].req.queuedAt by {
      forall i | i in w.rows ensures Claimable(w.rows[i], now) <==> Due(w.rows[i], now) {
      }
    }
    if NextRunnable(w.rows, id, now) { assert t in w'.threads; }
  }

  /** An operator may retry what failed, or what waits for another attempt. */
  predicate Retriable(r: Row) {
    r.status.Failed? || (r.status.Queued? && r.nextRetryAt != 0 && r.errorRetryable)
  }

  /** A manual retry sends exactly those back, due at once, with no trace of an attempt
      but the count of those made. */
  lemma ManualRetriesStartOver(w: World, id: string, now: Clock)
    ensures
      var w' := Step(w, ManualRetry(id));
      if id in w.rows && Retriable(w.rows[id]) then
        && id in w'.rows && w' == w.(rows := w.rows[id := w'.rows[id]])
        && StartedOver(w.rows[id], w'.rows[id]) && Due(w'.rows[id], now) && w'.rows[id].version == w.rows[id].version + 1
        && w'.rows[id].times.completed == w'.rows[id].times.failed == 0
      else w' == w
  {
    var w' := Step(w, ManualRetry(id));
    if id in w.rows && Retriable(w.rows[id]) { assert w'.rows == w.rows[id := w'.rows[id]]; }
  }

  /** Nobody else has this id, and nobody the workflow job if there is one. */
  predicate IsNew(rows: Rows, id: string, req: Request) {
    id != "" && id !in rows && (req.jobId == 0 || forall i :: i in rows ==> rows[i].req.jobId != req.jobId)
  }

  /** A request is entered exactly if it is new: queued and due at once, or failed at
      its admission and never due. */
  lemma OnlyNewRequestsEnter(w: World, id: string, req: Request, now: Clock)
    ensures
      var queued, refused := Step(w, Create(id, req)), Step(w, Reject(id, req, now));
      if IsNew(w.rows, id, req) then
        && id in queued.rows && id in refused.rows
        && queued == w.(rows := w.rows[id := queued.rows[id]]) && refused == w.(rows := w.rows[id := refused.rows[id]])
        && queued.rows[id].req == refused.rows[id].req == req
        && queued.rows[id].retryCount == refused.rows[id].retryCount == 0
        && Due(queued.rows[id], now) && Cleared(queued.rows[id]) && queued.rows[id].failureStage == ""
        && refused.rows[id].status.Failed? && refused.rows[id].failureStage == "admission" && refused.rows[id].times.failed == now
      else queued == refused == w
  {
    var queued, refused := Step(w, Create(id, req)), Step(w, Reject(id, req, now));
    if IsNew(w.rows, id, req) {
      assert CanCreate(w.rows, id, req);
      assert queued.rows == w.rows[id := queued.rows[id]] && refused.rows == w.rows[id := refused.rows[id]];
    }
  }

  /** A lease is given back exactly by the server that holds it, and nothing else with it. */
  lemma LeasesAreGivenBack(w: World, t: nat, c: Choice)
    requires t in w.threads && w.threads[t].pc.ReleaseLease? && w.threads[t].id in w.rows
    ensures
      var id, w' := w.threads[t].id, Step(w, Run(t, c));
      var row := w.rows[id];
      w'.rows == if !c.fault && row.lease.owner == w.cfg.workerId then w.rows[id := row.(lease := NO_LEASE)] else w.rows
  {
  }
}
