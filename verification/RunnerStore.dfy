/** The request table as the state package serves it: one object, one method per
    transaction. Each method is proved against the row functions the
    interleaving machine is built from. */
module RunnerStore {
  import opened Common
  import opened RunnerRows

  datatype CreateResult =
    | Created(row: Row)
    | Known(row: Row)          // the id is already there
    | JobTaken(owner: string)  // another request has the workflow job
    | EmptyId

  datatype RetryResult = Requeued(row: Row) | NotFound | NotAllowed

  /** The defaults createRequest fills in. */
  function WithDefaults(id: string, req: Request, now: Clock): Request {
    req.(runnerName := if req.runnerName == "" then "e2b-" + id else req.runnerName,
         queuedAt := if req.queuedAt == 0 then now else req.queuedAt)
  }

  function ClaimableIds(rows: Rows, now: Clock): set<string> {
    set id | id in rows && Claimable(rows[id], now)
  }

  /** Some id of a nonempty set has the smallest queue time. */
  lemma {:induction false} OldestExists(rows: Rows, ids: set<string>) returns (oldest: string)
    requires ids != {} && forall id :: id in ids ==> id in rows
    ensures oldest in ids && forall id :: id in ids ==> rows[oldest].req.queuedAt <= rows[id].req.queuedAt
    decreases |ids|
  {
    oldest :| oldest in ids;
    if ids - {oldest} != {} {
      var other := OldestExists(rows, ids - {oldest});
      if rows[other].req.queuedAt < rows[oldest].req.queuedAt { oldest := other; }
    }
  }

  lemma {:induction false} LatestExists(updated: map<string, Time>, ids: set<string>) returns (latest: string)
    requires ids != {} && ids <= updated.Keys
    ensures latest in ids && forall id :: id in ids ==> updated[id] <= updated[latest]
    decreases |ids|
  {
    latest :| latest in ids;
    if ids - {latest} != {} {
      var other := LatestExists(updated, ids - {latest});
      if updated[other] > updated[latest] { latest := other; }
    }
  }

  /** Distinct members of `all`, the latest updated first, and none left out that is later. */
  predicate LatestFirst(updated: map<string, Time>, all: set<string>, ids: seq<string>)
    requires all <= updated.Keys
  {
    && Elements(ids) <= all && Distinct(ids)
    && (forall i, j :: 0 <= i < j < |ids| ==> Stamp(updated, ids[i]) >= Stamp(updated, ids[j]))
    && (forall id, other :: id in ids && other in all - Elements(ids) ==> Stamp(updated, id) >= Stamp(updated, other))
  }

  function Stamp(updated: map<string, Time>, id: string): Time {
    if id in updated then updated[id] else 0
  }

  lemma LatestNext(updated: map<string, Time>, all: set<string>, ids: seq<string>, id: string)
    requires all <= updated.Keys && LatestFirst(updated, all, ids)
    requires id in all - Elements(ids) && forall other :: other in all - Elements(ids) ==> updated[other] <= updated[id]
    ensures LatestFirst(updated, all, ids + [id])
    ensures all - Elements(ids + [id]) == (all - Elements(ids)) - {id}
  {
    ElementsOfConcat(ids, [id]);
    assert forall x :: x in ids <==> x in Elements(ids);
    assert forall i :: 0 <= i < |ids| ==> ids[i] in ids;
  }

  lemma CountedNext(all: set<string>, rest: set<string>, id: string)
    requires id in rest
    ensures |all - (rest - {id})| == |all - rest| + if id in all then 1 else 0
  {
    assert all - (rest - {id}) == (all - rest) + if id in all then {id} else {};
  }

  class RunnerStore {
    var rows: Rows
    var updated: map<string, Time>   // the updated_at column

    ghost predicate Valid()
      reads this
    {
      UniqueJobs(rows) && updated.Keys == rows.Keys
    }

    constructor ()
      ensures Valid() && rows == map[]
    {
      rows, updated := map[], map[];
    }

    /** CreateRequest and CreateRejectedRequest */
    method CreateRequest(id: string, req: Request, rejected: bool, now: Clock) returns (result: CreateResult)
      requires Valid()
      modifies this
      ensures Valid()
      ensures result.Created? <==> CanCreate(old(rows), id, req)
      ensures result.Created? ==>
                rows == old(rows)[id := if rejected then RejectedRow(WithDefaults(id, req, now), now) else NewRow(WithDefaults(id, req, now))]
                && result.row == rows[id] && updated == old(updated)[id := now]
      ensures !result.Created? ==> rows == old(rows) && updated == old(updated)
      ensures result.Known? ==> id in rows && result.row == rows[id]
      ensures result.JobTaken? ==> id !in rows && result.owner in rows && rows[result.owner].req.jobId == req.jobId != 0
      ensures result.EmptyId? <==> id == ""
    {
      if id == "" { return EmptyId; }
      if id in rows { return Known(rows[id]); }
      var owners := set i | i in rows && rows[i].req.jobId == req.jobId;
      if req.jobId != 0 && owners != {} {
        var owner :| owner in owners;
        return JobTaken(owner);
      }
      assert req.jobId != 0 ==> forall i :: i in rows && rows[i].req.jobId == req.jobId ==> i in owners;
      var full := WithDefaults(id, req, now);
      rows := rows[id := if rejected then RejectedRow(full, now) else NewRow(full)];
      updated := updated[id := now];
      result := Created(rows[id]);
    }

    method ReadState(id: string) returns (st: Option<Row>)
      ensures st == if id in rows then Some(rows[id]) else None
    {
      st := if id in rows then Some(rows[id]) else None;
    }

    /** The compare-and-swap: succeeds exactly on the version the caller read. */
    method WriteState(id: string, st: Row, now: Clock) returns (ok: bool)
      requires Valid()
      modifies this
      ensures Valid()
      ensures ok <==> id in old(rows) && old(rows)[id].version == st.version
      ensures rows == if ok then old(rows)[id := Written(old(rows)[id], st, now)] else old(rows)
      ensures updated == if ok then old(updated)[id := now] else old(updated)
    {
      ok := id in rows && rows[id].version == st.version;
      if ok {
        rows := rows[id := Written(rows[id], st, now)];
        updated := updated[id := now];
      }
    }

    /** Claims an oldest runnable request, if any request is runnable. */
    method ClaimNextRunnable(worker: string, now: Clock, ttl: nat) returns (claimed: Option<string>)
      requires Valid()
      modifies this
      ensures Valid()
      ensures claimed.None? <==> forall id :: id in old(rows) ==> !Claimable(old(rows)[id], now)
      ensures claimed.None? ==> rows == old(rows) && updated == old(updated)
      ensures claimed.Some? ==>
                && NextRunnable(old(rows), claimed.value, now)
                && rows == old(rows)[claimed.value := Claimed(old(rows)[claimed.value], worker, now, ttl)]
                && updated == old(updated)[claimed.value := now]
    {
      var candidates := ClaimableIds(rows, now);
      if candidates == {} {
        assert forall id :: id in rows && Claimable(rows[id], now) ==> id in candidates;
        return None;
      }
      ghost var oldest := OldestExists(rows, candidates);
      assert forall id :: id in rows && Claimable(rows[id], now) ==> id in candidates;
      assert NextRunnable(rows, oldest, now);
      var id :| id in rows && NextRunnable(rows, id, now);
      rows := rows[id := Claimed(rows[id], worker, now, ttl)];
      updated := updated[id := now];
      claimed := Some(id);
    }

    method ReleaseLease(id: string, worker: string)
      requires Valid()
      modifies `rows
      ensures Valid()
      ensures rows == if id in old(rows) then old(rows)[id := Released(old(rows)[id], worker)] else old(rows)
    {
      if id in rows && rows[id].lease.owner == worker {
        rows := rows[id := rows[id].(lease := NO_LEASE)];
      }
    }

    method RetryRequest(id: string, now: Clock) returns (result: RetryResult)
      requires Valid()
      modifies this
      ensures Valid()
      ensures result.Requeued? <==> id in old(rows) && RetryAllowed(old(rows)[id])
      ensures result.NotFound? <==> id !in old(rows)
      ensures result.Requeued? ==>
                rows == old(rows)[id := Retried(old(rows)[id])] && result.row == rows[id] && updated == old(updated)[id := now]
      ensures !result.Requeued? ==> rows == old(rows) && updated == old(updated)
    {
      if id !in rows { return NotFound; }
      var record := rows[id];
      match record.status {
        case Failed =>
        case Queued =>
          if record.nextRetryAt == 0 || !record.errorRetryable { return NotAllowed; }
        case _ =>
          return NotAllowed;
      }
      record := record.(status := Queued, failureStage := "", errorRetryable := false, sandbox := "", pid := 0);
      record := record.(assignedId := 0, assignedName := "", nextRetryAt := 0, lease := NO_LEASE);
      record := record.(times := NO_TIMES, configSource := "", version := record.version + 1);
      rows := rows[id := record];
      updated := updated[id := now];
      result := Requeued(record);
    }

    /** The number of requests that occupy a sandbox, told to stop or not. */
    method InFlightCount() returns (n: nat)
      ensures n == |InFlightIds(rows)| && |ActiveIds(rows)| <= n
    {
      n := 0;
      var rest := rows.Keys;
      assert InFlightIds(rows) - rest == {};
      while rest != {}
        invariant rest <= rows.Keys && n == |InFlightIds(rows) - rest|
      {
        var id :| id in rest;
        CountedNext(InFlightIds(rows), rest, id);
        match rows[id].status {
          case Creating => n := n + 1;
          case Running => n := n + 1;
          case Stopping => n := n + 1;
          case _ =>
        }
        rest := rest - {id};
      }
      assert InFlightIds(rows) - {} == InFlightIds(rows);
      ActiveAtMostInFlight(rows, "");
    }

    method InFlightCountForProfile(p: string) returns (n: nat)
      ensures n == |ProfileInFlightIds(rows, p)| && |ProfileActiveIds(rows, p)| <= n
    {
      n := 0;
      var rest := rows.Keys;
      assert ProfileInFlightIds(rows, p) - rest == {};
      while rest != {}
        invariant rest <= rows.Keys && n == |ProfileInFlightIds(rows, p) - rest|
      {
        var id :| id in rest;
        CountedNext(ProfileInFlightIds(rows, p), rest, id);
        var status := rows[id].status;
        if rows[id].req.profile == p && (status.Creating? || status.Running? || status.Stopping?) {
          n := n + 1;
        }
        rest := rest - {id};
      }
      assert ProfileInFlightIds(rows, p) - {} == ProfileInFlightIds(rows, p);
      ActiveAtMostInFlight(rows, p);
    }

    // ---- Mismatch reconciliation ------------------------------------------------

    /** Up to `limit` completed requests whose runner ran another job, the latest
        updated first. */
    method ListMismatchedCompletedStates(limit: nat) returns (ids: seq<string>)
      requires Valid()
      ensures |ids| == Min(limit, |MismatchedIds(rows)|)
      ensures Distinct(ids) && forall id :: id in ids ==> id in MismatchedIds(rows)
      ensures LatestFirst(updated, MismatchedIds(rows), ids)
    {
      ids := [];
      var rest := MismatchedIds(rows);
      while rest != {} && |ids| < limit
        invariant rest == MismatchedIds(rows) - Elements(ids) && |ids| + |rest| == |MismatchedIds(rows)| && |ids| <= limit
        invariant LatestFirst(updated, MismatchedIds(rows), ids)
      {
        ghost var latest := LatestExists(updated, rest);
        var id :| id in rest && forall other :: other in rest ==> updated[other] <= updated[id];
        LatestNext(updated, MismatchedIds(rows), ids, id);
        ElementsOfConcat(ids, [id]);
        rest := rest - {id};
        ids := ids + [id];
      }
      assert forall id :: id in ids ==> id in Elements(ids);
    }

    /** The loop body of reconcileMismatchedCompletedJobs: check, ask GitHub, check again, write. */
    method VisitMismatched(id: string, queued: bool, fails: bool, now: Clock)
      requires Valid()
      modifies this
      ensures Valid()
      ensures rows == if id in old(rows) && MismatchedCompleted(old(rows)[id]) && !fails
                      then old(rows)[id := Settled(old(rows)[id], queued, now)] else old(rows)
      ensures id in rows && rows != old(rows) ==> SettledRow(old(rows)[id], queued, rows[id])
    {
      if id in rows { SettledIsSettled(rows[id], queued, now); }
      var current := ReadState(id);
      if current.None? || !MismatchedCompleted(current.value) { return; }
      var stillQueued := queued && current.value.req.repository != "";
      var latest := ReadState(id);
      if latest.None? || !latest.value.status.Completed? || latest.value.req.jobId != current.value.req.jobId ||
         latest.value.assignedId != current.value.assignedId {
        return;
      }
      if !fails {
        var next := if stillQueued then RequeuedMismatch(latest.value) else Inspected(latest.value);
        var _ := WriteState(id, next, now);
      }
    }

    /** reconcileMismatchedCompletedJobs with nothing else running. `queued` says
        for which requests GitHub reports the original job queued or does not
        answer, `failing` for which the store fails the write. Exactly the listed
        requests whose write succeeds leave the mismatched set, whatever GitHub
        says, and nothing else changes. */
    method ReconcileMismatchedCompletedJobs(queued: set<string>, failing: set<string>, now: Clock) returns (visited: seq<string>)
      requires Valid()
      modifies this
      ensures Valid()
      ensures |visited| == Min(50, |MismatchedIds(old(rows))|)
      ensures Distinct(visited) && forall id :: id in visited ==> id in MismatchedIds(old(rows))
      ensures LatestFirst(old(updated), MismatchedIds(old(rows)), visited)
      ensures SettledExactly(old(rows), rows, visited, queued, failing, now)
      ensures MismatchedIds(rows) == MismatchedIds(old(rows)) - (Elements(visited) - failing)
    {
      visited := ListMismatchedCompletedStates(50);
      ghost var before := rows;
      assert forall i :: 0 <= i < |visited| ==> visited[i] in MismatchedIds(before) by {
        assert forall i :: 0 <= i < |visited| ==> visited[i] in visited;
      }
      var i := 0;
      while i < |visited|
        invariant i <= |visited| && Valid()
        invariant SettledExactly(before, rows, visited[..i], queued, failing, now)
      {
        ghost var mid := rows;
        VisitMismatched(visited[i], visited[i] in queued, visited[i] in failing, now);
        VisitSettles(before, mid, rows, visited, i, queued, failing, now);
        i := i + 1;
      }
      assert visited[..i] == visited;
      SettledLeaves(before, rows, visited, queued, failing, now);
    }

    /** With no new mismatches and writes that succeed, enough passes empty the set. */
    method ReconcileRepeatedly(passes: nat, queued: set<string>, now: Clock)
      requires Valid()
      modifies this
      ensures Valid()
      ensures |MismatchedIds(rows)| == Positive(|MismatchedIds(old(rows))| - 50 * passes)
      ensures 50 * passes >= |MismatchedIds(old(rows))| <==> MismatchedIds(rows) == {}
    {
      var i := 0;
      while i < passes
        invariant i <= passes && Valid()
        invariant |MismatchedIds(rows)| == Positive(|MismatchedIds(old(rows))| - 50 * i)
      {
        ghost var before := MismatchedIds(rows);
        var visited := ReconcileMismatchedCompletedJobs(queued, {}, now);
        PassSize(before, MismatchedIds(rows), visited);
        i := i + 1;
      }
    }
  }

  // ---- Lemmas about the mismatched set ---------------------------------------------

  function Positive(n: int): nat {
    if n < 0 then 0 else n
  }

  /** What one visit makes of a mismatched row. */
  function Settled(r: Row, queued: bool, now: Clock): Row {
    Written(r, if queued && r.req.repository != "" then RequeuedMismatch(r) else Inspected(r), now)
  }

  /** Queued again as if it had never run if its own job may still be queued; otherwise
      only the record of the other job is dropped. */
  predicate SettledRow(before: Row, queued: bool, after: Row) {
    && after.version == before.version + 1
    && (if queued && before.req.repository != "" then StartedOver(before, after)
        else Looked(before, after.(version := before.version, times := before.times)))
  }

  lemma SettledIsSettled(r: Row, queued: bool, now: Clock)
    ensures SettledRow(r, queued, Settled(r, queued, now))
  {
  }

  /** Exactly the visited rows whose write succeeded were settled. */
  ghost predicate SettledExactly(before: Rows, after: Rows, visited: seq<string>, queued: set<string>, failing: set<string>, now: Clock) {
    && after.Keys == before.Keys
    && forall id :: id in after ==>
         after[id] == if id in visited && id !in failing then Settled(before[id], id in queued, now) else before[id]
  }

  lemma VisitSettles(before: Rows, mid: Rows, after: Rows, visited: seq<string>, i: nat,
                     queued: set<string>, failing: set<string>, now: Clock)
    requires i < |visited| && visited[i] in before && MismatchedCompleted(before[visited[i]])
    requires forall j :: 0 <= j < i ==> visited[j] != visited[i]
    requires SettledExactly(before, mid, visited[..i], queued, failing, now)
    requires
      var id := visited[i];
      after == if id in mid && MismatchedCompleted(mid[id]) && id !in failing then mid[id := Settled(mid[id], id in queued, now)] else mid
    ensures SettledExactly(before, after, visited[..i + 1], queued, failing, now)
  {
    assert visited[..i + 1] == visited[..i] + [visited[i]];
    assert mid[visited[i]] == before[visited[i]];
  }

  lemma SettledLeaves(before: Rows, after: Rows, visited: seq<string>, queued: set<string>, failing: set<string>, now: Clock)
    requires SettledExactly(before, after, visited, queued, failing, now)
    ensures MismatchedIds(after) == MismatchedIds(before) - (Elements(visited) - failing)
  {
    forall id | id in before
      ensures id in MismatchedIds(after) <==> id in MismatchedIds(before) && !(id in visited && id !in failing)
    {
      assert !MismatchedCompleted(Settled(before[id], id in queued, now));
    }
  }

  lemma PassSize(before: set<string>, after: set<string>, visited: seq<string>)
    requires Distinct(visited)
    requires forall id :: id in visited ==> id in before
    requires |visited| == Min(50, |before|) && after == before - (Elements(visited) - {})
    ensures |after| == Positive(|before| - 50)
  {
    DistinctSize(visited);
    assert before == after + Elements(visited);
  }
}
