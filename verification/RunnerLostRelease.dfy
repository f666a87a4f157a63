/** A run from an empty store in which a lease that was released comes back: the
    exception RunnerHistory.NoLostUpdate makes for the lease is needed. A start
    call gives up for want of a count and is about to release its lease, outside
    the request's lock. Meanwhile the report that the runner accepted a job reads
    the row; the release changes the row but not its version; and the report's
    write brings the lease back. */
module RunnerLostRelease {
  import opened Common
  import opened RunnerRows
  import opened RunnerCalls
  import opened RunnerMachine
  import opened RunnerHistory
  import opened RunnerStaleFailure

  const MARKED := CLAIMED.(assignedName := RUNNER_JOB_STARTED)

  // ---- The start call cannot count and gives up -------------------------------------------

  const X1 := With(W5, 1, LeaveAdmission(ReleaseLease(Done)))
  const X2 := With(W2, 1, UnlockRunner(ReleaseLease(Done)))
  const X3 := With(W0, 1, ReleaseLease(Done))

  // ---- The report reads the row, the lease goes, the report writes -------------------------

  const X4 := With(X3, 2, LockRunner(AtSettle(MarkStartedRead)))
  const X5 := With(X3, 2, AtSettle(MarkStartedRead)).(locks := map[0 := 2])
  const X6 := With(X5, 2, Write(MarkStarted, CLAIMED, MARKED, UnlockRunner(Done), UnlockRunner(Done)))
  const X7 := With(X6, 1, Done).(rows := map["a" := CLAIMED.(lease := NO_LEASE)])
  const X8 := With(X7, 2, UnlockRunner(Done)).(rows := map["a" := MARKED.(version := 2)])

  lemma GivesUp()
    ensures Step(W5, Run(1, FAULT)) == X1
  {
    assert DecideStart(CFG, W5.rows, W5.profiles, None, StartCount(CLAIMED, 0), FAULT) == LeaveAdmission(ReleaseLease(Done));
  }

  lemma LeavesLocks()
    ensures Step(X1, Run(1, OK)) == X2
    ensures Step(X2, Run(1, OK)) == X3
  {
  }

  lemma Reports()
    ensures Step(X3, Call(2, "a", RunnerAcceptedJob)) == X4
    ensures Step(X4, Run(2, OK)) == X5
  {
  }

  lemma Reads()
    ensures Step(X5, Run(2, OK)) == X6
  {
    assert DecideSettle(CFG, Some(CLAIMED), MarkStartedRead, OK) == X6.threads[2].pc;
  }

  lemma Releases()
    ensures Step(X6, Run(1, OK)) == X7
  {
    assert Released(CLAIMED, "worker") == CLAIMED.(lease := NO_LEASE);
  }

  lemma ComesBack()
    ensures Step(X7, Run(2, OK)) == X8
    ensures UndoesRelease(X7, 2, OK)
  {
    assert WriteSucceeds(X7, 2, OK);
    assert Written(CLAIMED.(lease := NO_LEASE), MARKED, 1) == MARKED.(version := 2);
  }

  lemma GivesUpAfter() returns (es: seq<Event>)
    ensures Exec(START, es) == X3
  {
    es := EntersAdmission();
    GivesUp();
    Then(START, es, Run(1, FAULT));
    es := es + [Run(1, FAULT)];
    LeavesLocks();
    ThenTwo(START, es, Run(1, OK), Run(1, OK));
    es := es + [Run(1, OK), Run(1, OK)];
  }

  /** From an empty store: after `before` the lease of the only request has been
      released, nobody holds it, and the next write brings it back. */
  lemma ReleaseCanBeLost() returns (before: seq<Event>)
    ensures
      var w := Exec(Empty(CFG, map["p" := 0]), before);
      && "a" in w.rows && w.rows["a"].lease == NO_LEASE
      && 2 in w.threads && w.threads[2].id == "a" && UndoesRelease(w, 2, OK)
      && Step(w, Run(2, OK)).rows["a"].lease != NO_LEASE
  {
    before := GivesUpAfter();
    Reports();
    ThenTwo(START, before, Call(2, "a", RunnerAcceptedJob), Run(2, OK));
    before := before + [Call(2, "a", RunnerAcceptedJob), Run(2, OK)];
    Reads();
    Releases();
    ThenTwo(START, before, Run(2, OK), Run(1, OK));
    before := before + [Run(2, OK), Run(1, OK)];
    ComesBack();
  }
}
