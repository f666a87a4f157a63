/** A run, step by step, in which a completed request without a workflow job
    becomes failed: the guard of RunnerHistory.CompletedForever is needed.

    A worker has claimed the request and is about to snapshot the sandbox
    configuration when the request is stopped and completes. The snapshot write
    then fails in the store without changing the version, failStart cannot
    re-read the request, and its caller's copy, already Completed, is written
    back as Failed. */
module RunnerStaleFailure {
  import opened Common
  import opened RunnerRows
  import opened RunnerCalls
  import opened RunnerMachine

  const CFG := Config(1, 0, 0, 0, 0, "worker", map[])
  const REQ := Request("p", "o/r", "e2b-a", 0, 1)
  const OK := Choice(1, false, Permanent, "", true, false, false, NO_JOB, ReconnectFailed, "", "", 0)
  const FAULT := OK.(fault := true)

  // The row at the milestones of the run.
  const CLAIMED := NewRow(REQ).(lease := Lease("worker", 1), version := 1)
  const CREATING := CLAIMED.(status := Creating, times := Times(1, 0, 0, 0, 0), version := 2)
  const COMPLETED := CREATING.(status := Completed, times := Times(1, 0, 1, 1, 0), version := 4)

  const LOCAL := CLAIMED.(status := Creating)   // the worker's own copy of the row
  const STOPPED := CREATING.(status := Stopping, version := 3)                 // the stopping call's copy
  const STORED_STOPPED := STOPPED.(times := Times(1, 0, 1, 0, 0))
  const FINISHED := STOPPED.(status := Completed, times := Times(1, 0, 0, 1, 0))
  const STALE := COMPLETED.(status := Failed, failureStage := "sandbox_config", lease := NO_LEASE, times := Times(1, 0, 1, 0, 0))

  const START := Empty(CFG, map["p" := 0])

  function With(w: World, t: nat, pc: PC): World {
    Spawn(w, t, "a", pc)
  }

  // ---- The worker claims and starts the request, up to the configuration snapshot ----

  const W0 := START.(rows := map["a" := CLAIMED])
  const W1 := With(W0, 1, LockRunner(AtStart(StartRead)))
  const W2 := With(W0, 1, AtStart(StartRead)).(locks := map[0 := 1])
  const W4 := With(W2, 1, LockAdmission(AtStart(StartCount(CLAIMED, 0))))
  const W6 := With(W2, 1, AtStart(StartCountProfile(CLAIMED, 0))).(admission := Some(1))
  const W7 := With(W6, 1, CREATE)
  const W8 := With(W7, 1, CREATED).(rows := W7.rows["a" := CREATING])
  const W10 := With(W0, 1, AtStart(StartJob(LOCAL))).(rows := map["a" := CREATING])
  const W12 := With(W10, 1, AtStart(StartSnapshot(LOCAL, "")))

  // ---- A stop request completes it meanwhile ------------------------------------------

  const V1 := With(W12, 2, LockRunner(AtStop(StopRead(NO_JOB, false))))
  const V2 := With(W12, 2, AtStop(StopRead(NO_JOB, false))).(locks := map[0 := 2])
  const V4 := With(V2, 2, AtStop(StopSandbox(STOPPED, NO_JOB))).(rows := map["a" := STORED_STOPPED])
  const V6 := With(V4, 2, AtStop(StopSettle(STOPPED, NO_JOB)))
  const V8 := With(V4, 2, UnlockRunner(Done)).(rows := map["a" := COMPLETED])
  const V9 := With(W12, 2, Done).(rows := map["a" := COMPLETED])

  // ---- The snapshot write fails, the re-read fails, the stale copy is written -----------

  const U2 := With(V9, 1, FailWith(COMPLETED, "", "sandbox_config", Permanent))
  const U3 := With(V9, 1, AtSettle(FailRead(COMPLETED, "", "sandbox_config", Permanent))).(locks := map[0 := 1])
  const U5 := With(U3, 1, UnlockRunner(Done)).(rows := map["a" := STALE.(version := 5, times := Times(1, 0, 1, 0, 1))])

  lemma Claims()
    ensures Step(Step(START, Create("a", REQ)), Claim(1, "a", 1)) == W1
    ensures Step(W1, Run(1, OK)) == W2
  {
    assert Step(START, Create("a", REQ)) == START.(rows := map["a" := NewRow(REQ)]);
  }

  lemma Admits()
    ensures Step(Step(W2, Run(1, OK)), Run(1, OK)) == W4
  {
    assert Step(W2, Run(1, OK)) == With(W2, 1, AtStart(StartProfile(CLAIMED)));
  }

  const W5 := With(W2, 1, AtStart(StartCount(CLAIMED, 0))).(admission := Some(1))

  lemma Enters()
    ensures Step(W4, Run(1, OK)) == W5
  {
  }

  /** One step of a call that reads or asks something, and of one that writes. */
  lemma Decides(w: World, t: nat, pc: PC, c: Choice)
    requires t in w.threads && w.threads[t] == Thread("a", pc) && AtPoint(pc)
    ensures Step(w, Run(t, c)) == With(w, t, Decide(w.cfg, w.rows, w.profiles, ReadRow(w.rows, "a", c), pc, c))
  {
  }

  lemma Writes(w: World, t: nat, pc: PC, c: Choice)
    requires t in w.threads && w.threads[t] == Thread("a", pc) && pc.Write? && WriteSucceeds(w, t, c)
    ensures Step(w, Run(t, c)) == With(w, t, pc.ok).(rows := w.rows["a" := Written(w.rows["a"], pc.row, c.now)])
  {
  }

  lemma Counts()
    ensures Step(W5, Run(1, OK)) == W6
  {
    assert InFlightIds(W5.rows) == {};
    Decides(W5, 1, AtStart(StartCount(CLAIMED, 0)), OK);
  }

  const CREATED := LeaveAdmission(AtStart(StartJob(LOCAL)))
  const CREATE := Write(StartCreating, CLAIMED, LOCAL, CREATED, LeaveAdmission(ReleaseLease(Done)))

  lemma FindsRoom()
    ensures Step(W6, Run(1, OK)) == W7
  {
    assert BeginCreating(CFG, CLAIMED, 1) == CREATE;
    Decides(W6, 1, AtStart(StartCountProfile(CLAIMED, 0)), OK);
  }

  lemma CreatingRow()
    ensures Written(CLAIMED, LOCAL, 1) == CREATING
    ensures W7.threads[1] == Thread("a", CREATE) && W7.rows == map["a" := CLAIMED]
    ensures WriteSucceeds(W7, 1, OK)
  {
  }

  lemma Creates()
    ensures Step(W7, Run(1, OK)) == W8
  {
    CreatingRow();
    Writes(W7, 1, CREATE, OK);
  }

  lemma Unlocks()
    ensures Step(Step(W8, Run(1, OK)), Run(1, OK)) == W10
  {
    assert Step(W8, Run(1, OK)) == With(W8, 1, UnlockRunner(AtStart(StartJob(LOCAL)))).(admission := None);
  }

  lemma Configures()
    ensures Step(Step(W10, Run(1, OK)), Run(1, OK)) == W12
  {
    assert Step(W10, Run(1, OK)) == With(W10, 1, AtStart(StartConfig(LOCAL)));
  }

  lemma StopCalls()
    ensures Step(W12, Call(2, "a", StopRequested(NO_JOB))) == V1
    ensures Step(V1, Run(2, OK)) == V2
  {
  }

  lemma StopBegins()
    ensures Step(Step(V2, Run(2, OK)), Run(2, OK)) == V4
  {
    var stopping := AtStop(StopSandbox(STOPPED, NO_JOB));
    assert Step(V2, Run(2, OK)) == With(V2, 2, Write(StopBegin, CREATING, CREATING.(status := Stopping), stopping, UnlockRunner(Done)));
  }

  lemma StopCleansUp()
    ensures Step(Step(V4, Run(2, OK)), Run(2, OK)) == V6
  {
    var cleanup := AtStop(StopCleanup(STOPPED, NO_JOB));
    Decides(V4, 2, AtStop(StopSandbox(STOPPED, NO_JOB)), OK);
    assert Step(V4, Run(2, OK)) == With(V4, 2, cleanup);
    Decides(With(V4, 2, cleanup), 2, cleanup, OK);
  }

  const FINISH := Write(StopDone, STOPPED, FINISHED, UnlockRunner(Done), UnlockRunner(Done))
  const V7 := With(V6, 2, FINISH)

  lemma StopSettles()
    ensures Step(V6, Run(2, OK)) == V7
  {
    assert DecideStop(CFG, Some(STORED_STOPPED), StopSettle(STOPPED, NO_JOB), OK) == V7.threads[2].pc;
  }

  lemma FinishedRow()
    ensures Written(STORED_STOPPED, FINISHED, 1) == COMPLETED
    ensures V7.threads[2] == Thread("a", FINISH) && V7.rows == map["a" := STORED_STOPPED]
    ensures WriteSucceeds(V7, 2, OK)
  {
  }

  lemma StopCompletes()
    ensures Step(V7, Run(2, OK)) == V8
  {
    FinishedRow();
    Writes(V7, 2, FINISH, OK);
  }

  lemma StopUnlocks()
    ensures Step(V8, Run(2, OK)) == V9
  {
  }

  lemma SnapshotWriteFails()
    ensures Step(Step(V9, Run(1, OK)), Run(1, FAULT)) == U2
    ensures Step(U2, Run(1, OK)) == U3
  {
    var snapshot := Write(ConfigSnapshot, COMPLETED, COMPLETED, AtStart(StartSandbox(LOCAL)), FailWith(COMPLETED, "", "sandbox_config", Permanent));
    assert Step(V9, Run(1, OK)) == With(V9, 1, snapshot);
  }

  const STALE_WRITE := Write(FailStale(GaveUp), COMPLETED, STALE, UnlockRunner(Done), UnlockRunner(Done))

  lemma StaleCopyIsKept()
    ensures Step(U3, Run(1, FAULT)) == With(U3, 1, STALE_WRITE)
  {
  }

  lemma StaleCopyIsWritten()
    ensures Step(Step(U3, Run(1, FAULT)), Run(1, OK)) == U5
  {
    StaleCopyIsKept();
    Writes(With(U3, 1, STALE_WRITE), 1, STALE_WRITE, OK);
  }

  // ---- The whole run --------------------------------------------------------------------

  lemma {:induction false} Then(w: World, es: seq<Event>, e: Event)
    ensures Exec(w, es + [e]) == Step(Exec(w, es), e)
    decreases |es|
  {
    if es == [] {
      assert [e][1..] == [] && es + [e] == [e];
      assert Exec(w, [e]) == Exec(Step(w, e), []);
    } else {
      assert (es + [e])[1..] == es[1..] + [e];
      Then(Step(w, es[0]), es[1..], e);
    }
  }

  lemma ThenTwo(w: World, es: seq<Event>, e: Event, f: Event)
    ensures Exec(w, es + [e, f]) == Step(Step(Exec(w, es), e), f)
  {
    Then(w, es, e);
    Then(w, es + [e], f);
    assert es + [e, f] == es + [e] + [f];
  }

  lemma EntersAdmission() returns (es: seq<Event>)
    ensures Exec(START, es) == W5
  {
    es := [];
    Claims();
    ThenTwo(START, es, Create("a", REQ), Claim(1, "a", 1));
    es := es + [Create("a", REQ), Claim(1, "a", 1)];
    Then(START, es, Run(1, OK));
    es := es + [Run(1, OK)];
    Admits();
    ThenTwo(START, es, Run(1, OK), Run(1, OK));
    es := es + [Run(1, OK), Run(1, OK)];
    Enters();
    Then(START, es, Run(1, OK));
    es := es + [Run(1, OK)];
  }

  lemma StartsCreating() returns (es: seq<Event>)
    ensures Exec(START, es) == W7
  {
    es := EntersAdmission();
    Counts();
    FindsRoom();
    ThenTwo(START, es, Run(1, OK), Run(1, OK));
    es := es + [Run(1, OK), Run(1, OK)];
  }

  lemma ReachesSnapshot() returns (es: seq<Event>)
    ensures Exec(START, es) == W12
  {
    es := StartsCreating();
    Creates();
    Then(START, es, Run(1, OK));
    es := es + [Run(1, OK)];
    Unlocks();
    ThenTwo(START, es, Run(1, OK), Run(1, OK));
    es := es + [Run(1, OK), Run(1, OK)];
    Configures();
    ThenTwo(START, es, Run(1, OK), Run(1, OK));
    es := es + [Run(1, OK), Run(1, OK)];
  }

  lemma StopsMeanwhile() returns (es: seq<Event>)
    ensures Exec(START, es) == V9
  {
    es := ReachesSnapshot();
    StopCalls();
    ThenTwo(START, es, Call(2, "a", StopRequested(NO_JOB)), Run(2, OK));
    es := es + [Call(2, "a", StopRequested(NO_JOB)), Run(2, OK)];
    StopBegins();
    ThenTwo(START, es, Run(2, OK), Run(2, OK));
    es := es + [Run(2, OK), Run(2, OK)];
    StopCleansUp();
    ThenTwo(START, es, Run(2, OK), Run(2, OK));
    es := es + [Run(2, OK), Run(2, OK)];
    StopSettles();
    StopCompletes();
    ThenTwo(START, es, Run(2, OK), Run(2, OK));
    es := es + [Run(2, OK), Run(2, OK)];
    StopUnlocks();
    Then(START, es, Run(2, OK));
    es := es + [Run(2, OK)];
  }

  /** From an empty store: `before` completes a request without a workflow job,
      and five more steps, two of them hit by store faults, make it failed. */
  lemma CompletedCanFail() returns (before: seq<Event>, after: seq<Event>)
    ensures
      var w := Exec(Empty(CFG, map["p" := 0]), before);
      "a" in w.rows && w.rows["a"].status.Completed? && w.rows["a"].req.jobId == 0
    ensures
      var w := Exec(Exec(Empty(CFG, map["p" := 0]), before), after);
      "a" in w.rows && w.rows["a"].status.Failed?
  {
    before := StopsMeanwhile();
    SnapshotWriteFails();
    after := [];
    ThenTwo(V9, after, Run(1, OK), Run(1, FAULT));
    after := after + [Run(1, OK), Run(1, FAULT)];
    Then(V9, after, Run(1, OK));
    after := after + [Run(1, OK)];
    StaleCopyIsWritten();
    ThenTwo(V9, after, Run(1, FAULT), Run(1, OK));
    after := after + [Run(1, FAULT), Run(1, OK)];
  }
}
