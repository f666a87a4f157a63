/** The mark that a cached access list is being refreshed: when it can outlive the
    refresh it stands for, and a run in which it does. */
module AccessMarks {
  import opened AccessCache
  import opened AccessRuns

  predicate Marked(w: World, account: int) {
    account in w.store.cache && w.store.cache[account].refreshing
  }

  /** The caller is still going to join a load of the account's current epoch. */
  predicate WillJoin(w: World, account: int, c: Caller) {
    c.account == account && (c.pc.ReadingEpoch? || c.pc == Joining(Epoch(w.store, account)))
  }

  /** The load is under the current epoch and has not told the cache yet. */
  predicate WillRecord(w: World, account: int, f: Flight) {
    f.account == account && f.epoch == Epoch(w.store, account) && (f.stage.Loading? || f.stage.Ended?)
  }

  /** Somebody is going to clear the account's mark. */
  predicate Pursued(w: World, account: int) {
    || (exists t :: t in w.callers && WillJoin(w, account, w.callers[t]))
    || (exists id :: id in w.flights && WillRecord(w, account, w.flights[id]))
  }

  /** The last one who was going to joins a load that has told the cache already
      but that the single-flight group still hands out. */
  predicate Abandons(w: World, e: Event, account: int) {
    && Marked(w, account)
    && e.Join? && !Blocked(w, e) && WillJoin(w, account, w.callers[e.t])
    && (account, Epoch(w.store, account)) in w.open
    && w.open[(account, Epoch(w.store, account))] in w.flights
    && w.flights[w.open[(account, Epoch(w.store, account))]].stage.Recorded?
    && (forall t :: t in w.callers && t != e.t ==> !WillJoin(w, account, w.callers[t]))
    && (forall id :: id in w.flights ==> !WillRecord(w, account, w.flights[id]))
  }

  lemma StillRecording(w: World, w': World, id: nat, account: int)
    requires id in w'.flights && WillRecord(w', account, w'.flights[id])
    ensures Pursued(w', account)
  {
  }

  /** Whatever leaves an account marked leaves its epoch alone. */
  lemma MarkedKeepsEpoch(w: World, e: Event, account: int)
    requires Marked(Step(w, e), account)
    ensures Epoch(Step(w, e).store, account) == Epoch(w.store, account)
  {
  }

  lemma OnlyLookupsMark(w: World, e: Event, account: int)
    requires Marked(Step(w, e), account) && !Marked(w, account)
    ensures e.Lookup? && !Blocked(w, e) && w.callers[e.t].account == account
    ensures Find(w.store, account, e.now).Hit? && Find(w.store, account, e.now).refresh
  {
  }

  /** A new mark comes with the caller that is to clear it. */
  lemma NewMarkIsPursued(w: World, e: Event, account: int)
    requires Marked(Step(w, e), account) && !Marked(w, account)
    ensures Pursued(Step(w, e), account)
  {
    OnlyLookupsMark(w, e, account);
    var w' := Step(w, e);
    assert w'.callers[e.background] == Caller(account, ReadingEpoch);
    assert WillJoin(w', account, w'.callers[e.background]);
  }

  lemma FlightStaysPursuing(w: World, e: Event, account: int, id: nat)
    requires Inv(w) && id in w.flights && WillRecord(w, account, w.flights[id])
    requires Marked(w, account) && Marked(Step(w, e), account)
    ensures Pursued(Step(w, e), account)
  {
    MarkedKeepsEpoch(w, e, account);
    StepKeepsFlights(w, e);
    assert WillRecord(Step(w, e), account, Step(w, e).flights[id]);
    StillRecording(w, Step(w, e), id, account);
  }

  lemma CallerStaysPursuing(w: World, e: Event, account: int, t: nat)
    requires Inv(w) && t in w.callers && WillJoin(w, account, w.callers[t])
    requires Marked(w, account) && Marked(Step(w, e), account) && !(e.Join? && e.t == t)
    ensures Pursued(Step(w, e), account)
  {
    MarkedKeepsEpoch(w, e, account);
    assert WillJoin(Step(w, e), account, Step(w, e).callers[t]);
  }

  lemma JoiningPursues(w: World, e: Event, account: int)
    requires Inv(w) && Marked(w, account) && e.Join? && !Blocked(w, e) && WillJoin(w, account, w.callers[e.t])
    ensures Pursued(Step(w, e), account) || Abandons(w, e, account)
  {
    var w' := Step(w, e);
    var key := (account, Epoch(w.store, account));
    if key in w.open {
      var id := w.open[key];
      if id in w.flights && !w.flights[id].stage.Recorded? { assert WillRecord(w', account, w'.flights[id]); }
    } else if e.flight !in w.flights {
      assert WillRecord(w', account, w'.flights[e.flight]);
    } else {
      assert WillJoin(w', account, w'.callers[e.t]);
    }
    if !Abandons(w, e, account) && !Pursued(w', account) {
      forall t | t in w.callers && t != e.t ensures !WillJoin(w, account, w.callers[t]) {
        if WillJoin(w, account, w.callers[t]) { CallerStaysPursuing(w, e, account, t); }
      }
      forall id | id in w.flights ensures !WillRecord(w, account, w.flights[id]) {
        if WillRecord(w, account, w.flights[id]) { FlightStaysPursuing(w, e, account, id); }
      }
    }
  }

  lemma AbandonedIsUnpursued(w: World, e: Event, account: int)
    requires Inv(w) && Abandons(w, e, account)
    ensures Marked(Step(w, e), account) && !Pursued(Step(w, e), account)
  {
  }

  /** Exactly when one step leaves a mark behind that nobody is going to clear. */
  lemma MarkOutlives(w: World, e: Event, account: int)
    requires Inv(w) && (Marked(w, account) ==> Pursued(w, account))
    ensures (Marked(Step(w, e), account) ==> Pursued(Step(w, e), account)) <==> !Abandons(w, e, account)
  {
    if Abandons(w, e, account) {
      AbandonedIsUnpursued(w, e, account);
    } else if Marked(Step(w, e), account) {
      if !Marked(w, account) {
        NewMarkIsPursued(w, e, account);
      } else if id: nat :| id in w.flights && WillRecord(w, account, w.flights[id]) {
        FlightStaysPursuing(w, e, account, id);
      } else {
        var t :| t in w.callers && WillJoin(w, account, w.callers[t]);
        if e.Join? && e.t == t && !Blocked(w, e) { JoiningPursues(w, e, account); }
        else if e.Join? && e.t == t { assert WillJoin(Step(w, e), account, Step(w, e).callers[t]); }
        else { CallerStaysPursuing(w, e, account, t); }
      }
    }
  }

  // ---- Runs --------------------------------------------------------------------------------

  /** In every state of the run a marked entry has somebody who is going to clear its mark. */
  predicate AlwaysPursued(w: World, es: seq<Event>, account: int)
    decreases |es|
  {
    (Marked(w, account) ==> Pursued(w, account)) && (es == [] || AlwaysPursued(Step(w, es[0]), es[1..], account))
  }

  predicate NeverAbandoned(w: World, es: seq<Event>, account: int)
    decreases |es|
  {
    es == [] || (!Abandons(w, es[0], account) && NeverAbandoned(Step(w, es[0]), es[1..], account))
  }

  lemma {:induction false} PursuedExactly(w: World, es: seq<Event>, account: int)
    requires Inv(w) && (Marked(w, account) ==> Pursued(w, account))
    ensures AlwaysPursued(w, es, account) <==> NeverAbandoned(w, es, account)
    decreases |es|
  {
    if es != [] {
      StepKeepsInv(w, es[0]);
      MarkOutlives(w, es[0], account);
      if !Abandons(w, es[0], account) { PursuedExactly(Step(w, es[0]), es[1..], account); }
    }
  }

  /** Over every run from an empty cache, marks never outlive their refresh if and
      only if nobody joins a load, as the last one, that has already been recorded. */
  lemma MarksAreKept(es: seq<Event>, account: int)
    ensures AlwaysPursued(EMPTY, es, account) <==> NeverAbandoned(EMPTY, es, account)
  {
    EmptyInv();
    PursuedExactly(EMPTY, es, account);
  }
}

/** A run in which a mark outlives its refresh. */
module AccessMarkRun {
  import opened AccessCache
  import opened AccessRuns
  import opened AccessMarks

  const REFRESH_DUE: nat := REFRESH_AFTER

  const LIST := Access([], 3)                     // loaded by the call that began at step 3
  const ENTRY := FreshEntry(LIST, 0)
  const MARKED_ENTRY := ENTRY.(refreshing := true)
  const CACHED := Store(map[], map[1 := ENTRY])
  const CACHED_MARKED := Store(map[], map[1 := MARKED_ENTRY])

  function Load(stage: Stage): Flight {
    Flight(1, 0, 3, stage)
  }

  // A request misses and starts a load, which is recorded but not yet handed out.
  const R1 := World(1, Store(map[], map[]), map[], map[], map[1 := Caller(1, Asking)])
  const R2 := R1.(tick := 2, callers := map[1 := Caller(1, ReadingEpoch)])
  const R3 := R1.(tick := 3, callers := map[1 := Caller(1, Joining(0))])
  const R4 := World(4, Store(map[], map[]), map[(1, 0) := 10], map[10 := Load(Loading)], map[1 := Caller(1, Waiting(0, 10))])
  const R5 := R4.(tick := 5, flights := map[10 := Load(Ended(Loaded([])))])
  const R6 := R4.(tick := 6, store := CACHED, flights := map[10 := Load(Recorded(Loaded([])))])

  // Twenty seconds later another request finds the entry due and marks it.
  const R7 := R6.(tick := 7, callers := map[1 := Caller(1, Waiting(0, 10)), 2 := Caller(1, Asking)])
  const R8 := R6.(tick := 8, store := CACHED_MARKED,
                  callers := map[1 := Caller(1, Waiting(0, 10)), 2 := Caller(1, Returned(LIST)), 3 := Caller(1, ReadingEpoch)])
  const R9 := R8.(tick := 9, callers := R8.callers[3 := Caller(1, Joining(0))])

  // Its background refresh joins the recorded load.
  const R10 := R9.(tick := 10, callers := R9.callers[3 := Caller(1, Waiting(0, 10))])

  lemma Misses()
    ensures Step(EMPTY, Request(1, 1)) == R1
    ensures Step(R1, Event.Lookup(1, 0, 99)) == R2
    ensures Step(R2, ReadEpoch(1)) == R3
  {
    assert AfterFind(Store(map[], map[]), 1, 0) == Store(map[], map[]);
  }

  lemma Loads()
    ensures Step(R3, Join(1, 10)) == R4
    ensures Step(R4, LoadEnds(10, Loaded([]))) == R5
  {
  }

  lemma Records()
    ensures Step(R5, Record(10, 0, 0)) == R6
  {
    assert AfterCaching(R5.store, 1, 0, LIST, 0, 0) == CACHED;
  }

  lemma Marks()
    ensures Step(R6, Request(2, 1)) == R7
    ensures Step(R7, Event.Lookup(2, REFRESH_DUE, 3)) == R8
  {
    assert Find(CACHED, 1, REFRESH_DUE) == Hit(LIST, true);
    assert AfterFind(CACHED, 1, REFRESH_DUE) == CACHED_MARKED;
  }

  lemma JoinsTooLate()
    ensures Step(R8, ReadEpoch(3)) == R9
    ensures Step(R9, Join(3, 11)) == R10
    ensures Marked(R10, 1) && !Pursued(R10, 1)
  {
  }

  // ---- The run, from its end to its beginning ------------------------------------------------

  const LATE: seq<Event> := [ReadEpoch(3)] + [Join(3, 11)]
  const MARKING: seq<Event> := [Request(2, 1)] + ([Event.Lookup(2, REFRESH_DUE, 3)] + LATE)
  const LOADING: seq<Event> := [Join(1, 10)] + ([LoadEnds(10, Loaded([]))] + ([Record(10, 0, 0)] + MARKING))
  const RUN: seq<Event> := [Request(1, 1)] + ([Event.Lookup(1, 0, 99)] + ([ReadEpoch(1)] + LOADING))

  lemma First(w: World, e: Event, rest: seq<Event>)
    ensures Exec(w, [e] + rest) == Exec(Step(w, e), rest)
  {
    assert ([e] + rest)[1..] == rest;
  }

  lemma Ends()
    ensures Exec(R6, MARKING) == R10
  {
    Marks();
    JoinsTooLate();
    First(R6, Request(2, 1), [Event.Lookup(2, REFRESH_DUE, 3)] + LATE);
    First(R7, Event.Lookup(2, REFRESH_DUE, 3), LATE);
    First(R8, ReadEpoch(3), [Join(3, 11)]);
    First(R9, Join(3, 11), []);
    assert [Join(3, 11)] + [] == [Join(3, 11)];
  }

  lemma Middle()
    ensures Exec(R3, LOADING) == R10
  {
    Loads();
    Records();
    Ends();
    First(R3, Join(1, 10), [LoadEnds(10, Loaded([]))] + ([Record(10, 0, 0)] + MARKING));
    First(R4, LoadEnds(10, Loaded([])), [Record(10, 0, 0)] + MARKING);
    First(R5, Record(10, 0, 0), MARKING);
  }

  /** From an empty cache: the entry of account 1 is marked as being refreshed and
      nobody is going to clear the mark. */
  lemma MarkCanOutlive()
    ensures Marked(Exec(EMPTY, RUN), 1) && !Pursued(Exec(EMPTY, RUN), 1)
  {
    Misses();
    Middle();
    JoinsTooLate();
    First(EMPTY, Request(1, 1), [Event.Lookup(1, 0, 99)] + ([ReadEpoch(1)] + LOADING));
    First(R1, Event.Lookup(1, 0, 99), [ReadEpoch(1)] + LOADING);
    First(R2, ReadEpoch(1), LOADING);
  }
}
