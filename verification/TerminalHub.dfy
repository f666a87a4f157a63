/** The hub that owns the terminal sessions, under every interleaving of requests
    to close a session, idle checks, subscriptions and the shutdown of the server:
    no terminal is closed twice and none is forgotten. */
module TerminalHub {
  /** A session as the hub sees it, and how often its terminal has been closed. */
  datatype Session = Session(closed: bool, watchers: set<nat>, terminalCloses: nat)

  /** A call that has taken a session out of the hub and still has to finish it. */
  datatype Stage = ClosingWatchers | ClosingTerminal

  datatype Closer = Closer(id: string, stage: Stage)

  datatype Hub = Hub(listed: set<string>, sessions: map<string, Session>, closers: map<nat, Closer>)

  datatype Event =
    | Add(id: string)
    | Subscribe(id: string, watcher: nat)
    | Cancel(id: string, watcher: nat)
    | CloseSession(id: string, closer: nat)
    | CloseIfIdle(id: string, closer: nat)
    | CloseHub(closers: map<nat, string>)   // which goroutine closes which session
    | Proceed(closer: nat)

  const EMPTY := Hub({}, map[], map[])

  /** Shutdown starts one closer for each session that is still listed. */
  predicate Covers(h: Hub, closers: map<nat, string>) {
    && (forall n :: n in closers ==> n !in h.closers && closers[n] in h.listed)
    && (forall id :: id in h.listed ==> id in closers.Values)
    && (forall m, n :: m in closers && n in closers && closers[m] == closers[n] ==> m == n)
  }

  function Proceeded(h: Hub, n: nat): Hub
    requires n in h.closers && h.closers[n].id in h.sessions
  {
    var Closer(id, stage) := h.closers[n];
    var s := h.sessions[id];
    match stage
    case ClosingWatchers =>
      h.(sessions := h.sessions[id := if s.closed then s else s.(closed := true, watchers := {})],
         closers := h.closers[n := Closer(id, ClosingTerminal)])
    case ClosingTerminal =>
      h.(sessions := h.sessions[id := s.(terminalCloses := s.terminalCloses + 1)], closers := h.closers - {n})
  }

  function Step(h: Hub, e: Event): Hub {
    match e
    case Add(id) =>
      if id in h.sessions then h   // ids are random, so they do not repeat
      else h.(listed := h.listed + {id}, sessions := h.sessions[id := Session(false, {}, 0)])
    case Subscribe(id, watcher) =>
      if id !in h.sessions || h.sessions[id].closed then h
      else h.(sessions := h.sessions[id := h.sessions[id].(watchers := h.sessions[id].watchers + {watcher})])
    case Cancel(id, watcher) =>
      if id !in h.sessions then h
      else h.(sessions := h.sessions[id := h.sessions[id].(watchers := h.sessions[id].watchers - {watcher})])
    case CloseSession(id, n) =>
      if id !in h.listed || n in h.closers then h
      else h.(listed := h.listed - {id}, closers := h.closers[n := Closer(id, ClosingWatchers)])
    case CloseIfIdle(id, n) =>
      if id !in h.listed || n in h.closers || id !in h.sessions || h.sessions[id].closed || h.sessions[id].watchers != {} then h
      else
        h.(listed := h.listed - {id}, sessions := h.sessions[id := h.sessions[id].(closed := true)],
           closers := h.closers[n := Closer(id, ClosingTerminal)])
    case CloseHub(closers) =>
      if !Covers(h, closers) then h
      else h.(listed := {}, closers := h.closers + map n | n in closers :: Closer(closers[n], ClosingWatchers))
    case Proceed(n) => if n in h.closers && h.closers[n].id in h.sessions then Proceeded(h, n) else h
  }

  function Exec(h: Hub, es: seq<Event>): Hub
    decreases |es|
  {
    if es == [] then h else Exec(Step(h, es[0]), es[1..])
  }

  // ---- Every session is in exactly one of three places ------------------------------------

  ghost predicate BeingClosed(h: Hub, id: string) {
    exists n :: n in h.closers && h.closers[n].id == id
  }

  ghost predicate SessionOk(h: Hub, id: string, s: Session) {
    && (id in h.listed ==> !s.closed && s.terminalCloses == 0 && !BeingClosed(h, id))
    && (BeingClosed(h, id) ==> s.terminalCloses == 0)
    && (id !in h.listed && !BeingClosed(h, id) ==> s.terminalCloses == 1 && s.closed)
    && (s.closed ==> s.watchers == {})
  }

  ghost predicate Inv(h: Hub) {
    && h.listed <= h.sessions.Keys
    && (forall n :: n in h.closers ==> h.closers[n].id in h.sessions)
    && (forall n :: n in h.closers && h.closers[n].stage.ClosingTerminal? ==> h.sessions[h.closers[n].id].closed)
    && (forall m, n :: m in h.closers && n in h.closers && h.closers[m].id == h.closers[n].id ==> m == n)
    && (forall id :: id in h.sessions ==> SessionOk(h, id, h.sessions[id]))
  }

  lemma CloserAdded(h: Hub, h': Hub, id: string, n: nat, stage: Stage)
    requires n !in h.closers && h'.closers == h.closers[n := Closer(id, stage)]
    ensures forall other :: BeingClosed(h', other) <==> BeingClosed(h, other) || other == id
  {
    forall other | BeingClosed(h, other) || other == id ensures BeingClosed(h', other) {
      if other == id { assert h'.closers[n].id == id; }
      else { var m :| m in h.closers && h.closers[m].id == other; assert h'.closers[m].id == other; }
    }
  }

  lemma SessionsKept(h: Hub, h': Hub, id: string, s: Session)
    requires Inv(h) && h'.listed == h.listed && h'.closers == h.closers && id in h.sessions && h'.sessions == h.sessions[id := s]
    requires SessionOk(h, id, s) && s.closed == h.sessions[id].closed
    ensures Inv(h')
  {
    forall other | other in h'.sessions ensures SessionOk(h', other, h'.sessions[other]) {
      assert BeingClosed(h', other) <==> BeingClosed(h, other);
      assert SessionOk(h, other, h.sessions[other]);
    }
  }

  lemma HandedOver(h: Hub, h': Hub, id: string, n: nat, stage: Stage)
    requires Inv(h) && id in h.listed && n !in h.closers
    requires h'.listed == h.listed - {id} && h'.closers == h.closers[n := Closer(id, stage)]
    requires h'.sessions == h.sessions[id := h.sessions[id].(closed := stage.ClosingTerminal?)]
    requires stage.ClosingTerminal? ==> h.sessions[id].watchers == {}
    ensures Inv(h')
  {
    CloserAdded(h, h', id, n, stage);
    assert SessionOk(h, id, h.sessions[id]);
    forall m | m in h.closers ensures h.closers[m].id != id { assert h.closers[m].id == id ==> BeingClosed(h, id); }
    forall other | other in h'.sessions ensures SessionOk(h', other, h'.sessions[other]) {
      assert SessionOk(h, other, h.sessions[other]);
    }
  }

  lemma AddKeepsInv(h: Hub, id: string)
    requires Inv(h)
    ensures Inv(Step(h, Add(id)))
  {
    var h' := Step(h, Add(id));
    if id !in h.sessions {
      assert !BeingClosed(h', id);
      forall other | other in h'.sessions ensures SessionOk(h', other, h'.sessions[other]) {
        if other != id {
          assert SessionOk(h, other, h.sessions[other]);
          assert BeingClosed(h', other) <==> BeingClosed(h, other);
        }
      }
    }
  }

  lemma AllHandedOver(h: Hub, h': Hub, closers: map<nat, string>)
    requires Covers(h, closers) && h'.closers == h.closers + map n | n in closers :: Closer(closers[n], ClosingWatchers)
    ensures forall id :: BeingClosed(h', id) <==> BeingClosed(h, id) || id in h.listed
  {
    forall id ensures BeingClosed(h', id) <==> BeingClosed(h, id) || id in h.listed {
      if BeingClosed(h, id) { var m :| m in h.closers && h.closers[m].id == id; assert h'.closers[m].id == id; }
      if id in h.listed { var m :| m in closers && closers[m] == id; assert h'.closers[m].id == id; }
    }
  }

  lemma ListedAreNotClosing(h: Hub)
    requires Inv(h)
    ensures forall m :: m in h.closers ==> h.closers[m].id !in h.listed
  {
    forall m | m in h.closers ensures h.closers[m].id !in h.listed {
      assert BeingClosed(h, h.closers[m].id) && SessionOk(h, h.closers[m].id, h.sessions[h.closers[m].id]);
    }
  }

  lemma HandedOverSessions(h: Hub, closers: map<nat, string>)
    requires Inv(h) && Covers(h, closers)
    ensures var h' := Step(h, CloseHub(closers)); forall id :: id in h'.sessions ==> SessionOk(h', id, h'.sessions[id])
  {
    var h' := Step(h, CloseHub(closers));
    AllHandedOver(h, h', closers);
    forall id | id in h'.sessions ensures SessionOk(h', id, h'.sessions[id]) {
      assert SessionOk(h, id, h.sessions[id]);
    }
  }

  lemma CloseHubKeepsInv(h: Hub, closers: map<nat, string>)
    requires Inv(h) && Covers(h, closers)
    ensures Inv(Step(h, CloseHub(closers)))
  {
    HandedOverSessions(h, closers);
    ListedAreNotClosing(h);
  }

  lemma WhoIsLeft(h: Hub, h': Hub, n: nat)
    requires Inv(h) && n in h.closers && h' == Proceeded(h, n)
    ensures forall id :: BeingClosed(h', id) <==> BeingClosed(h, id) && !(id == h.closers[n].id && h.closers[n].stage.ClosingTerminal?)
  {
    var Closer(closed, stage) := h.closers[n];
    forall id ensures BeingClosed(h', id) <==> BeingClosed(h, id) && !(id == closed && stage.ClosingTerminal?) {
      if BeingClosed(h, id) && !(id == closed && stage.ClosingTerminal?) {
        var m :| m in h.closers && h.closers[m].id == id;
        assert h'.closers[m].id == id;
      }
    }
  }

  lemma ProceedKeepsInv(h: Hub, n: nat)
    requires Inv(h) && n in h.closers
    ensures Inv(Step(h, Proceed(n)))
  {
    var h' := Step(h, Proceed(n));
    var id := h.closers[n].id;
    WhoIsLeft(h, h', n);
    assert SessionOk(h, id, h.sessions[id]) && BeingClosed(h, id);
    forall other | other in h'.sessions ensures SessionOk(h', other, h'.sessions[other]) {
      assert SessionOk(h, other, h.sessions[other]);
    }
  }

  lemma StepKeepsInv(h: Hub, e: Event)
    requires Inv(h)
    ensures Inv(Step(h, e))
  {
    var h' := Step(h, e);
    if h' == h { return; }
    match e
    case Add(id) => AddKeepsInv(h, id);
    case Subscribe(id, watcher) =>
      assert SessionOk(h, id, h.sessions[id]);
      SessionsKept(h, h', id, h'.sessions[id]);
    case Cancel(id, watcher) =>
      assert SessionOk(h, id, h.sessions[id]);
      SessionsKept(h, h', id, h'.sessions[id]);
    case CloseSession(id, n) =>
      assert SessionOk(h, id, h.sessions[id]);
      assert h.sessions == h.sessions[id := h.sessions[id].(closed := false)];
      HandedOver(h, h', id, n, ClosingWatchers);
    case CloseIfIdle(id, n) => HandedOver(h, h', id, n, ClosingTerminal);
    case CloseHub(closers) => CloseHubKeepsInv(h, closers);
    case Proceed(n) => ProceedKeepsInv(h, n);
  }

  lemma {:induction false} ExecKeepsInv(h: Hub, es: seq<Event>)
    requires Inv(h)
    ensures Inv(Exec(h, es))
    decreases |es|
  {
    if es != [] {
      StepKeepsInv(h, es[0]);
      ExecKeepsInv(Step(h, es[0]), es[1..]);
    }
  }

  /** In every reachable state a session's terminal has been closed at most once,
      and exactly once if and only if the session has left the hub and nobody is
      still closing it; by then its watchers are gone. */
  lemma TerminalsCloseOnce(es: seq<Event>, id: string)
    requires id in Exec(EMPTY, es).sessions
    ensures
      var h := Exec(EMPTY, es);
      && h.sessions[id].terminalCloses <= 1
      && (h.sessions[id].terminalCloses == 1 <==> id !in h.listed && !BeingClosed(h, id))
      && (h.sessions[id].terminalCloses == 1 ==> h.sessions[id].closed && h.sessions[id].watchers == {})
  {
    ExecKeepsInv(EMPTY, es);
    var h := Exec(EMPTY, es);
    assert SessionOk(h, id, h.sessions[id]);
  }

  // ---- Who leaves the hub ----------------------------------------------------------------------

  /** A session leaves the hub exactly when it is told to close, the hub closes, or an
      idle check finds nobody watching it. */
  lemma OnlyIdleOrToldSessionsLeave(h: Hub, e: Event, id: string)
    requires Inv(h) && id in h.listed
    ensures id !in Step(h, e).listed <==>
              || (e.CloseSession? && e.id == id && e.closer !in h.closers)
              || (e.CloseIfIdle? && e.id == id && e.closer !in h.closers && h.sessions[id].watchers == {})
              || (e.CloseHub? && Covers(h, e.closers))
  {
    assert SessionOk(h, id, h.sessions[id]);
  }

  /** The event tells neither the session to close nor its watcher to go. */
  predicate Spares(e: Event, id: string, watcher: nat) {
    !e.CloseHub? && !(e.CloseSession? && e.id == id) && e != Cancel(id, watcher)
  }

  /** While somebody watches a session, no number of idle checks closes it. */
  lemma {:induction false} WatchedSessionsStay(h: Hub, es: seq<Event>, id: string, watcher: nat)
    requires Inv(h) && id in h.listed && watcher in h.sessions[id].watchers && forall e :: e in es ==> Spares(e, id, watcher)
    ensures id in Exec(h, es).listed && id in Exec(h, es).sessions && watcher in Exec(h, es).sessions[id].watchers
    decreases |es|
  {
    if es != [] {
      WatchedStays(h, es[0], id, watcher);
      StepKeepsInv(h, es[0]);
      WatchedSessionsStay(Step(h, es[0]), es[1..], id, watcher);
    }
  }

  lemma WatchedStays(h: Hub, e: Event, id: string, watcher: nat)
    requires Inv(h) && id in h.listed && watcher in h.sessions[id].watchers && Spares(e, id, watcher)
    ensures id in Step(h, e).listed && id in Step(h, e).sessions && watcher in Step(h, e).sessions[id].watchers
  {
    OnlyIdleOrToldSessionsLeave(h, e, id);
    assert SessionOk(h, id, h.sessions[id]);
    ListedAreNotClosing(h);
  }
}
