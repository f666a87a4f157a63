/** A call as its own turns: the steps at which it reads, asks or writes, each with
    what it met in the world. Locks only delay the next turn. */
module RunnerTurns {
  import opened Common
  import opened RunnerRows
  import opened RunnerCalls
  import opened RunnerMachine
  import opened RunnerOutcomes

  /** One turn of a call about request `id`: where the call was, the store and the
      profiles at that moment, the row a read gave it, whether the store refused
      its write, and what the environment chose. */
  datatype Turn = Turn(
    pc: PC,
    id: string,
    cfg: Config,
    rows: Rows,
    profiles: map<string, int>,
    read: Option<Row>,
    refused: bool,
    c: Choice)

  predicate TakesTurn(pc: PC) {
    AtPoint(pc) || pc.Write?
  }

  /** What the call does next apart from locks and its lease. */
  function Head(pc: PC): (head: PC)
    ensures head == Done || TakesTurn(head)
    ensures pc == Done || TakesTurn(pc) ==> head == pc
  {
    match pc
    case LockRunner(next) => Head(next)
    case UnlockRunner(next) => Head(next)
    case LockAdmission(next) => Head(next)
    case UnlockAdmission(next) => Head(next)
    case ReleaseLease(next) => Head(next)
    case _ => pc
  }

  lemma Wrapped(next: PC)
    ensures Head(LeaveAdmission(next)) == Head(next)
    ensures Head(UnlockRunner(ReleaseLease(next))) == Head(next)
    ensures Head(ReleaseLease(UnlockRunner(next))) == Head(next)
    ensures Head(UnlockRunner(LockRunner(next))) == Head(next)
  {
    assert Head(ReleaseLease(next)) == Head(next) && Head(LockRunner(next)) == Head(next);
    assert Head(UnlockRunner(next)) == Head(next);
  }

  /** GitHub says that the request's own job is still queued, or cannot be asked. */
  predicate MayBeQueued(m: Turn, r: Row) {
    r.req.repository != "" && (m.c.fault || m.c.yes)
  }

  /** Where the turn leads. */
  function After(m: Turn): PC
    requires TakesTurn(m.pc)
  {
    if m.pc.Write? then Head(if m.refused then m.pc.fail else m.pc.ok)
    else Head(Decide(m.cfg, m.rows, m.profiles, m.read, m.pc, m.c))
  }

  /** The row a write that is not refused leaves in the store. */
  function Left(m: Turn): Row
    requires m.pc.Write? && m.id in m.rows
  {
    Written(m.rows[m.id], m.pc.row, m.c.now)
  }

  function TurnAt(w: World, t: nat, c: Choice): Turn
    requires t in w.threads
  {
    var Thread(id, pc) := w.threads[t];
    Turn(pc, id, w.cfg, w.rows, w.profiles, ReadRow(w.rows, id, c), !WriteSucceeds(w, t, c), c)
  }

  function TurnOf(w: World, e: Event, t: nat): seq<Turn> {
    if e.Run? && e.t == t && t in w.threads && TakesTurn(w.threads[t].pc) then [TurnAt(w, t, e.c)] else []
  }

  /** The turns call `t` takes in a run, until the process dies. */
  function TurnsIn(w: World, es: seq<Event>, t: nat): seq<Turn>
    decreases |es|
  {
    if es == [] || es[0].Restart? then [] else TurnOf(w, es[0], t) + TurnsIn(Step(w, es[0]), es[1..], t)
  }

  function HeadNow(w: World, es: seq<Event>, t: nat): PC
    requires t in w.threads
  {
    Head(LastPoint(w, es, t))
  }

  /** A turn is what the machine makes of it: where it leads, and what it leaves in the store. */
  lemma TurnIsStep(w: World, t: nat, c: Choice)
    requires t in w.threads && TakesTurn(w.threads[t].pc)
    ensures RunThread(w, t, c).cfg == w.cfg && t in RunThread(w, t, c).threads && Head(RunThread(w, t, c).threads[t].pc) == After(TurnAt(w, t, c))
    ensures
      var m := TurnAt(w, t, c);
      RunThread(w, t, c).rows == if m.pc.Write? && !m.refused then w.rows[m.id := Left(m)] else w.rows
  {
  }

  /** A step moves the head only as a turn of this call. */
  lemma StepKeepsHead(w: World, e: Event, t: nat)
    requires t in w.threads && !e.Restart?
    ensures t in Step(w, e).threads
    ensures
      var head := Head(Step(w, e).threads[t].pc);
      if TurnOf(w, e, t) == [] then head == Head(w.threads[t].pc)
      else TurnOf(w, e, t) == [TurnAt(w, t, e.c)] && head == After(TurnAt(w, t, e.c)) && Head(w.threads[t].pc) == w.threads[t].pc
  {
    StaysAlive(w, e, t);
    if TurnOf(w, e, t) != [] { TurnIsStep(w, t, e.c); }
  }

  /** The turns follow each other, from head `h` to head `last`. */
  ghost predicate Chained(h: PC, tr: seq<Turn>, last: PC)
    decreases |tr|
  {
    if tr == [] then last == h else TakesTurn(h) && tr[0].pc == h && Chained(After(tr[0]), tr[1..], last)
  }

  lemma {:induction false} TurnsChain(w: World, es: seq<Event>, t: nat)
    requires t in w.threads
    ensures Chained(Head(w.threads[t].pc), TurnsIn(w, es, t), HeadNow(w, es, t))
    decreases |es|
  {
    if es != [] && !es[0].Restart? {
      var turn, w' := TurnOf(w, es[0], t), Step(w, es[0]);
      StepKeepsHead(w, es[0], t);
      TurnsChain(w', es[1..], t);
      var rest := TurnsIn(w', es[1..], t);
      if turn == [] { assert turn + rest == rest; } else { assert (turn + rest)[1..] == rest; }
    }
  }

  lemma Remembered(tr: seq<Turn>, m: Turn)
    ensures m in tr + [m] && forall n :: n in tr ==> n in tr + [m]
  {
  }

  // ---- Following a chain ---------------------------------------------------------------------

  /** Every turn of which `fact` is true hands on what holds before it. */
  ghost predicate HandedOn(fact: Turn -> bool, knows: (PC, seq<Turn>) -> bool) {
    forall m: Turn, tr: seq<Turn> :: TakesTurn(m.pc) && fact(m) && knows(m.pc, tr) ==> knows(After(m), tr + [m])
  }

  lemma {:induction false} ChainKeeps(h: PC, tr: seq<Turn>, last: PC, fact: Turn -> bool, knows: (PC, seq<Turn>) -> bool, before: seq<Turn>)
    requires Chained(h, tr, last) && (forall m :: m in tr ==> fact(m))
    requires HandedOn(fact, knows) && knows(h, before)
    ensures knows(last, before + tr)
    decreases |tr|
  {
    if tr == [] {
      assert before + tr == before;
    } else {
      ChainKeeps(After(tr[0]), tr[1..], last, fact, knows, before + [tr[0]]);
      assert before + [tr[0]] + tr[1..] == before + tr;
    }
  }

  /** The part of a chain before its turn `k`. */
  lemma {:induction false} ChainUpTo(h: PC, tr: seq<Turn>, last: PC, k: nat)
    requires Chained(h, tr, last) && k < |tr|
    ensures TakesTurn(tr[k].pc) && Chained(h, tr[..k], tr[k].pc)
    decreases |tr|
  {
    if k > 0 {
      ChainUpTo(After(tr[0]), tr[1..], last, k - 1);
      assert tr[..k][0] == tr[0] && tr[..k][1..] == tr[1..][..k - 1];
    }
  }

  lemma FirstTurns(h: PC, tr: seq<Turn>, last: PC)
    requires Chained(h, tr, last)
    ensures tr != [] ==> tr[0].pc == h && TakesTurn(h) && After(tr[0]) == if |tr| == 1 then last else tr[1].pc
  {
    if |tr| > 1 { assert tr[1..][0] == tr[1]; }
  }

  lemma NothingAfterDone(tr: seq<Turn>, last: PC)
    requires Chained(Done, tr, last)
    ensures tr == [] && last == Done
  {
  }

  /** A write that ends the call either way is its last turn. */
  lemma LastWrite(h: PC, tr: seq<Turn>, last: PC)
    requires Chained(h, tr, last) && h.Write? && Head(h.ok) == Head(h.fail) == Done
    ensures |tr| <= 1
  {
    if tr != [] { NothingAfterDone(tr[1..], last); }
  }

  // ---- Roads -----------------------------------------------------------------------------------

  /** `cause` is what puts a call of this shape on the road, and nothing else does. */
  ghost predicate LeadsTo(fact: Turn -> bool, shape: PC -> bool, cause: Turn -> bool, road: PC -> bool) {
    forall m: Turn :: TakesTurn(m.pc) && fact(m) && shape(m.pc) ==>
      shape(After(m)) && (cause(m) ==> road(After(m))) && (road(After(m)) ==> cause(m) || road(m.pc))
  }

  ghost predicate Happened(tr: seq<Turn>, cause: Turn -> bool) {
    exists k :: 0 <= k < |tr| && cause(tr[k])
  }

  /** The call is or was on the road. */
  ghost predicate Took(tr: seq<Turn>, last: PC, road: PC -> bool) {
    road(last) || exists k :: 0 <= k < |tr| && road(tr[k].pc)
  }

  lemma {:induction false} ChainTakes(h: PC, tr: seq<Turn>, last: PC, fact: Turn -> bool, shape: PC -> bool, cause: Turn -> bool, road: PC -> bool)
    requires Chained(h, tr, last) && (forall m :: m in tr ==> fact(m))
    requires LeadsTo(fact, shape, cause, road) && shape(h)
    ensures shape(last)
    ensures Took(tr, last, road) <==> road(h) || Happened(tr, cause)
    decreases |tr|
  {
    if tr != [] {
      var rest := tr[1..];
      ChainTakes(After(tr[0]), rest, last, fact, shape, cause, road);
      assert forall k :: 0 <= k < |rest| ==> rest[k] == tr[k + 1];
      assert forall k :: 0 < k < |tr| ==> tr[k] == rest[k - 1];
    }
  }

  // ---- What stays the same along a call ---------------------------------------------------

  /** The turn is one of a call about request `id`, whose workflow job is `job`. */
  predicate About(m: Turn, cfg: Config, id: string, job: int) {
    m.cfg == cfg && m.id == id && id in m.rows && m.rows[id].req.jobId == job && m.read == ReadRow(m.rows, id, m.c)
  }

  lemma RunKeepsJob(w: World, t: nat, c: Choice, id: string)
    requires t in w.threads && id in w.rows
    ensures
      var w' := RunThread(w, t, c);
      w'.cfg == w.cfg && id in w'.rows && w'.rows[id].req.jobId == w.rows[id].req.jobId
  {
    if TakesTurn(w.threads[t].pc) { TurnIsStep(w, t, c); } else { LocksKeepJob(w, t, c, id); }
  }

  lemma LocksKeepJob(w: World, t: nat, c: Choice, id: string)
    requires t in w.threads && id in w.rows && !TakesTurn(w.threads[t].pc)
    ensures
      var w' := RunThread(w, t, c);
      w'.cfg == w.cfg && id in w'.rows && w'.rows[id].req.jobId == w.rows[id].req.jobId
  {
  }

  lemma StepKeepsJob(w: World, e: Event, id: string)
    requires id in w.rows
    ensures Step(w, e).cfg == w.cfg && id in Step(w, e).rows && Step(w, e).rows[id].req.jobId == w.rows[id].req.jobId
  {
    if e.Run? && e.t in w.threads { RunKeepsJob(w, e.t, e.c, id); }
  }

  lemma StepKeepsId(w: World, e: Event, t: nat)
    requires t in w.threads && !e.Restart?
    ensures t in Step(w, e).threads && Step(w, e).threads[t].id == w.threads[t].id
  {
    StaysAlive(w, e, t);
  }

  lemma {:induction false} TurnsAreAbout(w: World, es: seq<Event>, t: nat)
    requires t in w.threads && w.threads[t].id in w.rows
    ensures forall m :: m in TurnsIn(w, es, t) ==> About(m, w.cfg, w.threads[t].id, w.rows[w.threads[t].id].req.jobId)
    decreases |es|
  {
    if es != [] && !es[0].Restart? {
      var id := w.threads[t].id;
      StepKeepsJob(w, es[0], id);
      StepKeepsId(w, es[0], t);
      TurnsAreAbout(Step(w, es[0]), es[1..], t);
    }
  }

  /** The turns of a call made now. */
  function TurnsOf(w: World, t: nat, id: string, entry: Entry, es: seq<Event>): seq<Turn> {
    TurnsIn(Step(w, Call(t, id, entry)), es, t)
  }

  lemma CallIsChained(w: World, t: nat, id: string, entry: Entry, es: seq<Event>) returns (last: PC)
    requires t !in w.threads && id in w.rows
    ensures t in Step(w, Call(t, id, entry)).threads && last == HeadNow(Step(w, Call(t, id, entry)), es, t)
    ensures Chained(Head(Enter(entry)), TurnsOf(w, t, id, entry, es), last)
    ensures forall m :: m in TurnsOf(w, t, id, entry, es) ==> About(m, w.cfg, id, w.rows[id].req.jobId)
  {
    var w' := Step(w, Call(t, id, entry));
    last := HeadNow(w', es, t);
    TurnsChain(w', es, t);
    TurnsAreAbout(w', es, t);
  }

  /** The turns of a start call the queue worker makes now. */
  function TurnsOfStart(w: World, t: nat, id: string, now: Clock, es: seq<Event>): seq<Turn> {
    TurnsIn(Step(w, Claim(t, id, now)), es, t)
  }

  lemma StartIsChained(w: World, t: nat, id: string, now: Clock, es: seq<Event>) returns (last: PC)
    requires t !in w.threads && NextRunnable(w.rows, id, now)
    ensures t in Step(w, Claim(t, id, now)).threads && last == HeadNow(Step(w, Claim(t, id, now)), es, t)
    ensures Chained(AtStart(StartRead), TurnsOfStart(w, t, id, now, es), last)
    ensures forall m :: m in TurnsOfStart(w, t, id, now, es) ==> About(m, w.cfg, id, w.rows[id].req.jobId)
  {
    var w' := Step(w, Claim(t, id, now));
    last := HeadNow(w', es, t);
    TurnsChain(w', es, t);
    TurnsAreAbout(w', es, t);
  }
}
