/** The calls that only note something on a request: a job GitHub reports as started,
    a job the runner accepted, and the sweep of creations that take too long. */
module RunnerMarks {
  import opened RunnerRows
  import opened RunnerCalls
  import opened RunnerMachine
  import opened RunnerFailures
  import opened RunnerTurns

  /** The calls, by what they note. */
  predicate Notes(e: Entry) {
    e.WebhookInProgress? || e.RunnerAcceptedJob? || e.SweepCreateTimeout?
  }

  /** There is something to note on this row. */
  predicate ToNote(e: Entry, r: Row)
    requires Notes(e)
  {
    match e
    case WebhookInProgress(job) =>
      !r.status.Completed? && !r.status.Stopping? && job.id != 0 && (r.assignedId != job.id || r.assignedName != job.name)
    case RunnerAcceptedJob => !r.status.Completed? && !r.status.Stopping? && r.assignedId == 0 && r.assignedName != RUNNER_JOB_STARTED
    case SweepCreateTimeout => !r.status.Completed? && !r.status.Failed?
  }

  /** The row with the note made. */
  predicate Noted(cfg: Config, e: Entry, before: Row, now: Clock, after: Row)
    requires Notes(e)
  {
    match e
    case WebhookInProgress(job) => after == before.(assignedId := job.id, assignedName := job.name)
    case RunnerAcceptedJob => after == before.(assignedName := RUNNER_JOB_STARTED)
    case SweepCreateTimeout => Judged(cfg, before, SWEEP_STAGE, Transient, now, after)
  }

  lemma NoteTaken(e: Entry, m: Turn)
    requires Notes(e) && m.pc == Head(Enter(e))
    ensures
      if m.read.Some? && ToNote(e, m.read.value) then
        && After(m).Write? && After(m).base == m.read.value && Noted(m.cfg, e, m.read.value, m.c.now, After(m).row)
        && Head(After(m).ok) == Head(After(m).fail) == Done
      else After(m) == Done
  {
    if e.SweepCreateTimeout? && m.read.Some? { FailureIsJudged(m.cfg, m.read.value, SWEEP_STAGE, Transient, m.c.now); }
  }

  lemma NoteChain(cfg: Config, e: Entry, tr: seq<Turn>, last: PC)
    requires Notes(e) && Chained(Head(Enter(e)), tr, last) && forall m :: m in tr ==> m.cfg == cfg
    ensures |tr| <= 2
    ensures tr != [] ==>
      var next := if |tr| == 2 then tr[1].pc else last;
      if tr[0].read.Some? && ToNote(e, tr[0].read.value) then
        next.Write? && next.base == tr[0].read.value && Noted(cfg, e, tr[0].read.value, tr[0].c.now, next.row)
      else next == Done
  {
    if tr != [] {
      assert tr[0] in tr;
      FirstTurns(Head(Enter(e)), tr, last);
      NoteTaken(e, tr[0]);
      if After(tr[0]).Write? { LastWrite(After(tr[0]), tr[1..], last); } else { NothingAfterDone(tr[1..], last); }
    }
  }

  /** Such a call reads its request once and writes at most once: exactly if there is
      something to note, and then exactly the note. */
  lemma NotesAreMade(w: World, t: nat, id: string, e: Entry, es: seq<Event>)
    requires t !in w.threads && id in w.rows && Notes(e)
    ensures
      var w' := Step(w, Call(t, id, e));
      var tr := TurnsIn(w', es, t);
      && t in w'.threads && |tr| <= 2
      && (tr != [] ==>
            var next := if |tr| == 2 then tr[1].pc else HeadNow(w', es, t);
            if tr[0].read.Some? && ToNote(e, tr[0].read.value) then
              next.Write? && next.base == tr[0].read.value && Noted(w.cfg, e, tr[0].read.value, tr[0].c.now, next.row)
            else next == Done)
  {
    var last := CallIsChained(w, t, id, e, es);
    NoteChain(w.cfg, e, TurnsOf(w, t, id, e, es), last);
  }
}
