/** Mismatch reconciliation among everything else: however the calls interleave,
    every write of the reconciler takes one completed request out of the set of
    mismatched ones, so it can only go on as long as new mismatches appear. */
module RunnerMismatches {
  import opened Common
  import opened RunnerRows
  import opened RunnerCalls
  import opened RunnerMachine
  import opened RunnerInvariant
  import opened RunnerHistory

  /** The reconciler settles request `id`. */
  predicate Settles(w: World, e: Event, id: string) {
    WritesRow(w, e, id) && (SiteOf(w, e).MismatchRequeue? || SiteOf(w, e).MismatchInspect?)
  }

  predicate SettlesOne(w: World, e: Event) {
    e.Run? && WriteSucceeds(w, e.t, e.c) && Settles(w, e, w.threads[e.t].id)
  }

  /** A settling write finds its request mismatched and takes it, and no other,
      out of the set. */
  lemma SettlingRemoves(w: World, e: Event, id: string)
    requires Inv(w) && Settles(w, e, id)
    ensures id in MismatchedIds(w.rows)
    ensures MismatchedIds(Step(w, e).rows) == MismatchedIds(w.rows) - {id}
  {
    var pc := w.threads[e.t].pc;
    assert ThreadOk(w.cfg, w.rows, w.threads[e.t]);
    NoLostUpdate(w, e.t, e.c);
    var w' := Step(w, e);
    assert w'.rows[id].assignedId == 0;
    forall other | other in w.rows && other != id ensures other in w'.rows && w'.rows[other] == w.rows[other] {
    }
  }

  lemma OtherEventsEnterNothing(w: World, e: Event, id: string)
    requires !e.Run?
    ensures id in MismatchedIds(Step(w, e).rows) ==> id in MismatchedIds(w.rows)
  {
  }

  lemma RunEntersByWriting(w: World, t: nat, c: Choice, id: string)
    requires t in w.threads && !(WriteSucceeds(w, t, c) && w.threads[t].id == id)
    ensures id in MismatchedIds(RunThread(w, t, c).rows) ==> id in MismatchedIds(w.rows)
  {
  }

  /** A request becomes mismatched only by a write that leaves it completed. */
  lemma EnteringIsAWrite(w: World, e: Event, id: string)
    requires id in MismatchedIds(Step(w, e).rows) && id !in MismatchedIds(w.rows)
    ensures WritesRow(w, e, id) && Step(w, e).rows[id].status.Completed?
  {
    if !e.Run? {
      OtherEventsEnterNothing(w, e, id);
    } else if e.t in w.threads && !WritesRow(w, e, id) {
      RunEntersByWriting(w, e.t, e.c, id);
    }
  }

  /** How often a request became mismatched, and how often the reconciler settled one. */
  function EnteredIn(w: World, es: seq<Event>): nat
    decreases |es|
  {
    if es == [] then 0
    else |MismatchedIds(Step(w, es[0]).rows) - MismatchedIds(w.rows)| + EnteredIn(Step(w, es[0]), es[1..])
  }

  function SettledIn(w: World, es: seq<Event>): nat
    decreases |es|
  {
    if es == [] then 0 else (if SettlesOne(w, es[0]) then 1 else 0) + SettledIn(Step(w, es[0]), es[1..])
  }

  lemma SizesAfter(before: set<string>, after: set<string>)
    ensures |after| <= |before| + |after - before|
  {
    SubsetSize(after, before + (after - before));
  }

  lemma SettlingDrains(w: World, e: Event)
    requires Inv(w) && SettlesOne(w, e)
    ensures |MismatchedIds(Step(w, e).rows)| + 1 == |MismatchedIds(w.rows)|
  {
    var id := w.threads[e.t].id;
    SettlingRemoves(w, e, id);
    assert MismatchedIds(w.rows) == MismatchedIds(Step(w, e).rows) + {id};
  }

  lemma StepDrains(w: World, e: Event)
    requires Inv(w)
    ensures (if SettlesOne(w, e) then 1 else 0) + |MismatchedIds(Step(w, e).rows)| <=
            |MismatchedIds(w.rows)| + |MismatchedIds(Step(w, e).rows) - MismatchedIds(w.rows)|
  {
    if SettlesOne(w, e) {
      SettlingDrains(w, e);
    } else {
      SizesAfter(MismatchedIds(w.rows), MismatchedIds(Step(w, e).rows));
    }
  }

  /** In every run the reconciler settles at most as many requests as were
      mismatched or became so, and without new mismatches each one it settles is
      one fewer for good. */
  lemma {:induction false} MismatchesDrain(w: World, es: seq<Event>)
    requires Inv(w)
    ensures SettledIn(w, es) + |MismatchedIds(Exec(w, es).rows)| <= |MismatchedIds(w.rows)| + EnteredIn(w, es)
    decreases |es|
  {
    if es != [] {
      StepKeepsInv(w, es[0]);
      StepDrains(w, es[0]);
      MismatchesDrain(Step(w, es[0]), es[1..]);
    }
  }
}
