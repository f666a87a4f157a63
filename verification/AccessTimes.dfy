/** How old a cached access list can be when a request is given it, over every run:
    told by the events that recorded it. */
module AccessTimes {
  import opened Common
  import opened AccessCache
  import opened AccessRuns

  const SECOND: nat := 1_000_000_000

  /** Event `i` recorded this list for the account, at time `rec` and under the
      epoch that was then current. */
  ghost predicate RecordedAt(es: seq<Event>, i: nat, account: int, access: Access, rec: nat) {
    && i < |es| && es[i].Record? && es[i].now == rec
    && var w := Exec(EMPTY, es[..i]);
    && !Blocked(w, es[i])
    && var f := w.flights[es[i].flight];
    && f.account == account && f.epoch == Epoch(w.store, account)
    && f.stage.result.Loaded? && access == Access(f.stage.result.repositories, f.began)
  }

  /** Event `j` told the cache, at time `at`, that a load for the account had failed. */
  ghost predicate FailedAt(es: seq<Event>, j: nat, account: int, at: nat) {
    && j < |es| && es[j].Record? && es[j].now == at
    && var w := Exec(EMPTY, es[..j]);
    && !Blocked(w, es[j])
    && w.flights[es[j].flight].account == account && w.flights[es[j].flight].stage.result.LoadFailed?
  }

  /** The entry is refreshed twenty seconds after its recording, or five after a
      failed load that came later, but never after it expires. */
  ghost predicate RefreshDue(es: seq<Event>, i: nat, account: int, rec: nat, entry: Entry) {
    || entry.refreshAfter == rec + 20 * SECOND
    || (exists j: nat :: i < j < |es| && es[j].Record? && FailedAt(es, j, account, es[j].now) && entry.refreshAfter == Min(es[j].now + 5 * SECOND, entry.expiresAt))
  }

  /** The entry's times are those of its recording. */
  ghost predicate Dated(es: seq<Event>, i: nat, account: int, entry: Entry) {
    && i < |es| && es[i].Record? && RecordedAt(es, i, account, entry.access, es[i].now)
    && entry.expiresAt == es[i].now + 30 * SECOND && RefreshDue(es, i, account, es[i].now, entry)
  }

  ghost predicate IsDated(es: seq<Event>, account: int, entry: Entry) {
    exists i: nat :: Dated(es, i, account, entry)
  }

  lemma OneMore(es: seq<Event>, e: Event)
    ensures Exec(EMPTY, es + [e]) == Step(Exec(EMPTY, es), e)
  {
    ExecConcat(EMPTY, es, [e]);
    assert [e][1..] == [];
    assert Exec(Step(Exec(EMPTY, es), e), []) == Step(Exec(EMPTY, es), e);
  }

  lemma LaterToo(es: seq<Event>, e: Event, account: int, entry: Entry, i: nat)
    requires Dated(es, i, account, entry)
    ensures Dated(es + [e], i, account, entry)
  {
    var all := es + [e];
    assert all[..i] == es[..i] && all[i] == es[i];
    if entry.refreshAfter != es[i].now + 20 * SECOND {
      var j: nat :| i < j < |es| && es[j].Record? && FailedAt(es, j, account, es[j].now) && entry.refreshAfter == Min(es[j].now + 5 * SECOND, entry.expiresAt);
      assert all[..j] == es[..j] && all[j] == es[j];
      assert FailedAt(all, j, account, all[j].now);
    }
  }

  /** What one event can make of an account's entry. */
  lemma EntryAfter(w: World, e: Event, account: int)
    requires account in Step(w, e).store.cache
    ensures
      var entry := Step(w, e).store.cache[account];
      || (account in w.store.cache && entry == w.store.cache[account].(refreshing := entry.refreshing))
      || (e.Record? && !Blocked(w, e) && w.flights[e.flight].account == account &&
          match w.flights[e.flight].stage.result
          case Loaded(repositories) =>
            && w.flights[e.flight].epoch == Epoch(w.store, account)
            && entry == Entry(Access(repositories, w.flights[e.flight].began), e.now + 20 * SECOND, e.now + 30 * SECOND, false)
          case LoadFailed =>
            && account in w.store.cache
            && entry == w.store.cache[account].(refreshing := false, refreshAfter := Min(e.now + 5 * SECOND, w.store.cache[account].expiresAt))
          case Rejected => false)
  {
  }

  lemma StillDated(es: seq<Event>, e: Event, account: int)
    requires account in Step(Exec(EMPTY, es), e).store.cache
    requires account in Exec(EMPTY, es).store.cache ==> IsDated(es, account, Exec(EMPTY, es).store.cache[account])
    ensures IsDated(es + [e], account, Step(Exec(EMPTY, es), e).store.cache[account])
  {
    var w, all := Exec(EMPTY, es), es + [e];
    var entry := Step(w, e).store.cache[account];
    EntryAfter(w, e, account);
    assert all[..|es|] == es && all[|es|] == e;
    if account in w.store.cache && entry == w.store.cache[account].(refreshing := entry.refreshing) {
      var i: nat :| Dated(es, i, account, w.store.cache[account]);
      LaterToo(es, e, account, w.store.cache[account], i);
      assert Dated(all, i, account, entry);
    } else if w.flights[e.flight].stage.result.Loaded? {
      assert RecordedAt(all, |es|, account, entry.access, e.now);
      assert Dated(all, |es|, account, entry);
    } else {
      var i: nat :| Dated(es, i, account, w.store.cache[account]);
      LaterToo(es, e, account, w.store.cache[account], i);
      assert FailedAt(all, |es|, account, all[|es|].now);
      assert Dated(all, i, account, entry);
    }
  }

  lemma {:induction false} CacheIsDated(es: seq<Event>, account: int)
    requires account in Exec(EMPTY, es).store.cache
    ensures IsDated(es, account, Exec(EMPTY, es).store.cache[account])
  {
    if es != [] {
      var front, last := es[..|es| - 1], es[|es| - 1];
      assert es == front + [last];
      OneMore(front, last);
      if account in Exec(EMPTY, front).store.cache { CacheIsDated(front, account); }
      StillDated(front, last, account);
    }
  }

  /** The list comes from a recording less than thirty seconds old. */
  ghost predicate Recent(es: seq<Event>, account: int, entry: Entry, now: nat) {
    exists i: nat :: Dated(es, i, account, entry) && now < es[i].now + 30 * SECOND
  }

  /** A request that looks into the cache at time `now` is given the list that is
      cached exactly while it is not expired, and then that list was recorded less
      than thirty seconds before `now`; it sets a refresh going exactly when one is
      due and none is under way. */
  lemma OnlyRecentListsAreServed(es: seq<Event>, t: nat, now: nat, background: nat)
    requires !Blocked(Exec(EMPTY, es), Lookup(t, now, background))
    ensures
      var w := Exec(EMPTY, es);
      var w' := Step(w, Lookup(t, now, background));
      var account, cache := w.callers[t].account, w.store.cache;
      && t in w'.callers
      && (if account in cache && now < cache[account].expiresAt then
            && w'.callers[t].pc == Returned(cache[account].access) && Recent(es, account, cache[account], now)
            && (background in w'.callers <==> now >= cache[account].refreshAfter && !cache[account].refreshing)
          else w'.callers[t].pc.ReadingEpoch? && account !in w'.store.cache && background !in w'.callers)
  {
    var w := Exec(EMPTY, es);
    var account := w.callers[t].account;
    if account in w.store.cache && now < w.store.cache[account].expiresAt {
      CacheIsDated(es, account);
      var i: nat :| Dated(es, i, account, w.store.cache[account]);
      assert now < es[i].now + 30 * SECOND;
    }
  }
}
