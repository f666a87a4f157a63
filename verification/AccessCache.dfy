/** The per-account cache of GitHub repository access: the locked operations on
    the epoch and cache maps, as pure functions and as the object that performs
    them. AccessRuns interleaves them. */
module AccessCache {
  import opened Common

  const MAX_ITEMS: nat := 512
  const REFRESH_AFTER: nat := 20_000_000_000
  const TTL: nat := 30_000_000_000
  const REFRESH_RETRY: nat := 5_000_000_000

  /** A loaded access list, with the step at which its load began. */
  datatype Access = Access(repositories: seq<(int, seq<string>)>, began: nat)

  datatype Entry = Entry(access: Access, refreshAfter: nat, expiresAt: nat, refreshing: bool)

  datatype Store = Store(epochs: map<int, nat>, cache: map<int, Entry>)

  datatype Lookup = Miss | Hit(access: Access, refresh: bool)

  function Epoch(s: Store, account: int): nat {
    if account in s.epochs then s.epochs[account] else 0
  }

  /** What a request finds at time `now`. */
  function Find(s: Store, account: int, now: nat): Lookup {
    if account !in s.cache || now >= s.cache[account].expiresAt then Miss
    else Hit(s.cache[account].access, now >= s.cache[account].refreshAfter && !s.cache[account].refreshing)
  }

  /** The store after that lookup: an expired entry is dropped, a stale one marked as being refreshed. */
  function AfterFind(s: Store, account: int, now: nat): Store {
    match Find(s, account, now)
    case Miss => s.(cache := s.cache - {account})
    case Hit(_, refresh) => if refresh then s.(cache := s.cache[account := s.cache[account].(refreshing := true)]) else s
  }

  function FreshEntry(access: Access, now: nat): Entry {
    Entry(access, now + REFRESH_AFTER, now + TTL, false)
  }

  predicate MustEvict(s: Store, account: int) {
    account !in s.cache && |s.cache| >= MAX_ITEMS
  }

  /** `victim` is the entry Go's map iteration happens to yield first. */
  function AfterCaching(s: Store, account: int, epoch: nat, access: Access, now: nat, victim: int): Store {
    if Epoch(s, account) != epoch then s
    else
      var kept := if MustEvict(s, account) then s.cache - {victim} else s.cache;
      s.(cache := kept[account := FreshEntry(access, now)])
  }

  function AfterFinish(s: Store, account: int, epoch: nat, now: nat): Store {
    if Epoch(s, account) != epoch || account !in s.cache then s
    else
      var entry := s.cache[account];
      s.(cache := s.cache[account := entry.(refreshing := false, refreshAfter := Min(now + REFRESH_RETRY, entry.expiresAt))])
  }

  function AfterInvalidation(s: Store, account: int): Store {
    Store(s.epochs[account := Epoch(s, account) + 1], s.cache - {account})
  }

  function AfterInvalidationIfCurrent(s: Store, account: int, epoch: nat): Store {
    if Epoch(s, account) != epoch then s else AfterInvalidation(s, account)
  }

  /** The cache map never grows beyond its limit. */
  predicate Bounded(s: Store) {
    |s.cache| <= MAX_ITEMS
  }

  lemma RemovalShrinks(cache: map<int, Entry>, account: int)
    ensures |cache - {account}| == |cache| - (if account in cache then 1 else 0)
  {
    if account in cache {
      assert cache.Keys == (cache - {account}).Keys + {account};
    } else {
      assert cache - {account} == cache;
    }
    assert |cache| == |cache.Keys| && |cache - {account}| == |(cache - {account}).Keys|;
  }

  lemma InsertionGrows(cache: map<int, Entry>, account: int, entry: Entry)
    ensures |cache[account := entry]| == |cache| + (if account in cache then 0 else 1)
  {
    assert cache[account := entry].Keys == cache.Keys + {account};
    assert |cache[account := entry]| == |cache[account := entry].Keys| && |cache| == |cache.Keys|;
  }

  lemma SomeEntry(cache: map<int, Entry>) returns (account: int)
    requires |cache| > 0
    ensures account in cache
  {
    account := SomeElement(cache.Keys);
  }

  lemma CachingIsBounded(s: Store, account: int, epoch: nat, access: Access, now: nat, victim: int)
    requires Bounded(s) && (MustEvict(s, account) ==> victim in s.cache)
    ensures Bounded(AfterCaching(s, account, epoch, access, now, victim))
  {
    var kept := if MustEvict(s, account) then s.cache - {victim} else s.cache;
    RemovalShrinks(s.cache, victim);
    InsertionGrows(kept, account, FreshEntry(access, now));
  }

  lemma LookupIsBounded(s: Store, account: int, epoch: nat, now: nat)
    requires Bounded(s)
    ensures Bounded(AfterFind(s, account, now)) && Bounded(AfterFinish(s, account, epoch, now))
    ensures Bounded(AfterInvalidationIfCurrent(s, account, epoch)) && Bounded(AfterInvalidation(s, account))
  {
    RemovalShrinks(s.cache, account);
    if account in s.cache {
      var entry := s.cache[account];
      InsertionGrows(s.cache, account, entry.(refreshing := true));
      InsertionGrows(s.cache, account, entry.(refreshing := false, refreshAfter := Min(now + REFRESH_RETRY, entry.expiresAt)));
    }
  }

  /** The fields of the server that userRepositoryAccessMu guards; each method is
      one critical section. */
  class UserRepositoryAccess {
    var epochs: map<int, nat>
    var cache: map<int, Entry>

    function Contents(): Store
      reads this
    {
      Store(epochs, cache)
    }

    ghost predicate Valid()
      reads this
    {
      Bounded(Contents())
    }

    constructor ()
      ensures Valid() && Contents() == Store(map[], map[])
    {
      epochs := map[];
      cache := map[];
    }

    method CachedForRequest(account: int, now: nat) returns (found: Lookup)
      requires Valid()
      modifies this
      ensures Valid()
      ensures found == Find(old(Contents()), account, now)
      ensures found.Hit? <==> account in old(cache) && now < old(cache)[account].expiresAt
      ensures found.Hit? ==> found.access == old(cache)[account].access
      ensures found.Hit? ==> (found.refresh <==> now >= old(cache)[account].refreshAfter && !old(cache)[account].refreshing)
      ensures found.Miss? ==> account !in cache
      ensures found.Hit? ==> cache == old(cache)[account := old(cache)[account].(refreshing := old(cache)[account].refreshing || found.refresh)]
      ensures Contents() == AfterFind(old(Contents()), account, now)
    {
      LookupIsBounded(Contents(), account, 0, now);
      if account !in cache {
        assert cache - {account} == cache;
        return Miss;
      }
      var entry := cache[account];
      if now >= entry.expiresAt {
        cache := cache - {account};
        return Miss;
      }
      var refresh := now >= entry.refreshAfter && !entry.refreshing;
      if refresh {
        cache := cache[account := entry.(refreshing := true)];
      }
      found := Hit(entry.access, refresh);
    }

    method CacheIfCurrent(account: int, epoch: nat, access: Access, now: nat) returns (cached: bool, ghost victim: int)
      requires Valid()
      modifies this
      ensures Valid()
      ensures cached <==> Epoch(old(Contents()), account) == epoch
      ensures cached && MustEvict(old(Contents()), account) ==> victim in old(cache)
      ensures Contents() == AfterCaching(old(Contents()), account, epoch, access, now, victim)
      ensures cached ==> account in cache && cache[account].access == access && !cache[account].refreshing
      ensures cached ==> cache[account].refreshAfter == now + 20_000_000_000 && cache[account].expiresAt == now + 30_000_000_000
    {
      victim := account;
      if Epoch(Contents(), account) != epoch { return false, victim; }
      if account !in cache && |cache| >= MAX_ITEMS {
        ghost var some := SomeEntry(cache);
        var evicted :| evicted in cache;
        victim := evicted;
        CachingIsBounded(Contents(), account, epoch, access, now, victim);
        cache := cache - {evicted};
      } else {
        CachingIsBounded(Contents(), account, epoch, access, now, victim);
      }
      cache := cache[account := Entry(access, now + REFRESH_AFTER, now + TTL, false)];
      cached := true;
    }

    method FinishRefresh(account: int, epoch: nat, now: nat)
      requires Valid()
      modifies this
      ensures Valid()
      ensures Contents() == AfterFinish(old(Contents()), account, epoch, now)
      ensures Epoch(old(Contents()), account) == epoch && account in old(cache) ==>
        && account in cache && !cache[account].refreshing && cache[account].expiresAt == old(cache)[account].expiresAt
        && cache[account].refreshAfter == Min(now + 5_000_000_000, cache[account].expiresAt)
    {
      LookupIsBounded(Contents(), account, epoch, now);
      if Epoch(Contents(), account) != epoch || account !in cache { return; }
      var entry := cache[account];
      var next := now + REFRESH_RETRY;
      if next > entry.expiresAt {
        next := entry.expiresAt;
      }
      cache := cache[account := entry.(refreshing := false, refreshAfter := next)];
    }

    method Invalidate(account: int)
      requires Valid()
      modifies this
      ensures Valid()
      ensures Contents() == AfterInvalidation(old(Contents()), account)
    {
      LookupIsBounded(Contents(), account, 0, 0);
      epochs := epochs[account := Epoch(Contents(), account) + 1];
      cache := cache - {account};
    }

    method InvalidateIfCurrent(account: int, epoch: nat)
      requires Valid()
      modifies this
      ensures Valid()
      ensures Contents() == AfterInvalidationIfCurrent(old(Contents()), account, epoch)
    {
      if Epoch(Contents(), account) == epoch {
        Invalidate(account);
      }
    }
  }
}

/** Requests, single-flight loads and invalidations of repository access, in any
    interleaving. */
module AccessRuns {
  import opened Common
  import opened AccessCache

  datatype LoadResult = Loaded(repositories: seq<(int, seq<string>)>) | Rejected | LoadFailed

  /** One call of the single-flight group, for the key (account, epoch). */
  datatype Flight = Flight(account: int, epoch: nat, began: nat, stage: Stage)

  datatype Stage =
    | Loading
    | Ended(result: LoadResult)      // the load is over, the cache not yet told
    | Recorded(result: LoadResult)   // told, but the group still hands the call out
    | Delivered(result: LoadResult)

  /** userAuthorizedRepositoryAccess and refreshUserRepositoryAccess */
  datatype PC =
    | Asking
    | ReadingEpoch
    | Joining(epoch: nat)
    | Waiting(epoch: nat, flight: nat)
    | Checking(epoch: nat, access: Access)
    | Returned(access: Access)
    | GaveUp

  datatype Caller = Caller(account: int, pc: PC)

  datatype World = World(
    tick: nat,                          // the number of steps so far
    store: Store,
    open: map<(int, nat), nat>,         // calls the group would let another caller join
    flights: map<nat, Flight>,
    callers: map<nat, Caller>)

  datatype Event =
    | Request(t: nat, account: int)
    | Lookup(t: nat, now: nat, background: nat)   // `background`: the goroutine a due refresh starts
    | ReadEpoch(t: nat)
    | Join(t: nat, flight: nat)
    | LoadEnds(flight: nat, result: LoadResult)
    | Record(flight: nat, now: nat, victim: int)
    | Deliver(flight: nat)
    | Receive(t: nat)
    | CheckEpoch(t: nat)
    | Cancel(t: nat)
    | InvalidateAccount(account: int)

  const EMPTY := World(0, Store(map[], map[]), map[], map[], map[])

  function Goto(w: World, t: nat, pc: PC): World
    requires t in w.callers
  {
    w.(callers := w.callers[t := w.callers[t].(pc := pc)])
  }

  function DoLookup(w: World, t: nat, now: nat, background: nat): World
    requires t in w.callers
  {
    var account := w.callers[t].account;
    var w' := w.(store := AfterFind(w.store, account, now));
    match Find(w.store, account, now)
    case Miss => Goto(w', t, ReadingEpoch)
    case Hit(access, refresh) =>
      var w'' := Goto(w', t, Returned(access));
      if refresh
      then w''.(callers := w''.callers[background := Caller(account, ReadingEpoch)])
      else w''
  }

  function DoJoin(w: World, t: nat, epoch: nat, id: nat): World
    requires t in w.callers
  {
    var key := (w.callers[t].account, epoch);
    if key in w.open then Goto(w, t, Waiting(epoch, w.open[key]))
    else if id in w.flights then w
    else
      Goto(w, t, Waiting(epoch, id))
      .(open := w.open[key := id], flights := w.flights[id := Flight(key.0, epoch, w.tick, Loading)])
  }

  function DoRecord(w: World, id: nat, now: nat, victim: int): World
    requires id in w.flights && w.flights[id].stage.Ended?
  {
    var f := w.flights[id];
    var told :=
      match f.stage.result
      case Loaded(repositories) => AfterCaching(w.store, f.account, f.epoch, Access(repositories, f.began), now, victim)
      case Rejected => AfterInvalidationIfCurrent(w.store, f.account, f.epoch)
      case LoadFailed => AfterFinish(w.store, f.account, f.epoch, now);
    w.(store := told, flights := w.flights[id := f.(stage := Recorded(f.stage.result))])
  }

  function DoReceive(w: World, t: nat, epoch: nat, f: Flight): World
    requires t in w.callers && f.stage.Delivered?
  {
    match f.stage.result
    case Loaded(repositories) => Goto(w, t, Checking(epoch, Access(repositories, f.began)))
    case Rejected => Goto(w, t, GaveUp)
    case LoadFailed => Goto(w, t, GaveUp)
  }

  predicate At(w: World, t: nat, enabled: PC -> bool) {
    t in w.callers && enabled(w.callers[t].pc)
  }

  /** The event is not possible in this state; the step then leaves it alone. */
  predicate Blocked(w: World, e: Event) {
    match e
    case Request(t, _) => t in w.callers
    case Lookup(t, _, background) => !At(w, t, (pc: PC) => pc.Asking?) || background in w.callers
    case ReadEpoch(t) => !At(w, t, (pc: PC) => pc.ReadingEpoch?)
    case Join(t, _) => !At(w, t, (pc: PC) => pc.Joining?)
    case LoadEnds(id, _) => id !in w.flights || !w.flights[id].stage.Loading?
    case Record(id, _, victim) =>
      id !in w.flights || !w.flights[id].stage.Ended? ||
      (MustEvict(w.store, w.flights[id].account) && victim !in w.store.cache)
    case Deliver(id) => id !in w.flights || !w.flights[id].stage.Recorded?
    case Receive(t) =>
      !At(w, t, (pc: PC) => pc.Waiting?) || w.callers[t].pc.flight !in w.flights || !w.flights[w.callers[t].pc.flight].stage.Delivered?
    case CheckEpoch(t) => !At(w, t, (pc: PC) => pc.Checking?)
    case Cancel(t) => !At(w, t, (pc: PC) => pc.Waiting?)
    case InvalidateAccount(_) => false
  }

  function Act(w: World, e: Event): World
    requires !Blocked(w, e)
  {
    match e
    case Request(t, account) => w.(callers := w.callers[t := Caller(account, Asking)])
    case Lookup(t, now, background) => DoLookup(w, t, now, background)
    case ReadEpoch(t) => Goto(w, t, Joining(Epoch(w.store, w.callers[t].account)))
    case Join(t, flight) => DoJoin(w, t, w.callers[t].pc.epoch, flight)
    case LoadEnds(id, result) => w.(flights := w.flights[id := w.flights[id].(stage := Ended(result))])
    case Record(id, now, victim) => DoRecord(w, id, now, victim)
    case Deliver(id) =>
      var f := w.flights[id];
      w.(flights := w.flights[id := f.(stage := Delivered(f.stage.result))], open := w.open - {(f.account, f.epoch)})
    case Receive(t) => DoReceive(w, t, w.callers[t].pc.epoch, w.flights[w.callers[t].pc.flight])
    case CheckEpoch(t) =>
      var pc := w.callers[t].pc;
      if Epoch(w.store, w.callers[t].account) == pc.epoch then Goto(w, t, Returned(pc.access)) else Goto(w, t, ReadingEpoch)
    case Cancel(t) => Goto(w, t, GaveUp)
    case InvalidateAccount(account) => w.(store := AfterInvalidation(w.store, account))
  }

  function Step(w: World, e: Event): World {
    (if Blocked(w, e) then w else Act(w, e)).(tick := w.tick + 1)
  }

  function Exec(w: World, es: seq<Event>): World
    decreases |es|
  {
    if es == [] then w else Exec(Step(w, es[0]), es[1..])
  }

  // ---- Invariant --------------------------------------------------------------------

  predicate CallerOk(w: World, c: Caller) {
    match c.pc
    case Joining(epoch) => epoch <= Epoch(w.store, c.account)
    case Waiting(epoch, id) =>
      epoch <= Epoch(w.store, c.account) && id in w.flights && w.flights[id].account == c.account && w.flights[id].epoch == epoch
    case Checking(epoch, _) => epoch <= Epoch(w.store, c.account)
    case _ => true
  }

  /** A key the group hands out belongs to the one call for that account and epoch
      that has not been delivered. */
  predicate OpenOk(w: World) {
    && (forall key :: key in w.open ==>
          && w.open[key] in w.flights && !w.flights[w.open[key]].stage.Delivered?
          && key == (w.flights[w.open[key]].account, w.flights[w.open[key]].epoch))
    && (forall id :: id in w.flights ==>
          (w.flights[id].stage.Delivered? || ((w.flights[id].account, w.flights[id].epoch) in w.open
                                              && w.open[(w.flights[id].account, w.flights[id].epoch)] == id)))
  }

  predicate Inv(w: World) {
    && Bounded(w.store)
    && OpenOk(w)
    && (forall t :: t in w.callers ==> CallerOk(w, w.callers[t]))
    && (forall id :: id in w.flights ==> w.flights[id].epoch <= Epoch(w.store, w.flights[id].account))
  }

  predicate FreshFlight(w: World, account: int, since: nat, f: Flight) {
    f.account == account && f.epoch == Epoch(w.store, account) ==> since <= f.began
  }

  predicate FreshCaller(w: World, account: int, since: nat, c: Caller) {
    c.account == account && c.pc.Checking? && c.pc.epoch == Epoch(w.store, account) ==> since <= c.pc.access.began
  }

  /** Nothing a request for `account` could still be given was loaded before step `since`. */
  predicate Fresh(w: World, account: int, since: nat) {
    && since <= w.tick
    && (account in w.store.cache ==> since <= w.store.cache[account].access.began)
    && (forall id :: id in w.flights ==> FreshFlight(w, account, since, w.flights[id]))
    && (forall t :: t in w.callers ==> FreshCaller(w, account, since, w.callers[t]))
  }

  lemma StoreStaysBounded(w: World, e: Event)
    requires Bounded(w.store)
    ensures Bounded(Step(w, e).store)
  {
    if !Blocked(w, e) {
      match e
      case Lookup(t, now, _) => LookupIsBounded(w.store, w.callers[t].account, 0, now);
      case Record(id, now, victim) =>
        var f := w.flights[id];
        LookupIsBounded(w.store, f.account, f.epoch, now);
        if f.stage.result.Loaded? {
          CachingIsBounded(w.store, f.account, f.epoch, Access(f.stage.result.repositories, f.began), now, victim);
        }
      case InvalidateAccount(account) => LookupIsBounded(w.store, account, 0, 0);
      case _ =>
    }
  }

  // ---- What one step does, seen from each part of the state -----------------------------

  ghost predicate EpochsGrow(w: World, w': World) {
    forall account :: Epoch(w.store, account) <= Epoch(w'.store, account)
  }

  /** A call keeps its key and the step it began at; a new one begins now, for an epoch already read. */
  predicate FlightsPersist(w: World, w': World) {
    && (forall id :: id in w.flights ==> id in w'.flights && w'.flights[id].(stage := w.flights[id].stage) == w.flights[id])
    && (forall id :: id in w'.flights && id !in w.flights ==>
          w'.flights[id].began == w.tick && w'.flights[id].epoch <= Epoch(w.store, w'.flights[id].account))
  }

  /** The moves of one caller. */
  predicate CallerMoves(w: World, w': World, from: Option<Caller>, to: Caller) {
    if from.None? then to.pc.Asking? || to.pc.ReadingEpoch?
    else
      from == Some(to) ||
      (from.value.account == to.account &&
       match from.value.pc
       case Asking =>
         to.pc.ReadingEpoch? ||
         (to.pc.Returned? && to.account in w.store.cache && to.pc.access == w.store.cache[to.account].access)
       case ReadingEpoch => to.pc == Joining(Epoch(w.store, to.account))
       case Joining(epoch) =>
         to.pc.Waiting? && to.pc.epoch == epoch && to.pc.flight in w'.flights &&
         w'.flights[to.pc.flight].account == to.account && w'.flights[to.pc.flight].epoch == epoch
       case Waiting(epoch, id) =>
         to.pc.GaveUp? ||
         (to.pc.Checking? && to.pc.epoch == epoch && id in w.flights && to.pc.access.began == w.flights[id].began)
       case Checking(epoch, access) =>
         to.pc.ReadingEpoch? || (to.pc == Returned(access) && Epoch(w.store, to.account) == epoch)
       case Returned(_) => false
       case GaveUp => false)
  }

  function CallerBefore(w: World, t: nat): Option<Caller> {
    if t in w.callers then Some(w.callers[t]) else None
  }

  lemma StepGrowsEpochs(w: World, e: Event)
    ensures EpochsGrow(w, Step(w, e))
  {
  }

  lemma StepKeepsFlights(w: World, e: Event)
    requires Inv(w)
    ensures FlightsPersist(w, Step(w, e))
  {
    if e.Join? && e.t in w.callers { assert CallerOk(w, w.callers[e.t]); }
  }

  lemma StepMovesCallers(w: World, e: Event, t: nat)
    requires Inv(w) && t in Step(w, e).callers
    ensures CallerMoves(w, Step(w, e), CallerBefore(w, t), Step(w, e).callers[t])
  {
  }

  lemma StepKeepsOpen(w: World, e: Event)
    requires Inv(w)
    ensures OpenOk(Step(w, e))
  {
    if !Blocked(w, e) {
      match e
      case Join(t, id) => JoinKeepsOpen(w, t, id);
      case Deliver(id) => DeliverKeepsOpen(w, id);
      case _ =>
    }
  }

  lemma JoinKeepsOpen(w: World, t: nat, id: nat)
    requires Inv(w) && !Blocked(w, Join(t, id))
    ensures OpenOk(Step(w, Join(t, id)))
  {
  }

  lemma DeliverKeepsOpen(w: World, id: nat)
    requires Inv(w) && !Blocked(w, Deliver(id))
    ensures OpenOk(Step(w, Deliver(id)))
  {
  }

  // ---- The invariant is kept -----------------------------------------------------------

  lemma CallerStaysOk(w: World, w': World, t: nat)
    requires t in w'.callers && CallerMoves(w, w', CallerBefore(w, t), w'.callers[t])
    requires EpochsGrow(w, w') && FlightsPersist(w, w') && (t in w.callers ==> CallerOk(w, w.callers[t]))
    ensures CallerOk(w', w'.callers[t])
  {
    var account := w'.callers[t].account;
    assert Epoch(w.store, account) <= Epoch(w'.store, account);
  }

  lemma StepKeepsInv(w: World, e: Event)
    requires Inv(w)
    ensures Inv(Step(w, e))
  {
    StoreStaysBounded(w, e);
    StepKeepsOpen(w, e);
    StepGrowsEpochs(w, e);
    StepKeepsFlights(w, e);
    forall t | t in Step(w, e).callers
      ensures CallerMoves(w, Step(w, e), CallerBefore(w, t), Step(w, e).callers[t])
    {
      StepMovesCallers(w, e, t);
    }
    InvFollows(w, Step(w, e));
  }

  lemma InvFollows(w: World, w': World)
    requires Inv(w) && Bounded(w'.store) && OpenOk(w') && EpochsGrow(w, w') && FlightsPersist(w, w')
    requires forall t :: t in w'.callers ==> CallerMoves(w, w', CallerBefore(w, t), w'.callers[t])
    ensures Inv(w')
  {
    forall t | t in w'.callers ensures CallerOk(w', w'.callers[t]) { CallerStaysOk(w, w', t); }
    forall id | id in w'.flights ensures w'.flights[id].epoch <= Epoch(w'.store, w'.flights[id].account) { FlightStaysOk(w, w', id); }
  }

  lemma FlightStaysOk(w: World, w': World, id: nat)
    requires id in w'.flights && EpochsGrow(w, w') && FlightsPersist(w, w')
    requires id in w.flights ==> w.flights[id].epoch <= Epoch(w.store, w.flights[id].account)
    ensures w'.flights[id].epoch <= Epoch(w'.store, w'.flights[id].account)
  {
    assert Epoch(w.store, w'.flights[id].account) <= Epoch(w'.store, w'.flights[id].account);
  }

  // ---- Freshness is kept ----------------------------------------------------------------

  lemma CacheStaysFresh(w: World, e: Event, account: int, since: nat)
    requires Inv(w) && Fresh(w, account, since)
    ensures account in Step(w, e).store.cache ==> since <= Step(w, e).store.cache[account].access.began
  {
    if e.Record? && !Blocked(w, e) { assert FreshFlight(w, account, since, w.flights[e.flight]); }
  }

  lemma CallerStaysFresh(w: World, w': World, t: nat, account: int, since: nat)
    requires Inv(w) && Fresh(w, account, since) && EpochsGrow(w, w')
    requires t in w'.callers && CallerMoves(w, w', CallerBefore(w, t), w'.callers[t])
    ensures FreshCaller(w', account, since, w'.callers[t])
    ensures w'.callers[t].account == account && w'.callers[t].pc.Returned? && !(t in w.callers && w.callers[t].pc.Returned?) ==>
              since <= w'.callers[t].pc.access.began
  {
    assert Epoch(w.store, account) <= Epoch(w'.store, account);
    if t in w.callers {
      var c := w.callers[t];
      assert CallerOk(w, c) && FreshCaller(w, account, since, c);
      if c.pc.Waiting? { assert FreshFlight(w, account, since, w.flights[c.pc.flight]); }
    }
  }

  lemma FlightStaysFresh(w: World, w': World, id: nat, account: int, since: nat)
    requires id in w'.flights && since <= w.tick && EpochsGrow(w, w') && FlightsPersist(w, w')
    requires id in w.flights ==> FreshFlight(w, account, since, w.flights[id]) && w.flights[id].epoch <= Epoch(w.store, w.flights[id].account)
    ensures FreshFlight(w', account, since, w'.flights[id])
  {
    assert Epoch(w.store, account) <= Epoch(w'.store, account);
  }

  lemma StepKeepsFresh(w: World, e: Event, account: int, since: nat)
    requires Inv(w) && Fresh(w, account, since)
    ensures Fresh(Step(w, e), account, since)
  {
    var w' := Step(w, e);
    StepGrowsEpochs(w, e);
    StepKeepsFlights(w, e);
    CacheStaysFresh(w, e, account, since);
    forall t | t in w'.callers ensures FreshCaller(w', account, since, w'.callers[t]) {
      StepMovesCallers(w, e, t);
      CallerStaysFresh(w, w', t, account, since);
    }
    forall id | id in w'.flights ensures FreshFlight(w', account, since, w'.flights[id]) {
      FlightStaysFresh(w, w', id, account, since);
    }
  }

  // ---- Runs ---------------------------------------------------------------------------

  lemma EmptyInv()
    ensures Inv(EMPTY)
  {
  }

  lemma {:induction false} ExecKeepsInv(w: World, es: seq<Event>)
    requires Inv(w)
    ensures Inv(Exec(w, es)) && Exec(w, es).tick == w.tick + |es|
    decreases |es|
  {
    if es != [] {
      StepKeepsInv(w, es[0]);
      ExecKeepsInv(Step(w, es[0]), es[1..]);
    }
  }

  lemma {:induction false} ExecKeepsFresh(w: World, es: seq<Event>, account: int, since: nat)
    requires Inv(w) && Fresh(w, account, since)
    ensures Fresh(Exec(w, es), account, since)
    decreases |es|
  {
    if es != [] {
      StepKeepsInv(w, es[0]);
      StepKeepsFresh(w, es[0], account, since);
      ExecKeepsFresh(Step(w, es[0]), es[1..], account, since);
    }
  }

  /** The event invalidates the account: an explicit invalidation, or a load under
      the current epoch whose token GitHub rejected. */
  predicate Invalidates(w: World, e: Event, account: int) {
    Epoch(w.store, account) != Epoch(Step(w, e).store, account)
  }

  /** An invalidation makes everything loaded so far unusable. */
  lemma InvalidationFreshens(w: World, e: Event, account: int)
    requires Inv(w) && Invalidates(w, e, account)
    ensures Fresh(Step(w, e), account, w.tick + 1)
  {
    var w' := Step(w, e);
    forall t | t in w'.callers ensures FreshCaller(w', account, w.tick + 1, w'.callers[t]) {
      if t in w.callers { assert CallerOk(w, w.callers[t]); }
    }
  }

  lemma {:induction false} ExecConcat(w: World, a: seq<Event>, b: seq<Event>)
    ensures Exec(w, a + b) == Exec(Exec(w, a), b)
    decreases |a|
  {
    if a == [] {
      assert a + b == b;
    } else {
      assert (a + b)[0] == a[0] && (a + b)[1..] == a[1..] + b;
      ExecConcat(Step(w, a[0]), a[1..], b);
    }
  }

  /** The access list `t` has been given, if the event gives it one. */
  function Given(w: World, e: Event, t: nat): Option<Access> {
    var w' := Step(w, e);
    if t in w'.callers && w'.callers[t].pc.Returned? && !(t in w.callers && w.callers[t].pc.Returned?)
    then Some(w'.callers[t].pc.access) else None
  }

  /** Once an account has been invalidated, explicitly or by a rejected token,
      whatever happened before and happens next, no request of it, begun before
      or after, is given an access list whose load began before the invalidation. */
  lemma NothingStaleAfterInvalidation(before: seq<Event>, invalidation: Event, account: int, after: seq<Event>, e: Event, t: nat)
    ensures
      var w := Exec(EMPTY, before + [invalidation] + after);
      Invalidates(Exec(EMPTY, before), invalidation, account) && Given(w, e, t).Some? && Step(w, e).callers[t].account == account ==>
        Given(w, e, t).value.began > |before|
  {
    var w0 := Exec(EMPTY, before);
    var w := Exec(EMPTY, before + [invalidation] + after);
    if Invalidates(w0, invalidation, account) && t in Step(w, e).callers {
      FreshLater(before, invalidation, account, after);
      StepGrowsEpochs(w, e);
      StepMovesCallers(w, e, t);
      CallerStaysFresh(w, Step(w, e), t, account, |before| + 1);
    }
  }

  lemma FreshLater(before: seq<Event>, invalidation: Event, account: int, after: seq<Event>)
    requires Invalidates(Exec(EMPTY, before), invalidation, account)
    ensures
      var w := Exec(EMPTY, before + [invalidation] + after);
      Inv(w) && Fresh(w, account, |before| + 1)
  {
    EmptyInv();
    var w0 := Exec(EMPTY, before);
    ExecKeepsInv(EMPTY, before);
    InvalidationFreshens(w0, invalidation, account);
    StepKeepsInv(w0, invalidation);
    var w1 := Step(w0, invalidation);
    ExecKeepsInv(w1, after);
    ExecKeepsFresh(w1, after, account, |before| + 1);
    ExecConcat(EMPTY, before + [invalidation], after);
    ExecConcat(EMPTY, before, [invalidation]);
    assert Exec(w0, [invalidation]) == w1 by {
      assert [invalidation][1..] == [];
      assert Exec(Step(w0, invalidation), []) == w1;
    }
  }

  /** Both kinds of invalidation are. */
  lemma WhoInvalidates(w: World, e: Event, account: int)
    ensures Invalidates(w, e, account) <==>
            || e == InvalidateAccount(account)
            || (e.Record? && !Blocked(w, e) && w.flights[e.flight].account == account && w.flights[e.flight].stage.result.Rejected?
                && w.flights[e.flight].epoch == Epoch(w.store, account))
  {
  }

  lemma OnlyRecordsCache(w: World, e: Event, account: int)
    ensures
      var w' := Step(w, e);
      account in w'.store.cache && !(account in w.store.cache && w.store.cache[account].access == w'.store.cache[account].access) ==>
        e.Record? && e.flight in w.flights && w.flights[e.flight].account == account
        && w.flights[e.flight].epoch == Epoch(w.store, account) == Epoch(w'.store, account)
  {
  }

  /** A load enters the cache only under the epoch it was started for, and the
      cache never holds more than its limit. */
  lemma OnlyCurrentLoadsAreCached(es: seq<Event>, e: Event, account: int)
    ensures
      var w := Exec(EMPTY, es);
      var w' := Step(w, e);
      && |w'.store.cache| <= MAX_ITEMS
      && (account in w'.store.cache && !(account in w.store.cache && w.store.cache[account].access == w'.store.cache[account].access) ==>
            e.Record? && e.flight in w.flights && w.flights[e.flight].account == account
            && w.flights[e.flight].epoch == Epoch(w.store, account) == Epoch(w'.store, account))
  {
    EmptyInv();
    ExecKeepsInv(EMPTY, es);
    StoreStaysBounded(Exec(EMPTY, es), e);
    OnlyRecordsCache(Exec(EMPTY, es), e, account);
  }

  function UnderWay(w: World): set<nat> {
    set id | id in w.flights && !w.flights[id].stage.Delivered?
  }

  /** At most one load per account and epoch is under way. */
  lemma SingleFlight(es: seq<Event>, f: nat, g: nat)
    ensures
      var w := Exec(EMPTY, es);
      f in UnderWay(w) && g in UnderWay(w) && w.flights[f].account == w.flights[g].account && w.flights[f].epoch == w.flights[g].epoch
      ==> f == g
  {
    EmptyInv();
    ExecKeepsInv(EMPTY, es);
  }
}
