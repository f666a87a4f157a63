/** Restart recovery (Server.Recover): the active runners are handed, in order,
    to at most four workers, and each runner's time limit is computed afresh from
    the time and the number of runners left. Although every share is recomputed,
    nobody gets less than an even split made at the start would have given. */
module Recovery {
  import opened Common

  const MAX_CONCURRENT_RECOVERIES: nat := 4
  const MAX_SINGLE_RECOVERY: int := 30_000_000_000   // nanoseconds

  datatype Outcome =
    | Attempted(start: int, timeout: int, end: int)
    | Skipped

  /** How often `workers` workers must go round for `requests` runners. */
  function Waves(requests: int, workers: int): int
    requires workers > 0
  {
    (requests + workers - 1) / workers
  }

  /** The time left: the configured limit, the deadline, or whichever is nearer. */
  function Budget(limit: int, deadline: Option<int>, now: int): int {
    if deadline.None? then limit
    else if limit <= 0 || deadline.value - now < limit then deadline.value - now
    else limit
  }

  /** recoveryTimeoutPerRunner */
  function TimeoutPerRunner(limit: int, deadline: Option<int>, now: int, requests: int, workers: int): Option<int> {
    if requests <= 0 || workers <= 0 then None
    else
      var budget := Budget(limit, deadline, now);
      if budget <= 0 then if deadline.None? then Some(MAX_SINGLE_RECOVERY) else None
      else
        var timeout := budget / Waves(requests, workers);
        if timeout <= 0 then None else Some(Min(timeout, MAX_SINGLE_RECOVERY))
  }

  /** The nearest of the bounds there are. */
  function Nearest(limit: int, deadline: Option<int>, now: int): int {
    match deadline
    case None => limit
    case Some(end) => if limit > 0 then Min(limit, end - now) else end - now
  }

  /** What an even split of the whole budget, made once at the start, gives each runner. */
  function EvenShare(limit: int, deadline: Option<int>, now: int, requests: nat, workers: nat): int
    requires requests > 0 && workers > 0
  {
    var budget, waves := Nearest(limit, deadline, now), (requests + workers - 1) / workers;
    assert waves == Waves(requests, workers) > 0;
    if budget <= 0 && deadline.None? then 30_000_000_000 else Min(30_000_000_000, budget / waves)
  }

  // ---- Arithmetic ------------------------------------------------------------------

  /** One runner fewer needs no more waves; a whole wave of them needs one fewer. */
  lemma WavesShrink(r: int, s: int, w: int)
    requires w > 0 && r <= s
    ensures Waves(r, w) <= Waves(s, w)
    ensures Waves(r + w, w) == Waves(r, w) + 1
  {
    var a := r + w - 1;
    FloorShare(a, w, a / w);
    FloorShare(s + w - 1, w, a / w);
    FloorShare(a + w, w, a / w + 1);
    FloorShare(a, w, (a + w) / w - 1);
    FloorShare(a + w, w, (a + w) / w);
    assert (a / w + 1) * w == (a / w) * w + w;
    assert ((a + w) / w - 1) * w == ((a + w) / w) * w - w;
  }

  /** Whoever starts with `q` for every wave still to come and stays within an
      even share of what is left leaves `q` for every wave but one. */
  lemma LeavesEnough(x: int, k: int, q: int, used: int)
    requires k > 0 && x >= q * k && used <= x / k
    ensures x - used >= q * (k - 1)
  {
    FloorShare(x, k, q);
    FloorShare(x, k, x / k);
    MultiplyBoth(q, x / k, k - 1);
    assert (x / k) * (k - 1) == (x / k) * k - x / k;
  }

  /** The waves that are left when runner `i` of `n` is handed out. */
  function WavesFrom(n: int, i: int, w: int): int
    requires w > 0
  {
    Waves(n - i, w)
  }

  /** With a deadline, a worker that is free at `free` after runner `job` leaves
      at least `share` for every wave that starts after that runner's. */
  predicate OnSchedule(deadline: Option<int>, share: int, n: int, w: int, job: int, free: int)
    requires w > 0
  {
    deadline.Some? ==> deadline.value - free >= share * (WavesFrom(n, job, w) - 1)
  }

  /** The workers before runner `i` is handed out: `last` is the runner each worker
      had last (counting back from -1 for none) and `free` when it is done with it. */
  predicate Paced(deadline: Option<int>, share: int, n: int, last: seq<int>, free: seq<int>, i: int) {
    && 0 < |last| == |free|
    && Distinct(last)
    && (forall v :: 0 <= v < |last| ==> last[v] < i)
    && (forall v :: 0 <= v < |last| ==> OnSchedule(deadline, share, n, |last|, last[v], free[v]))
  }

  predicate IsFirst(free: seq<int>, first: nat) {
    first < |free| && forall v :: 0 <= v < |free| ==> free[first] <= free[v]
  }

  lemma StartsPaced(limit: int, deadline: Option<int>, now: int, n: nat, w: nat, share: int)
    requires 0 < w <= n && share > 0 && share * Waves(n, w) <= Budget(limit, deadline, now)
    ensures Paced(deadline, share, n, seq(w, v => v - w), seq(w, _ => now), 0)
  {
    var last, free := seq(w, v => v - w), seq(w, _ => now);
    forall v | 0 <= v < w ensures OnSchedule(deadline, share, n, w, last[v], free[v]) {
      WavesShrink(n - v, n, w);
      MultiplyBoth(WavesFrom(n, last[v], w) - 1, Waves(n, w), share);
      assert n - last[v] == n - v + w;
    }
  }

  /** Whenever every worker is on schedule, the first to be free still has a full share. */
  lemma FirstFreeHasShare(limit: int, deadline: Option<int>, now: int, n: int, share: int, last: seq<int>, free: seq<int>,
                          i: int, first: nat)
    requires Paced(deadline, share, n, last, free, i) && IsFirst(free, first) && 0 <= i < n
    requires share > 0 && share * Waves(n, |last|) <= Budget(limit, deadline, now)
    ensures share * Waves(n - i, |last|) <= Budget(limit, deadline, free[first])
    ensures
      var timeout := TimeoutPerRunner(limit, deadline, free[first], n - i, |last|);
      timeout.Some? && timeout.value >= Min(MAX_SINGLE_RECOVERY, share)
  {
    var w := |last|;
    var v := LowOne(last, i);
    WavesShrink(n - i, n - last[v] - w, w);
    WavesShrink(n - last[v] - w, n - last[v] - w, w);
    WavesShrink(n - i, n, w);
    WavesShrink(1, n - i, w);
    assert Waves(1, w) == 1;
    MultiplyBoth(Waves(n - i, w), WavesFrom(n, last[v], w) - 1, share);
    MultiplyBoth(Waves(n - i, w), Waves(n, w), share);
    FloorShare(Budget(limit, deadline, free[first]), Waves(n - i, w), share);
  }

  /** The runner handed out keeps its worker on schedule. */
  lemma StaysOnSchedule(limit: int, deadline: Option<int>, start: int, n: int, w: int, share: int, i: int, used: int)
    requires w > 0 && 0 <= i < n && share > 0
    requires share * Waves(n - i, w) <= Budget(limit, deadline, start)
    requires TimeoutPerRunner(limit, deadline, start, n - i, w).Some?
    requires used <= TimeoutPerRunner(limit, deadline, start, n - i, w).value
    ensures OnSchedule(deadline, share, n, w, i, start + used)
    ensures deadline.Some? ==> start + used <= deadline.value
  {
    if deadline.Some? {
      WavesShrink(1, n - i, w);
      assert Waves(1, w) == 1;
      var k := Waves(n - i, w);
      MultiplyBoth(1, k, share);
      var left := deadline.value - start;
      FloorShare(left, k, Budget(limit, deadline, start) / k);
      FloorShare(Budget(limit, deadline, start), k, Budget(limit, deadline, start) / k);
      LeavesEnough(left, k, share, used);
      MultiplyBoth(1, k, left / k);
    }
  }

  /** One hand-over, when the budget is not unlimited. */
  lemma HandOver(limit: int, deadline: Option<int>, now: int, n: int, share: int, last: seq<int>, free: seq<int>,
                 i: int, first: nat, wish: nat)
    requires Paced(deadline, share, n, last, free, i) && IsFirst(free, first) && 0 <= i < n
    requires share > 0 && share * Waves(n, |last|) <= Budget(limit, deadline, now)
    ensures
      var timeout := TimeoutPerRunner(limit, deadline, free[first], n - i, |last|);
      && timeout.Some? && timeout.value >= Min(MAX_SINGLE_RECOVERY, share)
      && var end := free[first] + Min(wish, timeout.value);
      && (deadline.Some? ==> free[first] < deadline.value && end <= deadline.value)
      && Paced(deadline, share, n, last[first := i], free[first := end], i + 1)
  {
    FirstFreeHasShare(limit, deadline, now, n, share, last, free, i, first);
    var timeout := TimeoutPerRunner(limit, deadline, free[first], n - i, |last|);
    StaysOnSchedule(limit, deadline, free[first], n, |last|, share, i, Min(wish, timeout.value));
  }

  // ---- The dispatch loop and its workers -----------------------------------------------

  /** The worker that comes to the job channel first. */
  method FirstFree(free: array<int>) returns (first: nat)
    requires free.Length > 0
    ensures IsFirst(free[..], first)
  {
    first := 0;
    for v := 1 to free.Length
      invariant first < free.Length && forall u :: 0 <= u < v ==> free[first] <= free[u]
    {
      if free[v] < free[first] { first := v; }
    }
  }

  predicate GetsShare(o: Outcome, limit: int, deadline: Option<int>, now: int, n: nat, w: nat, i: nat, wish: nat)
    requires i < n && w > 0
  {
    && o.Attempted?
    && now <= o.start
    && Some(o.timeout) == TimeoutPerRunner(limit, deadline, o.start, n - i, w)
    && o.timeout >= EvenShare(limit, deadline, now, n, w)
    && o.end == o.start + Min(wish, o.timeout)
    && (deadline.Some? ==> o.end <= deadline.value)
  }

  /** What is left, in the loop, of the guarantee for the workers. */
  ghost predicate LoopInv(limit: int, deadline: Option<int>, now: int, n: nat, last: seq<int>, free: seq<int>, i: int) {
    && 0 < |last| == |free|
    && 0 < Waves(n, |last|)
    && (forall v :: 0 <= v < |free| ==> now <= free[v])
    && (Budget(limit, deadline, now) > 0 ==> Paced(deadline, Budget(limit, deadline, now) / Waves(n, |last|), n, last, free, i))
  }

  lemma LoopStep(limit: int, deadline: Option<int>, now: int, n: nat, last: seq<int>, free: seq<int>, i: nat, first: nat, wish: nat)
    requires LoopInv(limit, deadline, now, n, last, free, i) && IsFirst(free, first) && i < n
    requires TimeoutPerRunner(limit, deadline, now, n, |last|).Some?
    ensures
      var start := free[first];
      var timeout := TimeoutPerRunner(limit, deadline, start, n - i, |last|);
      && timeout.Some?
      && (deadline.Some? ==> start < deadline.value)
      && var end := start + Min(wish, timeout.value);
      && GetsShare(Attempted(start, timeout.value, end), limit, deadline, now, n, |last|, i, wish)
      && LoopInv(limit, deadline, now, n, last[first := i], free[first := end], i + 1)
  {
    var budget := Budget(limit, deadline, now);
    if budget > 0 {
      WavesShrink(1, n, |last|);
      assert Waves(1, |last|) == 1;
      FloorShare(budget, Waves(n, |last|), budget / Waves(n, |last|));
      HandOver(limit, deadline, now, n, budget / Waves(n, |last|), last, free, i, first, wish);
    }
  }

  /** The earlier runners still being recovered at `start`. */
  ghost function StillRunning(earlier: seq<Outcome>, start: int): set<int> {
    set k | 0 <= k < |earlier| && earlier[k].Attempted? && start < earlier[k].end
  }

  /** Every runner was attempted, and only a worker's latest can still be running. */
  ghost predicate Tracked(outcomes: seq<Outcome>, last: seq<int>, free: seq<int>) {
    && |last| == |free|
    && (forall k :: 0 <= k < |outcomes| ==> outcomes[k].Attempted?)
    && (forall v :: 0 <= v < |last| ==> last[v] < |outcomes|)
    && (forall v :: 0 <= v < |last| && 0 <= last[v] ==> outcomes[last[v]].end == free[v])
    && (forall k, v :: 0 <= k < |outcomes| && k !in last && 0 <= v < |free| ==> outcomes[k].end <= free[v])
  }

  lemma StillRunningIsFew(outcomes: seq<Outcome>, last: seq<int>, free: seq<int>, first: nat)
    requires Tracked(outcomes, last, free) && IsFirst(free, first)
    ensures |StillRunning(outcomes, free[first])| < |last|
  {
    var others := last[..first] + last[first + 1..];
    SubsetSize(StillRunning(outcomes, free[first]), Elements(others));
    ElementsSize(others);
  }

  lemma TrackedNext(outcomes: seq<Outcome>, last: seq<int>, free: seq<int>, first: nat, o: Outcome)
    requires Tracked(outcomes, last, free) && IsFirst(free, first)
    requires o.Attempted? && free[first] <= o.end
    ensures Tracked(outcomes + [o], last[first := |outcomes|], free[first := o.end])
  {
    var last' := last[first := |outcomes|];
    assert last'[first] == |outcomes|;
    forall k | 0 <= k < |outcomes| && k !in last' ensures k !in last || k == last[first] {
      assert forall u :: 0 <= u < |last| && u != first ==> last'[u] == last[u];
    }
  }

  /** Each runner got its share, next to fewer than `w` others. */
  ghost predicate AllServed(outcomes: seq<Outcome>, limit: int, deadline: Option<int>, now: int, w: nat, wishes: seq<nat>) {
    w == Min(MAX_CONCURRENT_RECOVERIES, |wishes|) && |outcomes| <= |wishes| &&
    forall i :: 0 <= i < |outcomes| ==>
      && GetsShare(outcomes[i], limit, deadline, now, |wishes|, w, i, wishes[i])
      && |StillRunning(outcomes[..i], outcomes[i].start)| < w
  }

  lemma ServedNext(outcomes: seq<Outcome>, limit: int, deadline: Option<int>, now: int, w: nat, wishes: seq<nat>, o: Outcome)
    requires AllServed(outcomes, limit, deadline, now, w, wishes) && |outcomes| < |wishes|
    requires GetsShare(o, limit, deadline, now, |wishes|, w, |outcomes|, wishes[|outcomes|])
    requires |StillRunning(outcomes, o.start)| < w
    ensures AllServed(outcomes + [o], limit, deadline, now, w, wishes)
  {
    var all := outcomes + [o];
    forall i | 0 <= i < |all| ensures |StillRunning(all[..i], all[i].start)| < w {
      assert all[..i] == if i < |outcomes| then outcomes[..i] else outcomes;
    }
  }

  /** Recover for the active runners 0, 1, ...; `wishes` is how long each
      recovery would take, and its time limit cuts it short. Either nothing is
      dispatched, because the budget is spent before the start, or every single
      runner is attempted: within the deadline, next to fewer than `w` others, and
      with no less than an even split of the initial budget. */
  method Recover(limit: int, deadline: Option<int>, now: int, wishes: seq<nat>) returns (dispatched: bool, outcomes: seq<Outcome>)
    ensures
      var n := |wishes|;
      var w := Min(MAX_CONCURRENT_RECOVERIES, n);
      && (dispatched <==> n == 0 || TimeoutPerRunner(limit, deadline, now, n, w).Some?)
      && |outcomes| == (if dispatched then n else 0)
      && AllServed(outcomes, limit, deadline, now, w, wishes)
  {
    var n := |wishes|;
    outcomes := [];
    if n == 0 { return true, []; }
    var w := Min(MAX_CONCURRENT_RECOVERIES, n);
    if TimeoutPerRunner(limit, deadline, now, n, w).None? { return false, []; }
    dispatched := true;
    var free := new int[w](_ => now);
    ghost var last := seq(w, v => v - w);
    LoopStart(limit, deadline, now, n, w);
    assert free[..] == seq(w, _ => now);
    var i := 0;
    while i < n
      invariant i <= n && |outcomes| == i && |last| == w
      invariant LoopInv(limit, deadline, now, n, last, free[..], i)
      invariant Tracked(outcomes, last, free[..])
      invariant AllServed(outcomes, limit, deadline, now, w, wishes)
    {
      var first := FirstFree(free);
      LoopStep(limit, deadline, now, n, last, free[..], i, first, wishes[i]);
      StillRunningIsFew(outcomes, last, free[..], first);
      var start := free[first];
      var timeout := TimeoutPerRunner(limit, deadline, start, n - i, w);
      var outcome := Skipped;
      if !(deadline.Some? && deadline.value <= start) && timeout.Some? {
        outcome := Attempted(start, timeout.value, start + Min(wishes[i], timeout.value));
        TrackedNext(outcomes, last, free[..], first, outcome);
        last := last[first := i];
        free[first] := outcome.end;
      }
      ServedNext(outcomes, limit, deadline, now, w, wishes, outcome);
      outcomes := outcomes + [outcome];
      i := i + 1;
    }
  }

  lemma LoopStart(limit: int, deadline: Option<int>, now: int, n: nat, w: nat)
    requires 0 < w <= n && TimeoutPerRunner(limit, deadline, now, n, w).Some?
    ensures LoopInv(limit, deadline, now, n, seq(w, v => v - w), seq(w, _ => now), 0)
    ensures Tracked([], seq(w, v => v - w), seq(w, _ => now))
  {
    WavesShrink(1, n, w);
    assert Waves(1, w) == 1;
    var budget := Budget(limit, deadline, now);
    if budget > 0 {
      FloorShare(budget, Waves(n, w), budget / Waves(n, w));
      StartsPaced(limit, deadline, now, n, w, budget / Waves(n, w));
    }
  }
}
