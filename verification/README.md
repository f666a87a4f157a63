# Verified model of the ci-runner server

This project models the request lifecycle of a CI runner service in Dafny and
proves properties of it. The service queues one request per workflow job, starts
a sandboxed runner for it, follows it through webhooks, process exits, sweeps and
restarts, and serves a dashboard and terminals on the side. `dafny verify
dfyconfig.toml` checks everything.

The parts, hardest first:

- **Runner lifecycle** (`RunnerRows`, `RunnerCalls`, `RunnerMachine`,
  `RunnerInvariant`). A request is a row with a version. Every server call that
  moves it is a program cut at each point where another actor can intervene: lock
  and unlock, each store transaction, each answer from GitHub or the sandbox
  service. `RunnerMachine` interleaves any number of such calls, with
  nondeterministic answers, store faults, process restarts and profile edits, over
  the compare-and-swap store, the striped request mutexes and the admission mutex.
  On top of its invariant: concurrency limits (`RunnerCapacity`), lost-update
  freedom, who may leave Completed, retry budget and timestamps (`RunnerHistory`),
  runs in which Completed and the release of a lease are lost
  (`RunnerStaleFailure`, `RunnerLostRelease`), what a whole stop, start or exit
  call does to its request (`RunnerOutcomes`), which answers send each call which
  way and what it then writes (`RunnerTurns`, and on it `RunnerStarts`,
  `RunnerStartLegs`, `RunnerStops`, `RunnerExits`, `RunnerForces`, `RunnerMarks`,
  `RunnerRecoveries`, `RunnerReconciles`; `RunnerFailures` says what is retried and
  `RunnerQueue` who is claimed), mutual exclusion, deadlock freedom
  and termination (`RunnerLocks`), the conservation of sandboxes
  (`RunnerSandboxes`), and mismatch reconciliation among all other calls
  (`RunnerMismatches`). `RunnerStore` is the table as an object, one method per
  transaction, proved against the same row functions, with the convergence of
  mismatch reconciliation on its own. `Backoff` is the retry delay.
- **Restart recovery** (`Recovery`): the dispatch loop, its workers, and the
  fairness of the recomputed time limits.
- **Repository access** (`AccessCache`, `AccessRuns`, `AccessMarks`,
  `AccessMarkRun`, `AccessTimes`): the epoch-guarded cache, its single-flight loads,
  its refresh marks and the age of what it serves.
- **Paging** (`Paging`, on `Sorting`): batched listing and next links.
- **Terminals** (`Terminal`, `TerminalHub`): replay buffer, watchers, close-once.
- **Dashboard groups** (`JobGroups`), **cache scopes** (`CacheScopes`,
  `CachePolicies`, `CachePrefixes`) and **profiles** (`Labels`, `Profiles`).

`Common` and `Text` hold shared vocabulary.

## What the proofs found

- Completed is not final when the store fails. The configuration snapshot of
  `startRunner` re-reads its request without the lock and without looking at its
  status. If its write fails without another writer having moved the version, and
  `failStart` then cannot re-read the request either, the completed row is written
  back as failed or queued (`RunnerStaleFailure.CompletedCanFail` is such a run).
  `RunnerHistory.LeavingCompleted` proves that this and the mismatch requeue are
  the only ways out: the stale copy always carries the stage of the configuration
  snapshot. A request without a workflow job stays completed through a run if and
  only if no such write hits it.
- Releasing a lease does not advance the version, so a write may restore a lease
  that was given up meanwhile (`RunnerLostRelease.ReleaseCanBeLost`). It happens
  exactly when the stored lease is gone and the written copy still has the one it
  read. Nothing else is ever overwritten unseen, apart from timestamps that only
  the store had stamped.
- A process that dies forgets the sandboxes its calls have not placed yet; no
  other step loses one (`RunnerSandboxes.EverySandboxIsPlaced`).
- A stop leaves its request half-stopped exactly when the store refuses its last
  write after an earlier one succeeded (`RunnerOutcomes.StopsResolve`).
- What the sandbox is told about its cache need not be what its credentials reach.
  A configured prefix is trimmed twice, and of one with text in it a blank survives
  in front exactly when a slash is followed by a blank twice before that text, as in
  "/ / foo"; the storage policy trims once more (`CachePrefixes`).
- The mark that an access list is being refreshed can outlive the refresh, and then
  suppresses further ones until the entry expires: exactly when the last caller
  that was going to refresh joins a load that has been recorded but is still handed
  out (`AccessMarks.MarkOutlives`, with a run in `AccessMarkRun`).
- The backoff loop may run for any number of attempts: with a cap of at most 2^62
  nanoseconds it overflows only for a base of 2^62 or more, and then the second
  attempt is scheduled in the past.

## Model

| member | source | states |
|---|---|---|
| `RunnerCapacity.CapacityHolds` | internal/server/server_runner_lifecycle.go:336-381 | From an empty store, in every reachable state of every interleaving, creating + running requests never exceed MaxConcurrentRunners, nor a profile's own positive limit while that limit is not changed |
| `RunnerCapacity.GlobalCapacityHolds` | internal/server/server_runner_lifecycle.go:346-347 | The global limit holds whatever is done to the profiles |
| `RunnerCapacity.CountRoom` | internal/server/server_runner_lifecycle.go:336-381 | Passing the in-flight counts under the admission mutex leaves room for one more active row, globally and in the profile, up to the creating write |
| `RunnerCapacity.StepWithinLimits` | internal/server/server_runner_lifecycle.go:336-381 | Every single event keeps both limits and every claim about free room still pending |
| `RunnerHistory.NoLostUpdate` | internal/state/runner_requests.go:195-250 | A successful WriteState replaces exactly the row its caller read, apart from timestamps only the store stamped and from a lease that is the one read or released; it undoes a release exactly when the stored lease is gone and the written copy still has the one read; it adds one version and makes a status change its call site is allowed; a stale one changes nothing |
| `RunnerLostRelease.ReleaseCanBeLost` | internal/state/runner_requests.go:690-701 | The exception is real: a concrete run from an empty store after which the only request is held by nobody and the next write brings the released lease back |
| `RunnerHistory.SameVersionSameRow` | internal/server/server_runner_lifecycle.go:1003-1015 | Over any run, a row found again at the version it had is the row it was, but for a lease given up: looking at the version after an absence is enough |
| `RunnerHistory.RowOnlyMovesForward` | internal/state/runner_requests.go:195-250 | Rows never disappear; no event moves a version or retry count back, changes what a request was created with, or changes anything but the lease without a new version |
| `RunnerHistory.LeavingCompleted` | internal/server/server_loops.go:282-323 | A completed request leaves Completed if and only if the step is a mismatch requeue of a mismatched row or a failStart that writes its caller's copy because its re-read failed; that copy then carries the stage sandbox_config of the configuration snapshot |
| `RunnerHistory.CompletedExactly` | internal/server/server_runner_lifecycle.go:687-714 | A completed request without a workflow job is completed in every state of a run if and only if no failStart writes a stale copy to it during the run |
| `RunnerHistory.CompletedForever` | internal/server/server_runner_lifecycle.go:687-714 | So it stays completed for ever while the re-reads of that one request in failStart succeed, whatever fails for others |
| `RunnerHistory.CompletedInEveryRun` | internal/server/server_runner_lifecycle.go:687-714 | The if and only if, for every request and every continuation of every run from an empty store |
| `RunnerStaleFailure.CompletedCanFail` | internal/server/server_runner_lifecycle.go:399-412 | The exception is real: a concrete run from an empty store in which two store faults turn a completed request without a workflow job into a failed one |
| `RunnerHistory.ExecKeepsUniqueJobs` | internal/state/records.go:8 | In every reachable state at most one request belongs to a workflow job |
| `RunnerHistory.RetryBudget` | internal/server/server_runner_lifecycle.go:1402-1450 | Over a whole life, manual retries and requeues included, a request is given at most RetryMaxAttempts ordinary retries, and RetryCount bounds and records them |
| `RunnerHistory.StepRetries` | internal/server/server_runner_lifecycle.go:1593-1636 | No event lowers the retry count, none raises it beyond the maximum, and each persisted ordinary retry raises it by at least one |
| `RunnerHistory.StampedWhenReachable` | internal/server/server_loops.go:121-144 | In every reachable state a queued row carries no trace of an attempt and every other row its status's timestamp, so the sweeper's zero-time guards never excuse a timed-out request |
| `RunnerInvariant.ExecKeepsInv` | internal/server/server_runner_lifecycle.go:309-557 | Every state of every interleaving satisfies the invariant: rows stamped, pending writes justified, snapshots current or stale, mutexes held by exactly the calls relying on them |
| `RunnerInvariant.WrittenOk` | internal/state/runner_requests.go:195-250 | What a justified write stores continues the stored row: next version, same request, correct timestamps, retry count within the maximum |
| `RunnerStarts.OnlyQueuedJobsAreStarted` | internal/server/server_runner_lifecycle.go:559-582 | Over every run, from the start call's own answers: it takes in a sandbox for a request with a workflow job only after GitHub said that the job is queued, and completes a request without a sandbox only after GitHub said that the job is not |
| `RunnerStarts.StartsGoAsAnswered` | internal/server/server_runner_lifecycle.go:309-557 | Over every run a start call goes each way (creating, deferred, skipped, failed, preparing, holding a sandbox, cleaning up) if and only if it was given the answer for it: a count with or without room, GitHub's word on the job, a step that went wrong, a row no longer creating or a refused write |
| `RunnerStartLegs.StartsGoOn` | internal/server/server_runner_lifecycle.go:309-557 | And it reaches each next step, from its first read to its last write, if and only if the one before went well |
| `RunnerStarts.StartsWriteAsAnswered` | internal/server/server_runner_lifecycle.go:309-714 | Every write of a start call is made of what it was told: the sandbox it was given, the job GitHub named, five seconds from the count that was full, the judgement of the answer that failed |
| `RunnerStarts.FailedStartsAreRetried` | internal/server/server_runner_lifecycle.go:687-714 | A failed start leaves the stored row queued again if and only if the failing answer was one of capacity, or one that may pass with an attempt left, after now + min(base * 2^(n-1), max) for the count n it then carries; otherwise failed with no retry time |
| `RunnerFailures.FailureIsJudged` | internal/server/server_runner_lifecycle.go:1402-1450 | applyFailure in fields: exactly which failures are retried, with which count and wait, and what a failed row keeps |
| `RunnerFailures.StopIsJudged` | internal/server/server_runner_lifecycle.go:1593-1608 | A stop that failed waits for a retry if and only if the fault may pass and an attempt is left, otherwise it is failed |
| `RunnerFailures.CleanupIsJudged` | internal/server/server_runner_lifecycle.go:1610-1636 | A clean-up is retried if and only if the runner is busy, or the fault may pass and an attempt is left, with the documented wait |
| `RunnerFailures.SweepsRetry` | internal/server/server_runner_lifecycle.go:1548-1569 | Over every run a creation swept for taking too long is judged against the stored row as a fault that may pass |
| `RunnerStops.OnlyItsOwnJobStopsARunner` | internal/server/server_runner_lifecycle.go:1113-1140 | Over every run, unless the finished job names the runner, a stop writes nothing over an assignment to another job, nor for a runner that accepted a job unseen when the finished job is the one its request was made for |
| `RunnerStops.ItsOwnJobStopsARunner` | internal/server/server_runner_lifecycle.go:1524-1535 | A readable request that is not completed and that the job names, is assigned to, or that is assigned to none and accepted none unseen, is taken to stopping |
| `RunnerStops.StopsGoAsAnswered` | internal/server/server_runner_lifecycle.go:1113-1273 | Over every run a stop goes each of its ten ways if and only if it was given the answer for it |
| `RunnerStops.StopsWriteAsAnswered` | internal/server/server_runner_lifecycle.go:1113-1273 | Every write of a stop is made of the row it read first, the job it was called for and the answers since |
| `RunnerStops.StopsEnd` | internal/server/server_runner_lifecycle.go:1219-1273 | A stop whose sandbox and runner are gone leaves its request queued if and only if another job ran and its own may still be queued, failed if and only if no other job ran and an earlier stage had failed it, and completed otherwise |
| `RunnerExits.CleanExitsComplete` | internal/server/server_runner_lifecycle.go:716-805 | A clean exit that leaves neither sandbox nor runner behind completes the active row it read |
| `RunnerExits.ExitsGoAsAnswered` | internal/server/server_runner_lifecycle.go:716-861 | Over every run an exit goes each of its ways if and only if it was given the answer for it |
| `RunnerExits.ExitsWriteAsAnswered` | internal/server/server_runner_lifecycle.go:716-861 | What it writes is exactly determined by the row read just before: completed after a clean exit that left nothing behind, running while GitHub says busy, waiting for the clean-up, failed otherwise |
| `RunnerForces.ForcedStopsGoAsAnswered` | internal/server/server_runner_lifecycle.go:1279-1346 | The same for a forced stop, which begins if and only if the row is not final and still at the version looked at |
| `RunnerForces.ForcedStopsWriteAsAnswered` | internal/server/server_runner_lifecycle.go:1279-1346 | It fails its request under its own stage, unless the sandbox cannot be stopped or the runner not be removed |
| `RunnerMarks.NotesAreMade` | internal/server/server_runner_lifecycle.go:623-685 | A job in progress, an accepted job and a sweep write once if and only if there is something to note on the row they read, and then exactly that note |
| `RunnerRecoveries.RecoveriesGoAsAnswered` | internal/server/server_runner_lifecycle.go:882-1101 | Over every run a recovery stops, forces, reconnects, requeues or leaves a request if and only if the row and the answers of GitHub and the sandbox service call for it |
| `RunnerRecoveries.RecoveriesWriteAsAnswered` | internal/server/server_runner_lifecycle.go:1003-1101 | It attaches only the sandbox its attempt found, to a row still at the version of that attempt, and puts back only a creation found lost at that version |
| `RunnerReconciles.ReconcilersGoAsAnswered` | internal/server/server_loops.go:233-413 | Over every run the reconcilers go each of their ways if and only if they were given the answer for it |
| `RunnerReconciles.ReconcilersWriteAsAnswered` | internal/server/server_loops.go:233-413 | A mismatched request is queued again only after GitHub said its own job may be queued, only looked at after GitHub said it is not, and a failed one repaired only after GitHub said its job is completed |
| `RunnerQueue.ClaimsAreDue` | internal/state/runner_requests.go:631-688 | A claim takes a request if and only if its wait and lease are over and none such has waited longer; nobody else can claim it before the new lease expires |
| `RunnerQueue.OnlyNewRequestsEnter` | internal/state/runner_requests.go:77-177 | A request enters, queued or refused, if and only if its id and its workflow job are new |
| `RunnerQueue.ManualRetriesStartOver` | internal/state/runner_requests.go:703-786 | A manual retry sends back exactly what failed or waits for another attempt, due at once, with no trace of an attempt but their count |
| `RunnerQueue.LeasesAreGivenBack` | internal/state/runner_requests.go:690-701 | A lease is given back exactly by the server that holds it |
| `RunnerOutcomes.StopsResolve` | internal/server/server_runner_lifecycle.go:1113-1346 | A stop or forced stop, under every interleaving and store fault: until it is over it has written nothing but stamped stopping rows; then it has written nothing, left its request final, queued or with a retry time, or been refused its last write, and it leaves the request half-stopped if and only if that refusal followed an earlier write |
| `RunnerOutcomes.StartsAreOrderly` | internal/server/server_runner_lifecycle.go:309-557 | A start call, under every interleaving and store fault, changes its request at most three times and in order, creating, configuration snapshot, last change, and writes running only after its own creating |
| `RunnerOutcomes.ExitsCompleteOnlyCleanly` | internal/server/server_runner_lifecycle.go:716-805 | An exit callback, under every interleaving and store fault, writes at most once with success and completes its request only after a clean exit |
| `RunnerSandboxes.EverySandboxIsPlaced` | internal/server/server_runner_lifecycle.go:517-548 | In every run, restarts included, the sandboxes StartRunner returned to a call are, as multisets, those it still holds, adopted, cleaned up, or held when the process died; once it is over they are exactly those adopted or cleaned up if and only if it never held one at a restart |
| `RunnerSandboxes.LostExactly` | internal/server/server_runner_lifecycle.go:517-548 | A call loses a sandbox over a run exactly when it holds one at a restart |
| `RunnerSandboxes.SandboxForgotten` | internal/server/server_runner_lifecycle.go:1402-1450 | A recorded sandbox is dropped from its row exactly by a manual retry or by the writes of failStart, retryOrFail, the two mismatch requeues and an interrupted creation; every other event but an adoption keeps it |
| `RunnerSandboxes.AdoptionIsOneWrite` | internal/server/server_runner_lifecycle.go:536-548 | An adoption is a single write that takes the request from creating to running and records exactly that sandbox and process |
| `RunnerLocks.MutualExclusion` | internal/server/server_runner_lifecycle.go:1770-1778 | Two calls inside the lock of the same request are the same call |
| `RunnerLocks.DeadlockFree` | internal/server/server_runner_lifecycle.go:309-381 | While some call is unfinished, some call can move: the request mutexes and the admission mutex cannot deadlock |
| `RunnerLocks.StepsRunOut` | internal/server/server_runner_lifecycle.go:309-1346 | Each step a call takes brings it closer to its end |
| `RunnerLocks.StepsWithinRank` | internal/server/server_runner_lifecycle.go:309-1346 | Over any run, the steps a call takes until it ends or the process dies are at most its rank at the outset |
| `RunnerLocks.CallsAreShort` | internal/server/server_runner_lifecycle.go:309-1346 | Over any run, whatever else is interleaved, a claimed start call takes at most 19 steps of its own and every other call at most 15 |
| `Backoff.DoublingLoop` | internal/server/server_runner_lifecycle.go:1452-1465 | For every base and cap a 64-bit duration holds, the loop yields the cap if some doubling, as it wraps around, reaches it, and the smaller of the last doubling and the cap otherwise |
| `Backoff.WrappedIsDelay` | internal/server/server_runner_lifecycle.go:1452-1465 | For a base that is not negative that is the documented min(base * 2^(n-1), max) if and only if no doubling overflows before one reaches the cap, or a wrapped one happens to reach it |
| `Backoff.NothingWraps` | internal/server/server_runner_lifecycle.go:1452-1465 | Without such an overflow the loop yields what it would on unbounded integers |
| `Backoff.HugeBaseGoesBack` | internal/server/server_runner_lifecycle.go:1452-1465 | The exception is real: with a base of 2^62 ns or more and a cap that is not negative, the second attempt is scheduled in the past |
| `Backoff.LoopedOfNegative` | internal/server/server_runner_lifecycle.go:1452-1465 | For a negative base, without overflow, the loop yields the documented delay exactly when no doubling or the last one meets the cap |
| `Backoff.ExactBelow62Bits` | internal/server/server_runner_lifecycle.go:1452-1465 | With a cap of at most 2^62 ns a doubling overflows if and only if one is needed and the base is at least 2^62 |
| `Backoff.DelayIsMonotone` | internal/server/server_runner_lifecycle.go:1452-1465 | A later attempt never waits shorter |
| `RunnerStore.RunnerStore.CreateRequest` | internal/state/runner_requests.go:77-177 | Creates exactly when the id is new and no other request has the workflow job, and says otherwise which of the two it was; jobs stay unique |
| `RunnerStore.RunnerStore.WriteState` | internal/state/runner_requests.go:195-250 | Compare-and-swap: succeeds exactly on the version read, writes the caller's copy stamped and one version up, and nothing otherwise |
| `RunnerStore.RunnerStore.ClaimNextRunnable` | internal/state/runner_requests.go:631-688 | Claims an oldest runnable request exactly when one is runnable, changing only its lease and version |
| `RunnerStore.OldestExists` | internal/state/runner_requests.go:642-648 | Among any runnable requests one has the smallest queue time |
| `RunnerStore.RunnerStore.ReleaseLease` | internal/state/runner_requests.go:690-701 | Clears the lease if this worker holds it, without a new version |
| `RunnerStore.RunnerStore.RetryRequest` | internal/state/runner_requests.go:703-786 | Requeues failed and deferred-retryable requests, keeps the retry count, and refuses all others unchanged |
| `RunnerStore.RunnerStore.InFlightCount` | internal/state/runner_requests.go:609-621 | Counts every creating, running and stopping request once, so never fewer than the requests the concurrency limit is about |
| `RunnerStore.RunnerStore.InFlightCountForProfile` | internal/state/runner_requests.go:853-866 | The same for one profile |
| `RunnerStore.RunnerStore.ListMismatchedCompletedStates` | internal/state/runner_requests.go:318-342 | Lists distinct mismatched completed requests, all of them or the limit, the latest updated first, and none that was left out is later than one listed |
| `RunnerStore.RunnerStore.VisitMismatched` | internal/server/server_loops.go:239-279 | One visit settles a mismatched request whatever GitHub answers, unless its write fails, and touches nothing else |
| `RunnerStore.SettledIsSettled` | internal/server/server_loops.go:282-323 | Settling queues a request again as if it had never run if its own job may be queued, and otherwise only drops the record of the other job |
| `RunnerStore.RunnerStore.ReconcileMismatchedCompletedJobs` | internal/server/server_loops.go:233-280 | Visits the latest fifty; exactly those whose write succeeds leave the mismatched set; no other row changes |
| `RunnerStore.RunnerStore.ReconcileRepeatedly` | internal/server/server_loops.go:233-280 | With no new mismatches, each pass removes fifty, and the set is empty after k passes if and only if it had at most 50 k members |
| `RunnerMismatches.SettlingRemoves` | internal/server/server_loops.go:239-279 | In every interleaving a write of the mismatch reconciler finds its request mismatched and takes it, and no other, out of the mismatched set |
| `RunnerMismatches.EnteringIsAWrite` | internal/server/server_loops.go:233-280 | A request becomes mismatched only by a successful write that leaves it completed |
| `RunnerMismatches.MismatchesDrain` | internal/server/server_loops.go:233-280 | Over every run, among all other calls, the reconciler settles at most as many requests as were mismatched or became so, and what is left is bounded by the difference |
| `Recovery.Recover` | internal/server/server.go:257-337 | Either nothing is dispatched because the budget is spent, or every runner is attempted within the deadline, beside fewer than four others, with at least min(30 s, floor(B / ceil(n / w))) |
| `Recovery.FirstFreeHasShare` | internal/server/server.go:339-366 | When every worker is on schedule, the first free one still has a full share for every remaining wave |
| `Recovery.StaysOnSchedule` | internal/server/server.go:339-366 | A recovery that keeps to its limit leaves its worker on schedule and inside the deadline |
| `Recovery.LeavesEnough` | internal/server/server.go:357-361 | Spending at most an even share of what is left leaves the original share for every wave but one, integer division included |
| `AccessRuns.NothingStaleAfterInvalidation` | internal/server/server_user_authorization.go:54-86 | After any event that invalidates an account, an explicit invalidation or a load whose token was rejected, whatever ran before and runs next, no request of it is given an access list whose load began before that event |
| `AccessTimes.OnlyRecentListsAreServed` | internal/server/server_user_authorization.go:165-183 | Over every run a request is given a cached list if and only if it is not expired, and then the list was recorded less than thirty seconds before; it starts a refresh if and only if one is due and none marked |
| `AccessTimes.CacheIsDated` | internal/server/server_user_authorization.go:205-244 | Over every run each cached list was recorded by a load under the epoch then current, expires thirty seconds later, and is due for refresh twenty seconds later or five after a failed load |
| `AccessRuns.OnlyCurrentLoadsAreCached` | internal/server/server_user_authorization.go:205-225 | In every run a load enters the cache only under the epoch it was started for, and the cache never exceeds 512 entries |
| `AccessRuns.SingleFlight` | internal/server/server_user_authorization.go:57-71 | In every run at most one load per account and epoch is under way |
| `AccessRuns.ExecKeepsInv` | internal/server/server_user_authorization.go:44-86 | The step invariant: bounded cache, one open call per key, no caller ahead of its account's epoch |
| `AccessRuns.InvalidationFreshens` | internal/server/server_user_authorization.go:253-261 | An invalidation of either kind makes everything loaded so far unusable |
| `AccessMarks.MarkOutlives` | internal/server/server_user_authorization.go:165-244 | One step leaves a refresh mark that nobody is going to clear if and only if the last caller that was going to refresh joins a load already recorded but still handed out |
| `AccessMarks.MarksAreKept` | internal/server/server_user_authorization.go:165-244 | Over every run from an empty cache, every mark always has somebody who is going to clear it if and only if no such join happens |
| `AccessMarkRun.MarkCanOutlive` | internal/server/server_user_authorization.go:57-86 | The exception is real: a concrete run from an empty cache |
| `AccessCache.CachingIsBounded` | internal/server/server_user_authorization.go:214-223 | Evicting one entry before a new one keeps the cache within its limit |
| `AccessCache.UserRepositoryAccess.CachedForRequest` | internal/server/server_user_authorization.go:165-183 | Returns the entry if and only if it is not expired, asks for a refresh if and only if one is due and not marked, and drops an expired entry; all in the fields of the entry |
| `AccessCache.UserRepositoryAccess.CacheIfCurrent` | internal/server/server_user_authorization.go:205-225 | Caches exactly when the epoch is still current, evicting one entry if the cache is full |
| `AccessCache.UserRepositoryAccess.FinishRefresh` | internal/server/server_user_authorization.go:227-244 | Clears the refresh mark of a current entry and postpones the next refresh, never beyond expiry |
| `AccessCache.UserRepositoryAccess.Invalidate` | internal/server/server_user_authorization.go:253-261 | Starts a new epoch and drops the entry |
| `AccessCache.UserRepositoryAccess.InvalidateIfCurrent` | internal/server/server_user_authorization.go:263-274 | The same if the epoch is still current |
| `Paging.List` | internal/state/runner_requests.go:429-505 | The batched listing is exactly the slice of one global sort by (queued_at descending, id ascending) over all matching records, and the total is their number |
| `Paging.QueryBatches` | internal/state/runner_requests.go:507-526 | Batches are disjoint, never exceed the parameter limit, and together cover exactly what the access list grants |
| `Paging.Collect` | internal/state/runner_requests.go:528-541 | Groups by positive installation id, with folded, non-empty, distinct repository names |
| `Paging.UniqueLowerTrimmed` | internal/state/conversions.go:357-369 | Trimmed, lower-cased, non-empty names, each once |
| `Paging.MergedIsEnough` | internal/state/runner_requests.go:464-481 | The rows merged from the first k of each batch contain, in order, the first k of all matching rows |
| `Paging.RowsGrow` | internal/state/runner_requests.go:445-454 | Counts of disjoint batches add up |
| `Sorting.TopOfMerged` | internal/state/runner_requests.go:464-487 | Cutting every part to its first k before merging leaves the first k of the whole unchanged |
| `Sorting.SortSpec` | internal/state/runner_requests.go:482-487 | Sorting yields each element once, in order |
| `Text.PrecedesMeans` | internal/state/catalog.go:396 | The order of names is the dictionary's: a beginning comes first, otherwise the first difference decides |
| `Paging.CrawlReadsTheRest` | internal/server/server_auth_helpers.go:193-222 | From any accepted page, following next links reads the rest of the window once, in order, and never asks for a page the handler refuses |
| `Paging.CrawlReadsTheWindow` | internal/server/server_user_handlers.go:353-379 | Any accepted first request leads to exactly the first min(total, 500) rows |
| `Terminal.TerminalSession.Append` | internal/server/server_terminal.go:199-216 | The buffer stays a suffix of the stream with min(length, 64 KiB) to 128 KiB bytes; every watcher gets the chunk at once if and only if fewer than 32 wait in its channel; nothing is sent on a closed channel |
| `Terminal.AppendKeepsBuffer` | internal/server/server_terminal.go:204-208 | Appending and trimming keep the buffer a suffix within its bounds |
| `Terminal.TerminalSession.Subscribe` | internal/server/server_terminal.go:218-238 | The snapshot is the buffer; the new channel is open and watched, or closed if the session is |
| `Terminal.TerminalSession.Cancel` | internal/server/server_terminal.go:229-236 | Closes the channel of a watcher, and does nothing the second time |
| `Terminal.TerminalSession.CloseWatchers` | internal/server/server_terminal.go:240-252 | Closes every watcher's channel exactly once and marks the session closed |
| `Terminal.ContiguousView` | internal/server/server_terminal.go:199-238 | A subscriber that lost no chunk has seen one contiguous piece of the output, complete once its channel is drained |
| `Terminal.BroadcastKeepsLogs` | internal/server/server_terminal.go:209-214 | A broadcast keeps every subscriber's account of the output exact |
| `TerminalHub.TerminalsCloseOnce` | internal/server/server_terminal.go:98-197 | In every reachable state a terminal has been closed at most once, and exactly once if and only if its session left the hub and nobody is still closing it; by then it has no watchers |
| `TerminalHub.StepKeepsInv` | internal/server/server_terminal.go:98-197 | Every session is listed, being closed by one call, or closed |
| `TerminalHub.OnlyIdleOrToldSessionsLeave` | internal/server/server_terminal.go:120-197 | A session leaves the hub if and only if it is told to close, the hub closes, or an idle check finds nobody watching |
| `TerminalHub.WatchedSessionsStay` | internal/server/server_terminal.go:155-173 | Over every run, while somebody watches a session no idle check closes it |
| `JobGroups.RunnerJobGroups` | internal/server/server_terminal.go:741-806 | The groups partition the visible jobs, one group per key, newest update first |
| `JobGroups.GroupsPartition` | internal/server/server_terminal.go:741-806 | Every visible job is in exactly one group, as often as it is listed |
| `JobGroups.BelongTogether` | internal/server/server_terminal.go:749-768 | Two jobs share a group if and only if they share the repository and, of pull request, commit on a branch, workflow run and request, the first that either of them has |
| `JobGroups.LastTellerDecides` | internal/server/server_terminal.go:742-747 | A commit belongs to the pull request that the last job naming one for it names |
| `JobGroups.Finish` | internal/server/server_terminal.go:793-801 | Jobs ordered, UpdatedAt their maximum, run ids the strictly descending set of nonzero ones, commit and branch those of the last job that was newer than all before it and had one, else the first there is, current jobs nonempty, previous ones those with other ids, and with unique ids both together a permutation of the group |
| `JobGroups.LatestNames` | internal/server/server_terminal.go:770-786 | If the first job with the latest update has a commit (or branch), it is the group's |
| `JobGroups.OnlyPullRequestsSplit` | internal/server/server_terminal.go:819-932 | Every group but a pull request's is wholly current, has no previous jobs, and its commit and run ids are those of its key |
| `JobGroups.CurrentJobs` | internal/server/server_terminal.go:893-918 | Exactly the jobs of the group's commit, else of its latest run, else all; no fallback is reached |
| `JobGroups.CurrentAndPrevious` | internal/server/server_terminal.go:920-932 | With unique ids, dropping the current jobs by id leaves exactly the others |
| `JobGroups.OrderedSpec` | internal/server/server_terminal.go:882-891 | Ordering permutes the jobs: newest run, then latest update |
| `CacheScopes.GrantsAreDisjoint` | internal/server/cache_sts.go:131-180 | Grants for different paths of equally many components share no key |
| `CacheScopes.GrantsOverlap` | internal/server/cache_sts.go:131-180 | Two granted paths share a key exactly when they are equal or one lies below the other |
| `CachePolicies.PoliciesShare` | internal/server/cache_sts.go:103-181 | The holders of two issued policies can write a common object if and only if the policies are for one bucket, and for the same base prefix and scope or with the base prefix of one within the scope of the other |
| `CachePolicies.PoliciesAreIsolated` | internal/server/cache_sts.go:103-181 | Under base prefixes with equally many components, as one configured prefix gives all repositories, two policies that allow writing one object are for the same bucket, base prefix and scope; never for two numbered pull requests, or a pull request and a branch |
| `CachePolicies.WhoMayWrite` | internal/server/server_runner_lifecycle.go:77-182 | Exactly who may write where: a confirmed pull request against the repository to its own scope, a run of the repository itself by a trusted event to its branch's, nobody else, and nobody without a known default branch |
| `CachePolicies.WhatMayBeRead` | internal/server/server_runner_lifecycle.go:77-173 | Exactly what may be read: the own scope, for a pull request its base branch's, and the default branch's |
| `CachePolicies.SpellingsShareAScope` | internal/server/cache_sts.go:66-75 | A branch has one scope with or without refs/heads/ and surrounding blanks, and a nameless one that of "default" |
| `CacheScopes.GrantsBelow` | internal/server/cache_sts.go:268-281 | After validation a pattern grants exactly the keys below its path, no stray wildcard |
| `CacheScopes.PolicyGrants` | internal/server/cache_sts.go:103-181 | For every bucket and key: a policy allows writing an object if and only if it lies below the own scope, reading and listing if and only if below a scope it may read, in its own bucket only |
| `CacheScopes.BuildPolicy` | internal/server/cache_sts.go:103-181 | The policy exists if and only if bucket, prefix and scopes are well formed and something may be read; it names the distinct scopes in order, and for every object allows exactly what lies below them |
| `CacheScopes.DecidedPolicy` | internal/server/server_runner_lifecycle.go:77-173 | Every decision that grants anything yields a policy, and what it lets the runner write it also lets it read |
| `CacheScopes.DecisionIsSound` | internal/server/server_runner_lifecycle.go:77-173 | Every decision names only pull-request and branch scopes, and reads what it writes |
| `CacheScopes.ForksWriteNoBranch` | internal/server/server_runner_lifecycle.go:133-173 | A run whose head is not the repository itself never writes to a branch's scope |
| `CacheScopes.CollectUniqueScopes` | internal/server/server_runner_lifecycle.go:184-199 | Collects the distinct non-blank scopes in order |
| `CacheScopes.UniqueScopesSpec` | internal/server/server_runner_lifecycle.go:184-199 | Those scopes are distinct and are exactly the normalised non-blank inputs |
| `CacheScopes.ScopePrefixes` | internal/server/server_runner_lifecycle.go:201-211 | The injected prefixes, one per distinct scope |
| `CacheScopes.InjectedMatchPolicy` | internal/server/server_runner_lifecycle.go:201-211 | The injected prefixes equal the policy's list prefixes in order if and only if the base prefix has no blank or slash in front and no blank at the end |
| `CachePrefixes.ConfiguredPrefixAgrees` | internal/server/cache_service.go:35-45 | For every prefix the settings accept, what the sandbox is told to read and to write is what the policy grants if and only if the twice trimmed prefix does not start with a blank |
| `CachePrefixes.BlankSurvives` | internal/server/server_user_handlers.go:446-455 | For a typed prefix with some text that is so if and only if, in front of the text, a slash is followed by a blank at least twice |
| `CachePrefixes.AcceptedButUseless` | internal/server/server_runner_lifecycle.go:489-504 | The exception is real: "/ / foo" is accepted, and no key below the place the sandbox of "o/r" is told to write to is granted |
| `Labels.Match` | internal/labelutil/labels.go:5-19 | True exactly when every wanted label is offered, up to case and surrounding blanks |
| `Profiles.SelectMatchingProfile` | internal/state/catalog.go:379-400 | Nothing exactly when no enabled profile has required ⊆ job ⊆ labels, otherwise one of the highest priority, among those of the most labels, among those with the first name |
| `Profiles.ChoiceIsUnique` | internal/state/catalog.go:390-398 | With unique names the choice does not depend on the order of the input |
| `Profiles.ProfileStore.Reconcile` | internal/state/catalog.go:165-290 | Applies the whole catalogue, or nothing if any entry is invalid |
| `Profiles.ReconcileIsIdempotent` | internal/state/catalog.go:165-290 | For every table and catalogue a second run changes no row, audits nothing and reports the same conflicts |
| `Profiles.OnlyOwnRowsChange` | internal/state/catalog.go:165-290 | Rows are only added or upgraded: owner, name and operator controls of an existing row stay, its revision never falls, and whatever changed is what the catalogue's owner says |
| `Profiles.RunSettles` | internal/state/catalog.go:165-290 | One run settles every entry and reports exactly the conflicts of the table it leaves |
| `Profiles.AuditTellsOfChanges` | internal/state/catalog.go:165-290 | A run tells in the audit log of exactly the rows it adds or changes, and a changed row has risen in revision |
| `Profiles.ProfileStore.SaveIfUnchanged` | internal/state/catalog.go:75-151 | A conditional save succeeds only over the row that was read and moves its time on, so a second save based on the same read conflicts |

## Left out

- RunnerStore.RunnerStore.ReconcileMismatchedCompletedJobs: runs alone; among other calls the reconciler is covered by RunnerMismatches, which does not say which fifty a pass lists.
- RunnerCapacity.CapacityHolds: bounds creating and running requests, not stopping ones, which stopRunner reaches directly from queued and failed.
- The lifecycle machine waits for the documented delay; Backoff.WrappedIsDelay says when the loop yields it.
- Recovery.Recover: assumes that a free worker takes the next runner at once and that a recovery ends within its limit; cancellation of the context other than by its deadline is not modelled.
- AccessRuns.NothingStaleAfterInvalidation: epochs are unbounded, so the wrap-around of the 64-bit epoch counter is not modelled.
- AccessTimes.OnlyRecentListsAreServed: compares the times the events carry; that the clock does not run backwards is neither assumed nor used.
- RunnerStarts.StartsWriteAsAnswered: the class of the error of a refused configuration snapshot is the one chosen with the read before it.
- Paging.List: counts are unbounded, for tables of at most 2^63 - 1 rows.
- Terminal.TerminalSession.Append: the order in which a map of watchers is visited is arbitrary.
- JobGroups.RunnerJobGroups: titles and subtitles are not modelled, and group keys are structured values, so two keys that only their formatted text would confuse stay apart.
- CacheScopes.DecisionIsSound: the reason a decision reports is not modelled, nor are the GitHub lookups beyond their answers.
- CachePrefixes.ConfiguredPrefixAgrees: takes a repository name that ends neither in a blank nor in a slash, as GitHub's do; other base prefixes are covered by CacheScopes.InjectedMatchPolicy. CachePrefixes.BlankSurvives speaks of prefixes with some text; one of blanks and slashes only is covered by the condition on the trimmed prefix.
- CachePolicies.PoliciesAreIsolated: two branches whose hashes collide share a scope; nothing is assumed about the hash but its hexadecimal alphabet.
- Profiles.ProfileStore.Reconcile: one transaction at a time, so the branch for a row that changes between read and update is not reached; created_at and the unconditional save are not modelled.
- updated_at is a column of RunnerStore only, where it orders the mismatch listing.
- Row columns nothing branches on: last_attempt_at, error texts, error codes, workflow names and links; log lines and metrics.
- The classification of error texts by substring: replaced by the error classes permanent, transient, capacity and runner-busy.
- Request and runner names are taken as already trimmed and sanitised; text is ASCII for trimming and case folding, and SQL's LOWER is taken to agree with it.
- The choice of one of 64 mutexes by a hash of the id: any table from ids to mutexes.
- When calls start is over-approximated: the worker's slot limit, the sweeper's and reconciler's selection of requests and the single report of a process exit are not enforced, any such call may start at any time.
- ReadRequest and ReadState at the start of startRunner are one read.
- Store transactions are atomic; SQL dialects, migrations and encryption are not modelled. A failed store access has no effect.
- HTTP routing, JSON, sessions, OAuth, the GitHub client, the sandbox service, onboarding, configuration loading and the web interface.
- More than one server process on the same database.
