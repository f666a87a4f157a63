/** The job groups of the user's dashboard (runnerJobGroups): visible jobs are
    gathered by pull request, commit, workflow run or request, and each group is
    split into its current and previous jobs. Titles are left out. */
module JobGroups {
  import opened Common
  import opened Sorting
  import Text

  datatype Job = Job(
    id: string,
    repository: string,
    sha: string,
    branch: string,
    run: int,
    pullRequest: int,
    updatedAt: int,
    failureStage: string,
    failureReason: string)

  datatype Key =
    | PullRequestKey(repository: string, number: int)
    | BranchKey(repository: string, branch: string, sha: string)
    | RunKey(repository: string, run: int)
    | ManualKey(repository: string, id: string)

  datatype Group = Group(
    key: Key,
    jobs: seq<Job>,
    updatedAt: int,
    runIds: seq<int>,
    sha: string,
    branch: string,
    current: seq<Job>,
    previous: seq<Job>)

  type PullRequests = map<(string, string), int>

  predicate Visible(job: Job) {
    !(job.failureStage == "admission" && job.failureReason == "profile_labels_not_matched")
  }

  /** The pull request some job of a repository and commit is known to belong to; the last one counts. */
  function KnownPullRequests(jobs: seq<Job>): PullRequests {
    if jobs == [] then map[]
    else
      var job := jobs[|jobs| - 1];
      var known := KnownPullRequests(jobs[..|jobs| - 1]);
      if job.repository != "" && job.sha != "" && job.pullRequest != 0 then known[(job.repository, job.sha) := job.pullRequest] else known
  }

  function KeyOf(prs: PullRequests, job: Job): Key {
    var repository := if job.repository == "" then "unknown/repository" else job.repository;
    var known := if job.sha != "" && (repository, job.sha) in prs then prs[(repository, job.sha)] else 0;
    var pr := if job.pullRequest != 0 then job.pullRequest else known;
    if pr != 0 then PullRequestKey(repository, pr)
    else if job.sha != "" then BranchKey(repository, if Text.Trim(job.branch) == "" then "detached" else job.branch, job.sha)
    else if job.run != 0 then RunKey(repository, job.run)
    else ManualKey(repository, job.id)
  }

  // ---- Which jobs belong together ------------------------------------------------------------

  function RepositoryOf(job: Job): string {
    if job.repository == "" then "unknown/repository" else job.repository
  }

  /** Job `i` tells which pull request the commit belongs to. */
  predicate TellsPull(jobs: seq<Job>, i: nat, repository: string, sha: string) {
    i < |jobs| && jobs[i].repository == repository != "" && jobs[i].sha == sha != "" && jobs[i].pullRequest != 0
  }

  /** The last job that tells decides. */
  ghost predicate PullOfCommit(jobs: seq<Job>, repository: string, sha: string, pull: int) {
    || (pull == 0 && forall i: nat :: !TellsPull(jobs, i, repository, sha))
    || (exists i: nat :: TellsPull(jobs, i, repository, sha) && jobs[i].pullRequest == pull && forall j: nat :: j > i ==> !TellsPull(jobs, j, repository, sha))
  }

  function KnownPull(prs: PullRequests, repository: string, sha: string): int {
    if (repository, sha) in prs then prs[(repository, sha)] else 0
  }

  lemma {:induction false} LastTellerDecides(jobs: seq<Job>, repository: string, sha: string)
    ensures PullOfCommit(jobs, repository, sha, KnownPull(KnownPullRequests(jobs), repository, sha))
  {
    if jobs != [] {
      var front, n := jobs[..|jobs| - 1], |jobs| - 1;
      LastTellerDecides(front, repository, sha);
      assert forall i: nat :: i < n ==> jobs[i] == front[i];
      assert forall i: nat :: i < n ==> (TellsPull(jobs, i, repository, sha) <==> TellsPull(front, i, repository, sha));
      if !TellsPull(jobs, n, repository, sha) {
        var pull := KnownPull(KnownPullRequests(front), repository, sha);
        if i: nat :| TellsPull(front, i, repository, sha) && front[i].pullRequest == pull && forall j: nat :: j > i ==> !TellsPull(front, j, repository, sha) {
          assert TellsPull(jobs, i, repository, sha);
        }
      }
    }
  }

  /** The pull request a job is counted to: its own, or failing that its commit's. */
  function PullOf(prs: PullRequests, job: Job): int {
    if job.pullRequest != 0 then job.pullRequest else if job.sha != "" then KnownPull(prs, RepositoryOf(job), job.sha) else 0
  }

  function BranchLabel(job: Job): string {
    if Text.Trim(job.branch) == "" then "detached" else job.branch
  }

  /** Two jobs share a group exactly if they share the repository and, of pull request,
      commit on a branch, workflow run and request, the first that either of them has. */
  lemma BelongTogether(prs: PullRequests, a: Job, b: Job)
    ensures KeyOf(prs, a) == KeyOf(prs, b) <==>
      && RepositoryOf(a) == RepositoryOf(b)
      && (if PullOf(prs, a) != 0 || PullOf(prs, b) != 0 then PullOf(prs, a) == PullOf(prs, b)
          else if a.sha != "" || b.sha != "" then a.sha == b.sha && BranchLabel(a) == BranchLabel(b)
          else if a.run != 0 || b.run != 0 then a.run == b.run
          else a.id == b.id)
  {
  }

  /** The visible jobs with this key, in the order they are listed. */
  function Members(jobs: seq<Job>, prs: PullRequests, key: Key): seq<Job> {
    Filter(jobs, (job: Job) => Visible(job) && KeyOf(prs, job) == key)
  }

  // ---- Building one group -----------------------------------------------------------------

  function Seed(key: Key, job: Job): Group {
    var commit := key.PullRequestKey? || key.BranchKey?;
    Group(key, [job], job.updatedAt, if job.run == 0 then [] else [job.run],
          if commit then job.sha else "", if commit then job.branch else "", [], [])
  }

  /** What the loop does to a group when it meets another of its jobs. */
  function Joined(g: Group, job: Job): Group {
    var newer := job.updatedAt > g.updatedAt;
    g.(jobs := g.jobs + [job],
       updatedAt := if newer then job.updatedAt else g.updatedAt,
       sha := if job.sha != "" && (newer || g.sha == "") then job.sha else g.sha,
       branch := if job.branch != "" && (newer || g.branch == "") then job.branch else g.branch,
       runIds := if job.run != 0 && job.run !in g.runIds then g.runIds + [job.run] else g.runIds)
  }

  datatype Tag = Commit | BranchName

  function Value(job: Job, tag: Tag): string {
    match tag
    case Commit => job.sha
    case BranchName => job.branch
  }

  /** A group keyed by a pull request or a commit takes its labels from its first
      job too, every other group only from the jobs that follow. */
  function FirstTagged(key: Key): nat {
    if key.PullRequestKey? || key.BranchKey? then 0 else 1
  }

  /** Job `i` was updated later than everything listed before it. */
  ghost predicate Rises(jobs: seq<Job>, i: nat)
    requires i < |jobs|
  {
    forall j :: 0 <= j < i ==> jobs[j].updatedAt < jobs[i].updatedAt
  }

  /** Job `i` has a label and is newer than all before it, or is the first with a label at all. */
  ghost predicate Names(jobs: seq<Job>, from: nat, tag: Tag, i: nat) {
    && from <= i < |jobs| && Value(jobs[i], tag) != ""
    && (Rises(jobs, i) || forall j :: from <= j < i ==> Value(jobs[j], tag) == "")
  }

  /** The value is the label of the last job that names the group; it is empty when none has one. */
  ghost predicate Named(value: string, jobs: seq<Job>, from: nat, tag: Tag) {
    || (value == "" && forall i :: from <= i < |jobs| ==> Value(jobs[i], tag) == "")
    || (exists i: nat :: Names(jobs, from, tag, i) && value == Value(jobs[i], tag) && NoneNames(jobs, from, tag, i + 1))
  }

  ghost predicate NoneNames(jobs: seq<Job>, from: nat, tag: Tag, after: nat) {
    forall i: nat :: i >= after ==> !Names(jobs, from, tag, i)
  }

  ghost predicate IsLatest(time: int, jobs: seq<Job>) {
    (forall job :: job in jobs ==> job.updatedAt <= time) && exists job :: job in jobs && job.updatedAt == time
  }

  ghost predicate AreRuns(runIds: seq<int>, jobs: seq<Job>) {
    forall r :: r in runIds <==> r != 0 && exists job :: job in jobs && job.run == r
  }

  /** `g` summarises the jobs it has been given. */
  ghost predicate Summarises(g: Group, jobs: seq<Job>) {
    && jobs != []
    && g.jobs == jobs
    && IsLatest(g.updatedAt, jobs)
    && Distinct(g.runIds) && AreRuns(g.runIds, jobs)
    && Named(g.sha, jobs, FirstTagged(g.key), Commit)
    && Named(g.branch, jobs, FirstTagged(g.key), BranchName)
  }

  lemma SeedSummarises(key: Key, job: Job)
    ensures Summarises(Seed(key, job), [job])
  {
    assert job in [job];
    SeedNamed(key, job, Commit);
    SeedNamed(key, job, BranchName);
  }

  lemma SeedNamed(key: Key, job: Job, tag: Tag)
    ensures Named(if FirstTagged(key) == 0 then Value(job, tag) else "", [job], FirstTagged(key), tag)
  {
    if FirstTagged(key) == 0 && Value(job, tag) != "" { assert Names([job], 0, tag, 0) && NoneNames([job], 0, tag, 1); }
  }

  /** One more job: it names the group when it has a label and is newer, or when nothing named it yet. */
  lemma JoinedNamed(value: string, latest: int, jobs: seq<Job>, from: nat, tag: Tag, job: Job)
    requires jobs != [] && from <= |jobs| && Named(value, jobs, from, tag)
    requires IsLatest(latest, jobs)
    ensures
      var own := Value(job, tag);
      Named(if own != "" && (job.updatedAt > latest || value == "") then own else value, jobs + [job], from, tag)
  {
    var all, own, n := jobs + [job], Value(job, tag), |jobs|;
    LastRises(jobs, latest, job);
    forall i: nat | i < n ensures Names(all, from, tag, i) <==> Names(jobs, from, tag, i) { EarlierNames(jobs, from, tag, job, i); }
    if own != "" && (job.updatedAt > latest || value == "") {
      assert value == "" ==> forall i :: from <= i < n ==> Value(jobs[i], tag) == "";
      assert Names(all, from, tag, n) && NoneNames(all, from, tag, n + 1);
    } else if value != "" {
      var i: nat :| Names(jobs, from, tag, i) && value == Value(jobs[i], tag) && NoneNames(jobs, from, tag, i + 1);
      assert all[i] == jobs[i] && !Names(all, from, tag, n);
      assert Names(all, from, tag, i) && NoneNames(all, from, tag, i + 1);
    }
  }

  lemma LastRises(jobs: seq<Job>, latest: int, job: Job)
    requires IsLatest(latest, jobs)
    ensures Rises(jobs + [job], |jobs|) <==> job.updatedAt > latest
  {
    var all := jobs + [job];
    var other :| other in jobs && other.updatedAt == latest;
    var i :| 0 <= i < |jobs| && jobs[i] == other;
    assert all[i] == other;
  }

  lemma EarlierNames(jobs: seq<Job>, from: nat, tag: Tag, job: Job, i: nat)
    requires i < |jobs|
    ensures Names(jobs + [job], from, tag, i) <==> Names(jobs, from, tag, i)
  {
    assert forall j :: 0 <= j < |jobs| ==> (jobs + [job])[j] == jobs[j];
  }

  lemma JoinedRuns(runIds: seq<int>, jobs: seq<Job>, job: Job)
    requires Distinct(runIds) && AreRuns(runIds, jobs)
    ensures
      var all, runs := jobs + [job], if job.run != 0 && job.run !in runIds then runIds + [job.run] else runIds;
      Distinct(runs) && AreRuns(runs, all)
  {
    var all := jobs + [job];
    var runs := if job.run != 0 && job.run !in runIds then runIds + [job.run] else runIds;
    assert forall other :: other in all <==> other in jobs || other == job;
    assert forall r :: r in runs <==> r in runIds || (r == job.run && r != 0);
    forall r ensures r in runs <==> r != 0 && exists other :: other in all && other.run == r {
      if r in runIds { var other :| other in jobs && other.run == r; assert other in all; }
    }
  }

  lemma JoinedLatest(latest: int, jobs: seq<Job>, job: Job)
    requires IsLatest(latest, jobs)
    ensures IsLatest(if job.updatedAt > latest then job.updatedAt else latest, jobs + [job])
  {
    var all := jobs + [job];
    var other :| other in jobs && other.updatedAt == latest;
    assert job in all && other in all;
  }

  lemma JoinedSummarises(g: Group, jobs: seq<Job>, job: Job)
    requires Summarises(g, jobs)
    ensures Summarises(Joined(g, job), jobs + [job])
  {
    JoinedLatest(g.updatedAt, jobs, job);
    JoinedRuns(g.runIds, jobs, job);
    JoinedNamed(g.sha, g.updatedAt, jobs, FirstTagged(g.key), Commit, job);
    JoinedNamed(g.branch, g.updatedAt, jobs, FirstTagged(g.key), BranchName, job);
  }

  // ---- Gathering ---------------------------------------------------------------------------

  function After(groups: map<Key, Group>, job: Job, key: Key): map<Key, Group> {
    groups[key := if key in groups then Joined(groups[key], job) else Seed(key, job)]
  }

  ghost predicate GroupOk(groups: map<Key, Group>, key: Key, members: seq<Job>) {
    && (key in groups <==> members != [])
    && (key in groups ==> groups[key].key == key && Summarises(groups[key], members))
  }

  /** The groups after the first jobs: one per key met so far. */
  ghost predicate Gathered(groups: map<Key, Group>, jobs: seq<Job>, prs: PullRequests) {
    forall key :: GroupOk(groups, key, Members(jobs, prs, key))
  }

  lemma MembersSnoc(jobs: seq<Job>, job: Job, prs: PullRequests, key: Key)
    ensures Members(jobs + [job], prs, key) == Members(jobs, prs, key) + (if Visible(job) && KeyOf(prs, job) == key then [job] else [])
  {
    FilterSnoc(jobs, job, (j: Job) => Visible(j) && KeyOf(prs, j) == key);
  }

  lemma AfterOk(groups: map<Key, Group>, members: seq<Job>, job: Job, key: Key)
    requires GroupOk(groups, key, members)
    ensures GroupOk(After(groups, job, key), key, members + [job])
  {
    if key in groups { JoinedSummarises(groups[key], members, job); }
    else {
      SeedSummarises(key, job);
      assert members + [job] == [job];
    }
  }

  lemma GatheredNext(groups: map<Key, Group>, jobs: seq<Job>, job: Job, prs: PullRequests)
    requires Gathered(groups, jobs, prs)
    ensures Gathered(if Visible(job) then After(groups, job, KeyOf(prs, job)) else groups, jobs + [job], prs)
  {
    var groups' := if Visible(job) then After(groups, job, KeyOf(prs, job)) else groups;
    forall key ensures GroupOk(groups', key, Members(jobs + [job], prs, key)) {
      MembersSnoc(jobs, job, prs, key);
      assert GroupOk(groups, key, Members(jobs, prs, key));
      if Visible(job) && KeyOf(prs, job) == key {
        AfterOk(groups, Members(jobs, prs, key), job, key);
      }
    }
  }

  method Gather(jobs: seq<Job>, prs: PullRequests) returns (groups: map<Key, Group>)
    ensures Gathered(groups, jobs, prs)
  {
    groups := map[];
    for i := 0 to |jobs|
      invariant Gathered(groups, jobs[..i], prs)
    {
      var job := jobs[i];
      assert jobs[..i + 1] == jobs[..i] + [job];
      GatheredNext(groups, jobs[..i], job, prs);
      if Visible(job) {
        var key := KeyOf(prs, job);
        groups := groups[key := if key in groups then Joined(groups[key], job) else Seed(key, job)];
      }
    }
    assert jobs[..|jobs|] == jobs;
  }

  method PullRequestsByCommit(jobs: seq<Job>) returns (prs: PullRequests)
    ensures prs == KnownPullRequests(jobs)
  {
    prs := map[];
    for i := 0 to |jobs|
      invariant prs == KnownPullRequests(jobs[..i])
    {
      assert jobs[..i + 1][..i] == jobs[..i];
      if jobs[i].repository != "" && jobs[i].sha != "" && jobs[i].pullRequest != 0 {
        prs := prs[(jobs[i].repository, jobs[i].sha) := jobs[i].pullRequest];
      }
    }
    assert jobs[..|jobs|] == jobs;
  }

  // ---- Ordering a group's jobs and run ids ---------------------------------------------------

  predicate ComesFirst(a: Job, b: Job) {
    a.run > b.run || (a.run == b.run && a.updatedAt > b.updatedAt)
  }

  /** Stable insertion: behind everything that does not come strictly later. */
  function Inserted(sorted: seq<Job>, job: Job): seq<Job> {
    if sorted == [] then [job]
    else if ComesFirst(job, sorted[|sorted| - 1]) then Inserted(sorted[..|sorted| - 1], job) + [sorted[|sorted| - 1]]
    else sorted + [job]
  }

  /** orderRunnerJobs: newest run first, then latest update first, otherwise as listed. */
  function Ordered(jobs: seq<Job>): seq<Job> {
    if jobs == [] then [] else Inserted(Ordered(jobs[..|jobs| - 1]), jobs[|jobs| - 1])
  }

  ghost predicate InOrder(jobs: seq<Job>) {
    forall i, j :: 0 <= i < j < |jobs| ==> jobs[i].run > jobs[j].run || (jobs[i].run == jobs[j].run && jobs[i].updatedAt >= jobs[j].updatedAt)
  }

  lemma {:induction false} InsertedKeeps(sorted: seq<Job>, job: Job)
    ensures multiset(Inserted(sorted, job)) == multiset(sorted) + multiset{job}
  {
    if sorted != [] && ComesFirst(job, sorted[|sorted| - 1]) {
      InsertedKeeps(sorted[..|sorted| - 1], job);
      assert sorted == sorted[..|sorted| - 1] + [sorted[|sorted| - 1]];
    }
  }

  lemma SameMembers(a: seq<Job>, b: seq<Job>, job: Job)
    requires multiset(a) == multiset(b) + multiset{job}
    ensures forall x :: x in a ==> x in b || x == job
  {
    forall x | x in a ensures x in b || x == job {
      assert x in multiset(a);
    }
  }

  lemma {:induction false} InsertedSpec(sorted: seq<Job>, job: Job)
    requires InOrder(sorted)
    ensures InOrder(Inserted(sorted, job)) && multiset(Inserted(sorted, job)) == multiset(sorted) + multiset{job}
  {
    InsertedKeeps(sorted, job);
    if sorted != [] {
      var front, last := sorted[..|sorted| - 1], sorted[|sorted| - 1];
      assert forall x :: x in front ==> !ComesFirst(last, x);
      if ComesFirst(job, last) {
        InsertedSpec(front, job);
        SameMembers(Inserted(front, job), front, job);
        InOrderSnoc(Inserted(front, job), last);
      } else {
        assert forall x :: x in sorted ==> !ComesFirst(job, x);
        InOrderSnoc(sorted, job);
      }
    }
  }

  lemma InOrderSnoc(jobs: seq<Job>, job: Job)
    requires InOrder(jobs) && forall x :: x in jobs ==> !ComesFirst(job, x)
    ensures InOrder(jobs + [job])
  {
    assert forall i :: 0 <= i < |jobs| ==> jobs[i] in jobs && !ComesFirst(job, jobs[i]);
  }

  lemma {:induction false} OrderedSpec(jobs: seq<Job>)
    ensures InOrder(Ordered(jobs)) && multiset(Ordered(jobs)) == multiset(jobs)
  {
    if jobs != [] {
      var front, last := jobs[..|jobs| - 1], jobs[|jobs| - 1];
      OrderedSpec(front);
      InsertedSpec(Ordered(front), last);
      assert Ordered(jobs) == Inserted(Ordered(front), last);
      assert multiset(jobs) == multiset(front) + multiset{last} by { assert jobs == front + [last]; }
    }
  }

  // ---- Current and previous jobs --------------------------------------------------------------

  /** The jobs of the group's commit, failing that of its latest run, failing that all. */
  predicate IsCurrent(g: Group, job: Job) {
    if g.sha != "" then job.sha == g.sha
    else if g.runIds != [] then job.run == g.runIds[0]
    else true
  }

  lemma FilterAll(jobs: seq<Job>, p: Job -> bool)
    requires forall job :: job in jobs ==> p(job)
    ensures Filter(jobs, p) == jobs
  {
    if jobs != [] {
      FilterAll(jobs[..|jobs| - 1], p);
      assert jobs == jobs[..|jobs| - 1] + [jobs[|jobs| - 1]];
    }
  }

  lemma {:induction false} FilterSame(jobs: seq<Job>, p: Job -> bool, q: Job -> bool)
    requires forall job :: job in jobs ==> p(job) == q(job)
    ensures Filter(jobs, p) == Filter(jobs, q)
  {
    if jobs != [] { FilterSame(jobs[..|jobs| - 1], p, q); }
  }

  method Select(jobs: seq<Job>, p: Job -> bool) returns (selected: seq<Job>)
    ensures selected == Filter(jobs, p)
  {
    selected := [];
    for i := 0 to |jobs|
      invariant selected == Filter(jobs[..i], p)
    {
      assert jobs[..i + 1] == jobs[..i] + [jobs[i]];
      FilterSnoc(jobs[..i], jobs[i], p);
      if p(jobs[i]) { selected := selected + [jobs[i]]; }
    }
    assert jobs[..|jobs|] == jobs;
  }

  /** currentRunnerGroupJobs; for a group that summarises its jobs no fallback is ever taken. */
  method CurrentJobs(g: Group) returns (current: seq<Job>)
    requires g.jobs != []
    requires g.sha != "" ==> exists job :: job in g.jobs && job.sha == g.sha
    requires g.runIds != [] ==> exists job :: job in g.jobs && job.run == g.runIds[0]
    ensures current == Filter(g.jobs, (job: Job) => IsCurrent(g, job)) && current != []
  {
    FilterMembers(g.jobs, (job: Job) => IsCurrent(g, job));
    if g.sha != "" {
      current := Select(g.jobs, (job: Job) => job.sha == g.sha);
      FilterSame(g.jobs, (job: Job) => job.sha == g.sha, (job: Job) => IsCurrent(g, job));
      if |current| > 0 { return; }
    }
    if |g.runIds| > 0 {
      current := Select(g.jobs, (job: Job) => job.run == g.runIds[0]);
      FilterSame(g.jobs, (job: Job) => job.run == g.runIds[0], (job: Job) => IsCurrent(g, job));
      if |current| > 0 { return; }
    }
    current := g.jobs;
    FilterAll(g.jobs, (job: Job) => IsCurrent(g, job));
  }

  method PreviousJobs(jobs: seq<Job>, current: seq<Job>) returns (previous: seq<Job>)
    ensures previous == Filter(jobs, (job: Job) => job.id !in Ids(current))
  {
    var currentIds: set<string> := {};
    for i := 0 to |current|
      invariant currentIds == Ids(current[..i])
    {
      assert current[..i + 1] == current[..i] + [current[i]];
      currentIds := currentIds + {current[i].id};
    }
    assert current[..|current|] == current;
    previous := Select(jobs, (job: Job) => job.id !in currentIds);
  }

  function Ids(jobs: seq<Job>): set<string> {
    set job | job in jobs :: job.id
  }

  ghost predicate UniqueIds(jobs: seq<Job>) {
    forall a, b :: a in jobs && b in jobs && a.id == b.id ==> a == b
  }

  lemma {:induction false} FilterSplits(jobs: seq<Job>, whole: Job -> bool, p: Job -> bool, q: Job -> bool)
    requires forall job :: job in jobs ==> (whole(job) <==> p(job) || q(job)) && !(p(job) && q(job))
    ensures multiset(Filter(jobs, whole)) == multiset(Filter(jobs, p)) + multiset(Filter(jobs, q))
  {
    if jobs != [] {
      var front, last := jobs[..|jobs| - 1], jobs[|jobs| - 1];
      assert jobs == front + [last];
      FilterSplits(front, whole, p, q);
      FilterSnoc(front, last, whole);
      FilterSnoc(front, last, p);
      FilterSnoc(front, last, q);
      BagOfSnoc(Filter(front, whole), last, whole(last));
      BagOfSnoc(Filter(front, p), last, p(last));
      BagOfSnoc(Filter(front, q), last, q(last));
    }
  }

  lemma BagOfSnoc(jobs: seq<Job>, job: Job, add: bool)
    ensures multiset(jobs + if add then [job] else []) == multiset(jobs) + if add then multiset{job} else multiset{}
  {
    if !add { assert jobs + [] == jobs; }
  }

  /** With unique ids, filtering by the ids of the current jobs leaves exactly the others. */
  lemma CurrentAndPrevious(jobs: seq<Job>, p: Job -> bool)
    requires UniqueIds(jobs)
    ensures
      var current := Filter(jobs, p);
      multiset(current) + multiset(Filter(jobs, (job: Job) => job.id !in Ids(current))) == multiset(jobs)
  {
    var current := Filter(jobs, p);
    FilterMembers(jobs, p);
    forall job | job in jobs ensures job.id in Ids(current) <==> p(job) {
      if job.id in Ids(current) { var other :| other in current && other.id == job.id; }
    }
    FilterSplits(jobs, _ => true, p, (job: Job) => job.id !in Ids(current));
    FilterAll(jobs, _ => true);
  }

  // ---- Finished groups --------------------------------------------------------------------------

  /** What the dashboard is shown for the jobs of one key. */
  ghost predicate Finished(g: Group, members: seq<Job>) {
    && multiset(g.jobs) == multiset(members) && InOrder(g.jobs)
    && IsLatest(g.updatedAt, members)
    && (forall i, j :: 0 <= i < j < |g.runIds| ==> g.runIds[i] > g.runIds[j])
    && AreRuns(g.runIds, members)
    && Named(g.sha, members, FirstTagged(g.key), Commit) && Named(g.branch, members, FirstTagged(g.key), BranchName)
    && g.current != [] && g.current == Filter(g.jobs, (job: Job) => IsCurrent(g, job))
    && g.previous == Filter(g.jobs, (job: Job) => job.id !in Ids(g.current))
    && (UniqueIds(members) ==> multiset(g.current) + multiset(g.previous) == multiset(members))
  }

  lemma SameElements(a: seq<Job>, b: seq<Job>)
    requires multiset(a) == multiset(b)
    ensures forall job :: job in a <==> job in b
  {
    forall job ensures job in a <==> job in b { assert job in a <==> job in multiset(a); assert job in b <==> job in multiset(b); }
  }

  method SortedRuns(runs: seq<int>) returns (sorted: seq<int>)
    requires Distinct(runs)
    ensures forall r :: r in sorted <==> r in runs
    ensures forall i, j :: 0 <= i < j < |sorted| ==> sorted[i] > sorted[j]
  {
    var later := (a: int, b: int) => a > b;
    sorted := SortSet(later, Elements(runs));
    SortSpec(later, Elements(runs));
    assert forall r :: r in sorted <==> r in Elements(sorted);
    assert forall i, j :: 0 <= i < j < |sorted| ==> later(sorted[i], sorted[j]);
  }

  method Finish(g: Group, ghost members: seq<Job>) returns (finished: Group)
    requires Summarises(g, members)
    ensures Finished(finished, members) && finished.key == g.key && finished.updatedAt == g.updatedAt
  {
    var runs := SortedRuns(g.runIds);
    finished := g.(runIds := runs, jobs := Ordered(g.jobs));
    OrderedSpec(g.jobs);
    SameElements(finished.jobs, g.jobs);
    assert runs != [] ==> runs[0] in runs;
    var current := CurrentJobs(finished);
    var previous := PreviousJobs(finished.jobs, current);
    ghost var summary := finished;
    if UniqueIds(members) { CurrentAndPrevious(finished.jobs, (job: Job) => IsCurrent(summary, job)); }
    finished := finished.(current := current, previous := previous);
    FilterSame(finished.jobs, (job: Job) => IsCurrent(summary, job), (job: Job) => IsCurrent(finished, job));
    FilterSame(finished.jobs, (job: Job) => job.id !in Ids(current), (job: Job) => job.id !in Ids(finished.current));
  }

  lemma NothingNamesLater(members: seq<Job>, from: nat, tag: Tag, k: nat, i: nat)
    requires Names(members, from, tag, i) && from <= k < |members| && Value(members[k], tag) != ""
    requires forall j :: k <= j < |members| ==> members[j].updatedAt <= members[k].updatedAt
    ensures i <= k
  {
  }

  /** If the job updated last has a commit (or branch), it is the group's. */
  lemma LatestNames(value: string, members: seq<Job>, from: nat, tag: Tag, k: nat)
    requires Named(value, members, from, tag) && from <= k < |members| && Rises(members, k) && Value(members[k], tag) != ""
    requires forall j :: k <= j < |members| ==> members[j].updatedAt <= members[k].updatedAt
    ensures value == Value(members[k], tag)
  {
    assert Names(members, from, tag, k);
    var i: nat :| Names(members, from, tag, i) && value == Value(members[i], tag) && NoneNames(members, from, tag, i + 1);
    NothingNamesLater(members, from, tag, k, i);
    assert i >= k;
  }

  lemma OneRun(runs: seq<int>, members: seq<Job>, run: int)
    requires members != [] && forall job :: job in members ==> job.run == run
    requires forall i, j :: 0 <= i < j < |runs| ==> runs[i] > runs[j]
    requires AreRuns(runs, members)
    ensures runs == if run == 0 then [] else [run]
  {
    assert members[0] in members;
    DistinctSize(runs);
    assert Elements(runs) == if run == 0 then {} else {run};
    assert run != 0 ==> runs[0] in runs;
  }

  lemma {:induction false} FilterNone(jobs: seq<Job>, p: Job -> bool)
    requires forall job :: job in jobs ==> !p(job)
    ensures Filter(jobs, p) == []
  {
    if jobs != [] { FilterNone(jobs[..|jobs| - 1], p); }
  }

  lemma AllCurrent(g: Group, members: seq<Job>)
    requires Finished(g, members) && forall job :: job in g.jobs ==> IsCurrent(g, job)
    ensures g.current == g.jobs && g.previous == []
  {
    FilterAll(g.jobs, (job: Job) => IsCurrent(g, job));
    FilterNone(g.jobs, (job: Job) => job.id !in Ids(g.current));
  }

  /** A group's commit is one of its jobs', and it has none only if none of those asked has. */
  lemma FinishedMembers(g: Group, members: seq<Job>)
    requires Finished(g, members)
    ensures members != []
    ensures if g.sha != "" then exists job :: job in members && job.sha == g.sha else forall i :: FirstTagged(g.key) <= i < |members| ==> members[i].sha == ""
  {
    var job :| job in members && job.updatedAt == g.updatedAt;
  }

  /** A job without a pull request shares its key's commit, or has none and shares its key's run. */
  predicate SharesKey(key: Key, job: Job) {
    match key
    case PullRequestKey(_, _) => true
    case BranchKey(_, _, sha) => sha != "" && job.sha == sha
    case RunKey(_, run) => job.sha == "" && job.run == run != 0
    case ManualKey(_, _) => job.sha == "" && job.run == 0
  }

  lemma MembersShareKey(states: seq<Job>, prs: PullRequests, key: Key)
    ensures forall job :: job in Members(states, prs, key) ==> SharesKey(key, job)
  {
    FilterMembers(states, (job: Job) => Visible(job) && KeyOf(prs, job) == key);
  }

  lemma CommitGroup(g: Group, members: seq<Job>, sha: string)
    requires Finished(g, members) && g.key.BranchKey? && sha != "" && forall job :: job in members ==> job.sha == sha
    ensures g.sha == sha && g.current == g.jobs && g.previous == []
  {
    FinishedMembers(g, members);
    assert members[0].sha == sha;
    SameElements(g.jobs, members);
    AllCurrent(g, members);
  }

  lemma RunGroup(g: Group, members: seq<Job>, run: int)
    requires Finished(g, members) && forall job :: job in members ==> job.sha == "" && job.run == run
    ensures g.sha == "" && g.current == g.jobs && g.previous == []
    ensures g.runIds == if run == 0 then [] else [run]
  {
    FinishedMembers(g, members);
    OneRun(g.runIds, members, run);
    SameElements(g.jobs, members);
    AllCurrent(g, members);
  }

  /** Only a pull request's group is ever split: every other group is wholly
      current, and its commit and runs are those of its key. */
  lemma OnlyPullRequestsSplit(g: Group, states: seq<Job>, prs: PullRequests)
    requires Finished(g, Members(states, prs, g.key)) && !g.key.PullRequestKey?
    ensures g.current == g.jobs && g.previous == []
    ensures g.sha == if g.key.BranchKey? then g.key.sha else ""
    ensures !g.key.BranchKey? ==> g.runIds == if g.key.RunKey? then [g.key.run] else []
  {
    var members := Members(states, prs, g.key);
    MembersShareKey(states, prs, g.key);
    FinishedMembers(g, members);
    assert members[0] in members;
    if g.key.BranchKey? { CommitGroup(g, members, g.key.sha); } else { RunGroup(g, members, members[0].run); }
  }

  // ---- All groups ---------------------------------------------------------------------------------

  /** `groups` are the finished groups of the keys met, each once, latest update first. */
  ghost predicate GroupsOk(groups: seq<Group>, states: seq<Job>, prs: PullRequests) {
    && (forall g :: g in groups ==> Members(states, prs, g.key) != [] && Finished(g, Members(states, prs, g.key)))
    && (forall key :: Members(states, prs, key) != [] ==> key in Keys(groups))
    && (forall i, j :: 0 <= i < j < |groups| ==> groups[i].key != groups[j].key && groups[i].updatedAt >= groups[j].updatedAt)
  }

  function Keys(groups: seq<Group>): set<Key> {
    set g | g in groups :: g.key
  }

  function AllJobs(groups: seq<Group>): multiset<Job> {
    if groups == [] then multiset{} else AllJobs(groups[..|groups| - 1]) + multiset(groups[|groups| - 1].jobs)
  }

  lemma {:induction false} LatestExists(groups: map<Key, Group>, keys: set<Key>) returns (latest: Key)
    requires keys != {} && keys <= groups.Keys
    ensures latest in keys && forall key :: key in keys ==> groups[key].updatedAt <= groups[latest].updatedAt
    decreases |keys|
  {
    latest :| latest in keys;
    if keys - {latest} != {} {
      var other := LatestExists(groups, keys - {latest});
      if groups[other].updatedAt > groups[latest].updatedAt { latest := other; }
    }
  }

  /** The groups emitted so far, none of which is older than one still to come. */
  ghost predicate Emitted(groups: seq<Group>, byKey: map<Key, Group>, rest: set<Key>, states: seq<Job>, prs: PullRequests) {
    && rest <= byKey.Keys
    && Keys(groups) == byKey.Keys - rest
    && (forall g :: g in groups ==> Finished(g, Members(states, prs, g.key)))
    && (forall g, key :: g in groups && key in rest ==> byKey[key].updatedAt <= g.updatedAt)
    && (forall i, j :: 0 <= i < j < |groups| ==> groups[i].key != groups[j].key && groups[i].updatedAt >= groups[j].updatedAt)
  }

  lemma EmittedNext(groups: seq<Group>, byKey: map<Key, Group>, rest: set<Key>, states: seq<Job>, prs: PullRequests, key: Key, g: Group)
    requires Emitted(groups, byKey, rest, states, prs) && key in rest
    requires forall k :: k in rest ==> byKey[k].updatedAt <= byKey[key].updatedAt
    requires Finished(g, Members(states, prs, key)) && g.key == key && g.updatedAt == byKey[key].updatedAt
    ensures Emitted(groups + [g], byKey, rest - {key}, states, prs)
  {
    var all := groups + [g];
    assert forall x :: x in all <==> x in groups || x == g;
    assert Keys(all) == Keys(groups) + {key};
    EmittedInOrder(groups, g, byKey, rest, key);
  }

  lemma EmittedInOrder(groups: seq<Group>, g: Group, byKey: map<Key, Group>, rest: set<Key>, key: Key)
    requires rest <= byKey.Keys && key in rest && Keys(groups) == byKey.Keys - rest && g.key == key && g.updatedAt == byKey[key].updatedAt
    requires forall x, k :: x in groups && k in rest ==> byKey[k].updatedAt <= x.updatedAt
    requires forall i, j :: 0 <= i < j < |groups| ==> groups[i].key != groups[j].key && groups[i].updatedAt >= groups[j].updatedAt
    ensures
      var all := groups + [g];
      forall i, j :: 0 <= i < j < |all| ==> all[i].key != all[j].key && all[i].updatedAt >= all[j].updatedAt
  {
    assert forall i :: 0 <= i < |groups| ==> groups[i] in groups && groups[i].key in Keys(groups);
  }

  method RunnerJobGroups(states: seq<Job>) returns (groups: seq<Group>)
    ensures GroupsOk(groups, states, KnownPullRequests(states))
    ensures AllJobs(groups) == multiset(Filter(states, Visible))
  {
    var prs := PullRequestsByCommit(states);
    var byKey := Gather(states, prs);
    assert forall key :: GroupOk(byKey, key, Members(states, prs, key));
    groups := [];
    var rest := byKey.Keys;
    while rest != {}
      invariant Emitted(groups, byKey, rest, states, prs)
    {
      ghost var latest := LatestExists(byKey, rest);
      var key :| key in rest && forall k :: k in rest ==> byKey[k].updatedAt <= byKey[key].updatedAt;
      var g := Finish(byKey[key], Members(states, prs, key));
      EmittedNext(groups, byKey, rest, states, prs, key, g);
      groups := groups + [g];
      rest := rest - {key};
    }
    GroupsPartition(groups, states, prs);
  }

  // ---- The partition ----------------------------------------------------------------------------------

  const NO_KEYS: set<Key> := {}

  /** The visible jobs of a set of keys. */
  function Gatherable(states: seq<Job>, prs: PullRequests, keys: set<Key>): seq<Job> {
    Filter(states, (job: Job) => Visible(job) && KeyOf(prs, job) in keys)
  }

  lemma OneMoreKey(states: seq<Job>, prs: PullRequests, keys: set<Key>, key: Key)
    requires key !in keys
    ensures multiset(Gatherable(states, prs, keys + {key})) == multiset(Gatherable(states, prs, keys)) + multiset(Members(states, prs, key))
  {
    FilterSplits(states, (job: Job) => Visible(job) && KeyOf(prs, job) in keys + {key},
                 (job: Job) => Visible(job) && KeyOf(prs, job) in keys, (job: Job) => Visible(job) && KeyOf(prs, job) == key);
  }

  lemma {:induction false} JobsOfGroups(groups: seq<Group>, states: seq<Job>, prs: PullRequests)
    requires forall g :: g in groups ==> multiset(g.jobs) == multiset(Members(states, prs, g.key))
    requires forall i, j :: 0 <= i < j < |groups| ==> groups[i].key != groups[j].key
    ensures AllJobs(groups) == multiset(Gatherable(states, prs, Keys(groups)))
  {
    if groups == [] {
      NothingGathered(states, prs);
      assert Keys(groups) == NO_KEYS;
    } else {
      var front, last := groups[..|groups| - 1], groups[|groups| - 1];
      assert groups == front + [last];
      JobsOfGroups(front, states, prs);
      assert Keys(groups) == Keys(front) + {last.key};
      OneMoreKey(states, prs, Keys(front), last.key);
    }
  }

  lemma NothingGathered(states: seq<Job>, prs: PullRequests)
    ensures Gatherable(states, prs, NO_KEYS) == []
  {
    var none := (job: Job) => Visible(job) && KeyOf(prs, job) in NO_KEYS;
    FilterMembers(states, none);
    if Filter(states, none) != [] { assert Filter(states, none)[0] in Filter(states, none); }
  }

  /** Every visible job is in exactly one group, exactly as often as it is listed. */
  lemma GroupsPartition(groups: seq<Group>, states: seq<Job>, prs: PullRequests)
    requires GroupsOk(groups, states, prs)
    ensures AllJobs(groups) == multiset(Filter(states, Visible))
  {
    JobsOfGroups(groups, states, prs);
    forall job | job in states && Visible(job) ensures KeyOf(prs, job) in Keys(groups) {
      FilterMembers(states, (j: Job) => Visible(j) && KeyOf(prs, j) == KeyOf(prs, job));
      assert job in Members(states, prs, KeyOf(prs, job));
    }
    FilterSame(states, (job: Job) => Visible(job) && KeyOf(prs, job) in Keys(groups), Visible);
  }
}
