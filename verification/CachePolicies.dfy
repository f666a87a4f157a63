/** What two issued storage policies allow together: whose caches their holders can
    reach, told by the objects and not by the paths. */
module CachePolicies {
  import opened Common
  import opened Text
  import opened CacheScopes

  /** A policy issued for a bucket, a base prefix and a scope to write to. */
  predicate Issued(digest: string -> string, policy: Policy, bucket: string, prefix: string, own: Scope, scopes: seq<string>) {
    && ValidBucket(bucket) && ValidPrefix(prefix) && (forall s :: s in scopes ==> ValidPrefix(s))
    && policy == PolicyFor(bucket, prefix, ScopePath(digest, own), scopes)
  }

  predicate BothWrite(p: Policy, q: Policy, bucket: string, key: string) {
    PlainBucket(bucket) && CanWrite(p, bucket, key) && CanWrite(q, bucket, key)
  }

  /** A holder writes exactly what lies below its own scope's path. */
  lemma WritesAreGrants(digest: string -> string, policy: Policy, bucket: string, prefix: string, own: Scope, scopes: seq<string>,
                        other: string, key: string)
    requires (forall b :: Hex(digest(b))) && Issued(digest, policy, bucket, prefix, own, scopes) && PlainBucket(other)
    ensures CanWrite(policy, other, key) <==> other == bucket && Grants(Path(prefix, ScopePath(digest, own)), key)
  {
    var x := ScopePath(digest, own);
    ScopePathIsValid(digest, own);
    PolicyGrants(bucket, prefix, x, scopes, other, key);
    ValidJoin(prefix, x);
    GrantsBelow(Path(prefix, x), key);
  }

  lemma ValidBucketIsPlain(bucket: string)
    requires ValidBucket(bucket)
    ensures PlainBucket(bucket)
  {
    assert '/' in "/\\*?";
  }

  /** The holders of two policies can write to a common object exactly when the
      policies are for one bucket, and for one base prefix and scope or with the base
      prefix of one within the scope of the other. */
  lemma PoliciesShare(digest: string -> string,
                      p: Policy, b: string, pre: string, s: Scope, pscopes: seq<string>,
                      q: Policy, c: string, qre: string, t: Scope, qscopes: seq<string>)
    requires forall name :: Hex(digest(name))
    requires Issued(digest, p, b, pre, s, pscopes) && Issued(digest, q, c, qre, t, qscopes)
    ensures
      var x, y := ScopePath(digest, s), ScopePath(digest, t);
      (exists bucket, key :: BothWrite(p, q, bucket, key)) <==>
      b == c && ((pre == qre && x == y) || Within(pre, Path(qre, y)) || Within(qre, Path(pre, x)))
  {
    var x, y := Path(pre, ScopePath(digest, s)), Path(qre, ScopePath(digest, t));
    WritersShare(digest, pre, s, qre, t);
    ValidBucketIsPlain(b);
    forall bucket, key | PlainBucket(bucket)
      ensures BothWrite(p, q, bucket, key) <==> bucket == b == c && Grants(x, key) && Grants(y, key)
    {
      WritesAreGrants(digest, p, b, pre, s, pscopes, bucket, key);
      WritesAreGrants(digest, q, c, qre, t, qscopes, bucket, key);
    }
    if key :| b == c && Grants(x, key) && Grants(y, key) { assert BothWrite(p, q, b, key); }
  }

  /** Under base prefixes with equally many components no holder can write what belongs
      to another pull request, and a pull request nothing that belongs to a branch. */
  lemma PoliciesAreIsolated(digest: string -> string,
                            p: Policy, b: string, pre: string, s: Scope, pscopes: seq<string>,
                            q: Policy, c: string, qre: string, t: Scope, qscopes: seq<string>, bucket: string, key: string)
    requires forall name :: Hex(digest(name))
    requires Issued(digest, p, b, pre, s, pscopes) && Issued(digest, q, c, qre, t, qscopes) && |Split(pre)| == |Split(qre)|
    requires BothWrite(p, q, bucket, key)
    ensures bucket == b == c && pre == qre && ScopePath(digest, s) == ScopePath(digest, t)
    ensures s.PullRequest? <==> t.PullRequest?
    ensures s.PullRequest? && 0 < s.number && 0 < t.number ==> s.number == t.number
  {
    WritesAreGrants(digest, p, b, pre, s, pscopes, bucket, key);
    WritesAreGrants(digest, q, c, qre, t, qscopes, bucket, key);
    WritersAreIsolated(digest, pre, s, qre, t, key);
    WritersAreIsolated(digest, qre, t, pre, s, key);
  }

  // ---- Who is given which scopes -------------------------------------------------------------

  /** The repository's own answer names a default branch. */
  predicate NamesDefault(repository: string, answers: Answers) {
    answers.repository.Some? && EqualFold(Trim(answers.repository.value.fullName), repository) && Trim(answers.repository.value.defaultBranch) != ""
  }

  predicate HasRun(runId: int, answers: Answers) {
    runId > 0 && answers.run.Some?
  }

  /** The default branch, as the run's repository names it, or failing that the repository itself. */
  function DefaultScope(digest: string -> string, repository: string, runId: int, answers: Answers): Option<string> {
    if HasRun(runId, answers) && Trim(answers.run.value.repository.defaultBranch) != "" then Some(ScopeForBranch(digest, answers.run.value.repository.defaultBranch))
    else if NamesDefault(repository, answers) then Some(ScopeForBranch(digest, answers.repository.value.defaultBranch))
    else None
  }

  /** The run is for a pull request that GitHub confirms to be one against this repository. */
  predicate ForPull(repository: string, runId: int, answers: Answers) {
    HasRun(runId, answers) && Fold(answers.run.value.event) == "pull_request" && answers.pull.Some? &&
    var run, pull := answers.run.value, answers.pull.value;
    && |run.pullRequests| > 0 && run.pullRequests[0] > 0 && pull.number == run.pullRequests[0]
    && EqualFold(Trim(pull.baseRepository), repository) && Trim(pull.baseRepository) != ""
    && Trim(pull.baseRef) != "" && Trim(pull.headRepository) != ""
  }

  /** The run is for a branch of this repository itself, by an event nobody outside can cause. */
  predicate ForBranch(repository: string, runId: int, answers: Answers) {
    HasRun(runId, answers) &&
    var run := answers.run.value;
    && Fold(run.event) in {"push", "workflow_dispatch", "repository_dispatch", "delete", "registry_package", "page_build", "schedule"}
    && EqualFold(Trim(run.repository.fullName), repository) && EqualFold(Trim(run.headRepository), repository)
    && Trim(run.repository.fullName) != "" && Trim(run.headRepository) != "" && Trim(run.headBranch) != ""
  }

  lemma TrimIsStable(s: string)
    ensures Trim(Trim(s)) == Trim(s)
  {
    var t := TrimLeft(s);
    TrimLeftStartsInText(s);
    TrimRightKeepsStart(t);
  }

  lemma {:induction false} TrimLeftStartsInText(s: string)
    ensures TrimLeft(s) != "" ==> !IsSpace(TrimLeft(s)[0])
  {
    if s != "" && IsSpace(s[0]) { TrimLeftStartsInText(s[1..]); }
  }

  lemma {:induction false} TrimRightKeepsStart(s: string)
    requires s != "" ==> !IsSpace(s[0])
    ensures TrimLeft(TrimRight(s)) == TrimRight(s) && TrimRight(TrimRight(s)) == TrimRight(s)
  {
    if s != "" && IsSpace(s[|s| - 1]) { TrimRightKeepsStart(s[..|s| - 1]); }
  }

  lemma SameScope(digest: string -> string, branch: string)
    ensures ScopeForBranch(digest, Trim(branch)) == ScopeForBranch(digest, branch)
  {
    TrimIsStable(branch);
  }

  lemma PullMayWrite(digest: string -> string, repository: string, runId: int, answers: Answers, scope: string)
    requires HasRun(runId, answers) && Fold(answers.run.value.event) == "pull_request"
    ensures !ForBranch(repository, runId, answers)
    ensures
      PullRequestScopes(digest, repository, answers.run.value, answers.pull, scope).writeScope ==
        if ForPull(repository, runId, answers) then ScopeForPR(answers.pull.value.number) else ""
  {
  }

  lemma BranchMayWrite(digest: string -> string, repository: string, runId: int, answers: Answers, scope: string)
    requires HasRun(runId, answers) && Fold(answers.run.value.event) != "pull_request"
    ensures !ForPull(repository, runId, answers)
    ensures
      BranchScopes(digest, repository, answers.run.value, scope).writeScope ==
        if ForBranch(repository, runId, answers) then ScopeForBranch(digest, answers.run.value.headBranch) else ""
  {
    SameScope(digest, answers.run.value.headBranch);
  }

  /** The decision, once the default branch is known. */
  lemma DecidedBy(digest: string -> string, repository: string, runId: int, answers: Answers)
    ensures
      var d, scope := CacheScopesForWorkflow(digest, repository, runId, answers), DefaultScope(digest, repository, runId, answers);
      d == if scope.None? then NO_CACHE
           else if !HasRun(runId, answers) then ReadOnly(scope)
           else if Fold(answers.run.value.event) == "pull_request" then PullRequestScopes(digest, repository, answers.run.value, answers.pull, scope.value)
           else BranchScopes(digest, repository, answers.run.value, scope.value)
  {
    if answers.run.Some? { SameScope(digest, answers.run.value.repository.defaultBranch); }
  }

  /** Exactly who may write, and where: a confirmed pull request to its own scope, a
      trusted run of the repository itself to its branch's, nobody else anywhere; and
      without a known default branch nothing is granted at all. */
  lemma WhoMayWrite(digest: string -> string, repository: string, runId: int, answers: Answers)
    ensures
      var d, scope := CacheScopesForWorkflow(digest, repository, runId, answers), DefaultScope(digest, repository, runId, answers);
      d.writeScope ==
        if scope.None? then ""
        else if ForPull(repository, runId, answers) then ScopeForPR(answers.pull.value.number)
        else if ForBranch(repository, runId, answers) then ScopeForBranch(digest, answers.run.value.headBranch)
        else ""
  {
    DecidedBy(digest, repository, runId, answers);
    var scope := DefaultScope(digest, repository, runId, answers);
    if scope.Some? && HasRun(runId, answers) {
      if Fold(answers.run.value.event) == "pull_request" { PullMayWrite(digest, repository, runId, answers, scope.value); }
      else { BranchMayWrite(digest, repository, runId, answers, scope.value); }
    }
  }

  lemma DefaultIsScope(digest: string -> string, repository: string, runId: int, answers: Answers)
    requires DefaultScope(digest, repository, runId, answers).Some?
    ensures IsScope(digest, DefaultScope(digest, repository, runId, answers).value)
  {
    var name := if HasRun(runId, answers) && Trim(answers.run.value.repository.defaultBranch) != ""
                then answers.run.value.repository.defaultBranch else answers.repository.value.defaultBranch;
    assert ScopePath(digest, Branch(name)) == DefaultScope(digest, repository, runId, answers).value;
  }

  lemma PullMayRead(digest: string -> string, repository: string, runId: int, answers: Answers, scope: string)
    requires HasRun(runId, answers) && Fold(answers.run.value.event) == "pull_request" && (forall b :: Hex(digest(b))) && IsScope(digest, scope)
    ensures
      var d := PullRequestScopes(digest, repository, answers.run.value, answers.pull, scope);
      Elements(d.readScopes) ==
        if ForPull(repository, runId, answers) then {d.writeScope, ScopeForBranch(digest, answers.pull.value.baseRef), scope} else {scope}
  {
    if answers.pull.Some? {
      SameScope(digest, answers.pull.value.baseRef);
      ReadsOfPull(digest, answers.pull.value, scope);
    }
  }

  lemma BranchMayRead(digest: string -> string, repository: string, runId: int, answers: Answers, scope: string)
    requires HasRun(runId, answers) && Fold(answers.run.value.event) != "pull_request" && (forall b :: Hex(digest(b))) && IsScope(digest, scope)
    ensures
      var d := BranchScopes(digest, repository, answers.run.value, scope);
      Elements(d.readScopes) == if ForBranch(repository, runId, answers) then {d.writeScope, scope} else {scope}
  {
    var branch := answers.run.value.headBranch;
    SameScope(digest, branch);
    ReadsOfBranch(digest, ScopeForBranch(digest, branch), branch, scope);
  }

  /** And what may be read beside it: the default branch's cache always, and for a
      pull request that of the branch it is made against. */
  lemma WhatMayBeRead(digest: string -> string, repository: string, runId: int, answers: Answers)
    requires forall b :: Hex(digest(b))
    ensures
      var d, scope := CacheScopesForWorkflow(digest, repository, runId, answers), DefaultScope(digest, repository, runId, answers);
      Elements(d.readScopes) ==
        if scope.None? then {}
        else if ForPull(repository, runId, answers) then {d.writeScope, ScopeForBranch(digest, answers.pull.value.baseRef), scope.value}
        else if ForBranch(repository, runId, answers) then {d.writeScope, scope.value}
        else {scope.value}
  {
    DecidedBy(digest, repository, runId, answers);
    var scope := DefaultScope(digest, repository, runId, answers);
    if scope.Some? {
      DefaultIsScope(digest, repository, runId, answers);
      if HasRun(runId, answers) {
        if Fold(answers.run.value.event) == "pull_request" {
          PullMayWrite(digest, repository, runId, answers, scope.value);
          PullMayRead(digest, repository, runId, answers, scope.value);
        } else {
          BranchMayWrite(digest, repository, runId, answers, scope.value);
          BranchMayRead(digest, repository, runId, answers, scope.value);
        }
      }
    }
  }

  lemma ReadsOfBranch(digest: string -> string, own: string, branch: string, scope: string)
    requires (forall b :: Hex(digest(b))) && own == ScopeForBranch(digest, branch) && IsScope(digest, scope)
    ensures Elements(UniqueScopes([own, scope])) == {own, scope}
  {
    assert ScopePath(digest, Branch(branch)) == own;
    UniqueOfScopes(digest, [own, scope]);
    assert forall s :: s in [own, scope] <==> s in {own, scope};
  }

  lemma ReadsOfPull(digest: string -> string, pull: Pull, scope: string)
    requires (forall b :: Hex(digest(b))) && IsScope(digest, scope)
    ensures
      var own, base := ScopeForPR(pull.number), ScopeForBranch(digest, Trim(pull.baseRef));
      Elements(UniqueScopes([own, base, scope])) == {own, base, scope}
  {
    var own, base := ScopeForPR(pull.number), ScopeForBranch(digest, Trim(pull.baseRef));
    assert ScopePath(digest, PullRequest(pull.number)) == own && ScopePath(digest, Branch(Trim(pull.baseRef))) == base;
    UniqueOfScopes(digest, [own, base, scope]);
    assert forall s :: s in [own, base, scope] <==> s in {own, base, scope};
  }

  /** A branch has one scope however it is spelled, and a nameless one that of "default". */
  lemma SpellingsShareAScope(digest: string -> string, branch: string)
    ensures ScopeForBranch(digest, Trim(branch)) == ScopeForBranch(digest, branch)
    ensures Trim(branch) == branch && branch != "" && !("refs/heads/" <= branch) ==>
              ScopeForBranch(digest, "refs/heads/" + branch) == ScopeForBranch(digest, branch) == "scopes/branch-" + digest(branch)
    ensures Trim(branch) == "" ==> ScopeForBranch(digest, branch) == "scopes/branch-" + digest("default")
  {
    SameScope(digest, branch);
    if Trim(branch) == branch && branch != "" {
      var full := "refs/heads/" + branch;
      TrimLeftStartsInText(branch);
      assert full[|full| - 1] == branch[|branch| - 1];
      assert !IsSpace(branch[|branch| - 1]) by {
        var k := TrimRightSpec(TrimLeft(branch));
        TrimmedEndsInText(branch);
      }
      assert Trim(full) == full;
      assert full[|"refs/heads/"|..] == branch;
    }
  }

  lemma TrimmedEndsInText(s: string)
    requires Trim(s) == s && s != ""
    ensures !IsSpace(s[|s| - 1])
  {
    var front := TrimLeftSpec(s);
    var k := TrimRightSpec(TrimLeft(s));
    assert |Trim(s)| == k <= |TrimLeft(s)| == |s| - front;
    assert front == 0 && TrimLeft(s) == s;
  }
}
