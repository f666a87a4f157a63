/** Which part of the shared dependency cache a runner may read and write: the
    scope decision for a workflow run, the storage policy built from it, and the
    read prefixes injected into the sandbox. */
module CacheScopes {
  import opened Common
  import opened Text

  // ---- Paths ------------------------------------------------------------------------

  /** strings.Split(s, "/") */
  function Split(s: string): (components: seq<string>)
    ensures components != []
  {
    if s == "" then [""]
    else if s[0] == '/' then [""] + Split(s[1..])
    else
      var rest := Split(s[1..]);
      [[s[0]] + rest[0]] + rest[1..]
  }

  function Prepend(c: char, parts: seq<string>): seq<string>
    requires parts != []
  {
    if c == '/' then [""] + parts else [[c] + parts[0]] + parts[1..]
  }

  lemma SplitStep(c: char, s: string)
    ensures Split([c] + s) == Prepend(c, Split(s))
  {
    assert ([c] + s)[1..] == s;
  }

  lemma PrependJoin(c: char, a: seq<string>, b: seq<string>)
    requires a != []
    ensures Prepend(c, a + b) == Prepend(c, a) + b
  {
  }

  lemma {:induction false} SplitJoin(a: string, b: string)
    ensures Split(a + "/" + b) == Split(a) + Split(b)
  {
    if a == "" {
      assert a + "/" + b == ['/'] + b;
      SplitStep('/', b);
    } else {
      assert a + "/" + b == [a[0]] + (a[1..] + "/" + b) && a == [a[0]] + a[1..];
      SplitJoin(a[1..], b);
      SplitStep(a[0], a[1..] + "/" + b);
      SplitStep(a[0], a[1..]);
      PrependJoin(a[0], Split(a[1..]), Split(b));
    }
  }

  predicate ContainsAny(s: string, chars: string) {
    exists c :: c in s && c in chars
  }

  predicate ValidComponent(c: string) {
    c != "" && c != "." && c != ".." && !ContainsAny(c, "*?")
  }

  /** validateCachePrefix */
  predicate ValidPrefix(prefix: string) {
    prefix != "" && forall c :: c in Split(prefix) ==> ValidComponent(c)
  }

  lemma {:induction false} SplitCharacters(s: string, c: char)
    requires c in s && c != '/'
    ensures exists part :: part in Split(s) && c in part
  {
    if s[0] == c {
      assert c in Split(s)[0];
    } else {
      SplitCharacters(s[1..], c);
      var part :| part in Split(s[1..]) && c in part;
      var i :| 0 <= i < |Split(s[1..])| && Split(s[1..])[i] == part;
      assert c in Split(s)[if s[0] == '/' then i + 1 else i];
    }
  }

  lemma ValidHasNoWildcard(prefix: string)
    requires ValidPrefix(prefix)
    ensures !ContainsAny(prefix, "*?")
  {
    forall c | c in prefix ensures c !in "*?" {
      if c != '/' {
        SplitCharacters(prefix, c);
        var part :| part in Split(prefix) && c in part;
        assert ValidComponent(part);
      }
    }
  }

  lemma ValidJoin(a: string, b: string)
    ensures ValidPrefix(a + "/" + b) <==> ValidPrefix(a) && ValidPrefix(b)
  {
    SplitJoin(a, b);
    assert Split("") == [""] && !ValidComponent("");
    if ValidPrefix(a + "/" + b) {
      assert forall c :: c in Split(a) || c in Split(b) ==> c in Split(a + "/" + b);
      assert a == "" ==> "" in Split(a);
      assert b == "" ==> "" in Split(b);
    }
  }

  // ---- What a policy resource covers ---------------------------------------------------

  /** The storage service's resource patterns: '*' stands for any text, '?' for any character. */
  predicate Glob(pattern: string, key: string)
    decreases |pattern| + |key|
  {
    if pattern == "" then key == ""
    else if pattern[0] == '*' then Glob(pattern[1..], key) || (key != "" && Glob(pattern, key[1..]))
    else key != "" && (pattern[0] == '?' || pattern[0] == key[0]) && Glob(pattern[1..], key[1..])
  }

  predicate StartsWith(key: string, prefix: string) {
    prefix <= key
  }

  lemma {:induction false} StarCoversAll(key: string)
    ensures Glob("*", key)
  {
    if key == "" {
      assert Glob("*"[1..], key);
    } else {
      StarCoversAll(key[1..]);
    }
  }

  lemma {:induction false} LiteralThenStar(literal: string, key: string)
    requires !ContainsAny(literal, "*?")
    ensures Glob(literal + "*", key) <==> StartsWith(key, literal)
  {
    if literal == "" {
      assert literal + "*" == "*";
      StarCoversAll(key);
    } else {
      assert literal[0] != '*' && literal[0] != '?' by { assert '*' in "*?" && '?' in "*?" && literal[0] in literal; }
      assert (literal + "*")[1..] == literal[1..] + "*";
      if key != "" && literal[0] == key[0] {
        LiteralThenStar(literal[1..], key[1..]);
        assert key == [key[0]] + key[1..] && literal == [literal[0]] + literal[1..];
      }
    }
  }

  /** The path a scope is kept under. */
  function Path(prefix: string, scope: string): string {
    prefix + "/" + scope
  }

  /** The key pattern granted for a path. */
  function Pattern(path: string): string {
    path + "/*"
  }

  predicate Grants(path: string, key: string) {
    Glob(Pattern(path), key)
  }

  /** A pattern grants exactly the keys below its path. */
  lemma GrantsBelow(path: string, key: string)
    requires ValidPrefix(path)
    ensures Grants(path, key) <==> StartsWith(key, path + "/")
  {
    ValidHasNoWildcard(path);
    assert Pattern(path) == (path + "/") + "*";
    LiteralThenStar(path + "/", key);
  }

  /** Two granted paths share a key exactly when they are equal or one lies below the other. */
  lemma GrantsOverlap(a: string, b: string)
    requires ValidPrefix(a) && ValidPrefix(b)
    ensures (exists key :: Grants(a, key) && Grants(b, key)) <==> StartsWith(a + "/", b + "/") || StartsWith(b + "/", a + "/")
  {
    forall key ensures Grants(a, key) && Grants(b, key) <==> StartsWith(key, a + "/") && StartsWith(key, b + "/") {
      GrantsBelow(a, key);
      GrantsBelow(b, key);
    }
    if key: string :| Grants(a, key) && Grants(b, key) {
      assert if |a| <= |b| then (b + "/")[..|a| + 1] == key[..|a| + 1] else (a + "/")[..|b| + 1] == key[..|b| + 1];
    }
    if StartsWith(b + "/", a + "/") { assert Grants(a, b + "/") && Grants(b, b + "/"); }
    if StartsWith(a + "/", b + "/") { assert Grants(a, a + "/") && Grants(b, a + "/"); }
  }

  lemma LongerPathHasMore(a: string, b: string)
    requires StartsWith(b + "/", a + "/") && a != b
    ensures |Split(b)| > |Split(a)|
  {
    assert |a| == |b| ==> a + "/" == b + "/";
    assert a == (a + "/")[..|a|] && b == (b + "/")[..|b|];
    var rest := b[|a| + 1..];
    assert b[..|a| + 1] == (b + "/")[..|a| + 1] == a + "/";
    assert b == a + "/" + rest;
    SplitJoin(a, rest);
  }

  /** Grants for different paths with equally many components never share a key,
      so "pr-1" does not cover "pr-12". */
  lemma GrantsAreDisjoint(a: string, b: string, key: string)
    requires ValidPrefix(a) && ValidPrefix(b) && |Split(a)| == |Split(b)| && a != b
    ensures !(Grants(a, key) && Grants(b, key))
  {
    if Grants(a, key) && Grants(b, key) {
      GrantsOverlap(a, b);
      if StartsWith(b + "/", a + "/") { LongerPathHasMore(a, b); } else { LongerPathHasMore(b, a); }
    }
  }

  // ---- The scopes of pull requests and branches ------------------------------------------

  function Digit(n: nat): char
    requires n < 10
  {
    '0' + n as char
  }

  /** fmt's %d for a natural number */
  function Decimal(n: nat): (s: string)
    ensures s != "" && forall c :: c in s ==> '0' <= c <= '9'
  {
    if n < 10 then [Digit(n)] else Decimal(n / 10) + [Digit(n % 10)]
  }

  lemma {:induction false} DecimalIsInjective(m: nat, n: nat)
    requires Decimal(m) == Decimal(n)
    ensures m == n
  {
    var s, t := Decimal(m), Decimal(n);
    assert Digit(m % 10) == s[|s| - 1] == t[|t| - 1] == Digit(n % 10);
    if m >= 10 && n >= 10 {
      assert Decimal(m / 10) == s[..|s| - 1] == t[..|t| - 1] == Decimal(n / 10);
      DecimalIsInjective(m / 10, n / 10);
    }
  }

  predicate Hex(s: string) {
    s != "" && forall c :: c in s ==> '0' <= c <= '9' || 'a' <= c <= 'f'
  }

  /** `digest` stands for the hexadecimal hash of the branch name. */
  function ScopeForBranch(digest: string -> string, branch: string): string {
    "scopes/branch-" + digest(BranchName(branch))
  }

  function BranchName(branch: string): string {
    var trimmed := Trim(branch);
    var name := if "refs/heads/" <= trimmed then trimmed[|"refs/heads/"|..] else trimmed;
    if name == "" then "default" else name
  }

  function ScopeForPR(number: int): string {
    if number <= 0 then "scopes/pr-unknown" else "scopes/pr-" + Decimal(number)
  }

  predicate Plain(s: string) {
    s != "" && forall c :: c in s ==> '0' <= c <= '9' || 'a' <= c <= 'z' || c == '-'
  }

  lemma PlainIsValid(s: string)
    requires Plain(s)
    ensures ValidComponent(s) && Split(s) == [s]
  {
    NoSlash(s);
    assert s[0] in s;
  }

  lemma ScopeIsValid(name: string)
    requires Plain(name)
    ensures ValidPrefix("scopes/" + name) && Split("scopes/" + name) == ["scopes", name]
  {
    PlainIsValid("scopes");
    PlainIsValid(name);
    SplitJoin("scopes", name);
    assert "scopes/" + name == "scopes" + "/" + name;
  }

  lemma {:induction false} NoSlash(s: string)
    requires '/' !in s
    ensures Split(s) == [s]
  {
    if s != "" {
      NoSlash(s[1..]);
      SplitStep(s[0], s[1..]);
      assert s == [s[0]] + s[1..];
    }
  }

  datatype Scope = PullRequest(number: int) | Branch(name: string)

  function ScopePath(digest: string -> string, scope: Scope): string {
    match scope
    case PullRequest(number) => ScopeForPR(number)
    case Branch(name) => ScopeForBranch(digest, name)
  }

  /** A scope is the fixed folder and one name, which is never that of the folder. */
  lemma ScopePathIsValid(digest: string -> string, scope: Scope)
    requires forall b :: Hex(digest(b))
    ensures
      var x := ScopePath(digest, scope);
      ValidPrefix(x) && |Split(x)| == 2 && Split(x)[0] == "scopes" && Split(x)[1] != "scopes"
  {
    match scope
    case PullRequest(number) =>
      var name := "pr-" + if number <= 0 then "unknown" else Decimal(number);
      ScopeIsValid(name);
      assert ScopeForPR(number) == "scopes/" + name;
    case Branch(name) =>
      var hash := digest(BranchName(name));
      ScopeIsValid("branch-" + hash);
      assert ScopeForBranch(digest, name) == "scopes/" + ("branch-" + hash);
  }

  lemma PullRequestsDiffer(digest: string -> string, m: int, n: int)
    requires m > 0 && n > 0 && m != n
    ensures ScopeForPR(m) != ScopeForPR(n)
  {
    if ScopeForPR(m) == ScopeForPR(n) {
      assert Decimal(m) == ScopeForPR(m)[10..] == ScopeForPR(n)[10..] == Decimal(n);
      DecimalIsInjective(m, n);
    }
  }

  lemma PullRequestIsNoBranch(digest: string -> string, n: int, branch: string)
    ensures ScopeForPR(n) != ScopeForBranch(digest, branch)
  {
    assert ScopeForPR(n)[7] == 'p' && ScopeForBranch(digest, branch)[7] == 'b';
  }

  /** `path` lies at or below `above`. */
  predicate Within(path: string, above: string) {
    StartsWith(path + "/", above + "/")
  }

  /** What lies strictly above a path is made of fewer, and the same first, components. */
  lemma AboveHasFirstComponents(path: string, above: string)
    requires Within(path, above) && path != above
    ensures |Split(above)| < |Split(path)| && Split(above) == Split(path)[..|Split(above)|]
  {
    LongerPathHasMore(above, path);
    assert |path| > |above| by {
      assert |path| == |above| ==> path + "/" == above + "/";
      assert path == (path + "/")[..|path|] && above == (above + "/")[..|above|];
    }
    var rest := path[|above| + 1..];
    assert path[..|above| + 1] == (path + "/")[..|above| + 1] == above + "/";
    assert path == above + "/" + rest;
    SplitJoin(above, rest);
  }

  /** A path strictly between a base and a scope below it is the base's scope folder. */
  lemma BetweenIsFolder(p: string, x: string, b: string)
    requires |Split(x)| == 2 && Split(x)[0] == "scopes" && |p| < |b| && Path(p, x) != b && Within(Path(p, x), b)
    ensures |Split(b)| > 0 && Split(b)[|Split(b)| - 1] == "scopes"
  {
    var a := Path(p, x);
    SplitJoin(p, x);
    AboveHasFirstComponents(a, b);
    assert (b + "/")[..|p| + 1] == (a + "/")[..|p| + 1] == p + "/";
    AboveHasFirstComponents(b, p);
  }

  /** A scope's path lies within another one only as that path itself or because its whole base does. */
  lemma WithinScope(p: string, x: string, q: string, y: string)
    requires |Split(x)| == 2 && Split(x)[0] == "scopes" && |Split(y)| == 2 && Split(y)[1] != "scopes"
    ensures Within(Path(p, x), Path(q, y)) <==> (p == q && x == y) || Within(p, Path(q, y))
  {
    var a, b := Path(p, x), Path(q, y);
    assert (a + "/")[..|p| + 1] == p + "/";
    SplitJoin(q, y);
    assert Split(b)[|Split(b)| - 1] == Split(y)[1];
    if |b| <= |p| {
      assert (a + "/")[..|b| + 1] == (p + "/")[..|b| + 1];
    } else if a == b {
      SamePath(p, x, q, y);
    } else if Within(a, b) {
      BetweenIsFolder(p, x, b);
    }
  }

  /** Equal paths below scope folders have equal bases and scopes. */
  lemma SamePath(p: string, x: string, q: string, y: string)
    requires Path(p, x) == Path(q, y) && |Split(x)| == |Split(y)|
    ensures p == q && x == y
  {
    SplitJoin(p, x);
    SplitJoin(q, y);
    if |p| < |q| {
      assert (q + "/")[..|p| + 1] == Path(q, y)[..|p| + 1] == Path(p, x)[..|p| + 1] == p + "/";
      LongerPathHasMore(p, q);
    } else if |q| < |p| {
      assert (p + "/")[..|q| + 1] == Path(p, x)[..|q| + 1] == Path(q, y)[..|q| + 1] == q + "/";
      LongerPathHasMore(q, p);
    } else {
      assert p == Path(p, x)[..|p|] == Path(q, y)[..|q|] == q;
      assert x == Path(p, x)[|p| + 1..] == Path(q, y)[|q| + 1..] == y;
    }
  }

  /** Two runners may write to a common key exactly when they have the same base
      prefix and scope, or the base prefix of one lies within the other's scope. */
  lemma WritersShare(digest: string -> string, p: string, s: Scope, q: string, t: Scope)
    requires forall b :: Hex(digest(b))
    requires ValidPrefix(p) && ValidPrefix(q)
    ensures
      var x, y := ScopePath(digest, s), ScopePath(digest, t);
      var a, b := Path(p, x), Path(q, y);
      (exists key :: Grants(a, key) && Grants(b, key)) <==> (p == q && x == y) || Within(p, b) || Within(q, a)
  {
    var x, y := ScopePath(digest, s), ScopePath(digest, t);
    ScopePathIsValid(digest, s);
    ScopePathIsValid(digest, t);
    ValidJoin(p, x);
    ValidJoin(q, y);
    GrantsOverlap(Path(p, x), Path(q, y));
    WithinScope(p, x, q, y);
    WithinScope(q, y, p, x);
  }

  /** With equally many base components that is the same base and scope only;
      two numbered pull requests, or a pull request and a branch, never meet. */
  lemma WritersAreIsolated(digest: string -> string, p: string, s: Scope, q: string, t: Scope, key: string)
    requires forall b :: Hex(digest(b))
    requires ValidPrefix(p) && ValidPrefix(q) && |Split(p)| == |Split(q)|
    ensures
      var a, b := Path(p, ScopePath(digest, s)), Path(q, ScopePath(digest, t));
      && (Grants(a, key) && Grants(b, key) ==> p == q && ScopePath(digest, s) == ScopePath(digest, t))
      && (s.PullRequest? && t.PullRequest? && 0 < s.number && 0 < t.number && s.number != t.number ==> !(Grants(a, key) && Grants(b, key)))
      && (s.PullRequest? && t.Branch? ==> !(Grants(a, key) && Grants(b, key)))
  {
    var x, y := ScopePath(digest, s), ScopePath(digest, t);
    if s.PullRequest? && t.PullRequest? && 0 < s.number && 0 < t.number && s.number != t.number {
      PullRequestsDiffer(digest, s.number, t.number);
    }
    if s.PullRequest? && t.Branch? { PullRequestIsNoBranch(digest, s.number, t.name); }
    ScopePathIsValid(digest, s);
    ScopePathIsValid(digest, t);
    ValidJoin(p, x);
    ValidJoin(q, y);
    SplitJoin(p, x);
    SplitJoin(q, y);
    if Path(p, x) != Path(q, y) { GrantsAreDisjoint(Path(p, x), Path(q, y), key); } else { SamePath(p, x, q, y); }
  }

  // ---- Normalised scope lists ---------------------------------------------------------------

  function TrimLeftSlashes(s: string): string {
    if s != "" && s[0] == '/' then TrimLeftSlashes(s[1..]) else s
  }

  /** strings.TrimRight(s, "/") */
  function TrimRightSlashes(s: string): string {
    if s != "" && s[|s| - 1] == '/' then TrimRightSlashes(s[..|s| - 1]) else s
  }

  function NormalScope(scope: string): string {
    TrimRightSlashes(TrimLeftSlashes(Trim(scope)))
  }

  /** The scopes that are not blank, each once, in order. */
  function UniqueScopes(scopes: seq<string>): seq<string> {
    if scopes == [] then []
    else
      var before, scope := UniqueScopes(scopes[..|scopes| - 1]), NormalScope(scopes[|scopes| - 1]);
      if scope == "" || scope in before then before else before + [scope]
  }

  lemma UniqueScopesSnoc(scopes: seq<string>, scope: string)
    ensures
      var before, normal := UniqueScopes(scopes), NormalScope(scope);
      UniqueScopes(scopes + [scope]) == if normal == "" || normal in before then before else before + [normal]
  {
    assert (scopes + [scope])[..|scopes|] == scopes;
  }

  lemma {:induction false} UniqueScopesSpec(scopes: seq<string>)
    ensures Distinct(UniqueScopes(scopes))
    ensures forall s :: s in UniqueScopes(scopes) <==> s != "" && exists raw :: raw in scopes && NormalScope(raw) == s
  {
    if scopes != [] {
      var front, last := scopes[..|scopes| - 1], scopes[|scopes| - 1];
      UniqueScopesSpec(front);
      assert forall raw :: raw in scopes <==> raw in front || raw == last;
    }
  }

  /** uniqueCacheScopes */
  method CollectUniqueScopes(scopes: seq<string>) returns (result: seq<string>)
    ensures result == UniqueScopes(scopes)
  {
    result := [];
    var seen: set<string> := {};
    for i := 0 to |scopes|
      invariant result == UniqueScopes(scopes[..i]) && seen == Elements(result)
    {
      assert scopes[..i + 1] == scopes[..i] + [scopes[i]];
      UniqueScopesSnoc(scopes[..i], scopes[i]);
      var scope := NormalScope(scopes[i]);
      if scope != "" && scope !in seen {
        seen := seen + {scope};
        result := result + [scope];
      }
    }
    assert scopes[..|scopes|] == scopes;
  }

  // ---- The storage policy ---------------------------------------------------------------------

  datatype Policy = Policy(listPrefixes: seq<string>, readResources: seq<string>, writeResource: Option<string>)

  datatype PolicyResult = Ok(policy: Policy) | BadBucket | BadPrefix | BadReadScope(scope: string) | NoReadScope | BadOwnScope

  /** validateCacheBucket, on the trimmed name */
  predicate ValidBucket(bucket: string) {
    bucket != "" && bucket != "." && bucket != ".." && !ContainsAny(bucket, "/\\*?")
  }

  /** strings.TrimPrefix and strings.TrimSuffix with "/" */
  function WithoutOuterSlash(s: string): string {
    var left := if s != "" && s[0] == '/' then s[1..] else s;
    if left != "" && left[|left| - 1] == '/' then left[..|left| - 1] else left
  }

  /** The base prefix without surrounding blanks and without one slash at either end. */
  function NormalPrefix(prefix: string): string {
    WithoutOuterSlash(Trim(prefix))
  }

  function Resource(bucket: string, prefix: string, scope: string): string {
    "qrn:kodo:::bucket/" + bucket + "/" + Pattern(Path(prefix, scope))
  }

  function Resources(bucket: string, prefix: string, scopes: seq<string>): (r: seq<string>)
    ensures |r| == |scopes|
  {
    seq(|scopes|, i requires 0 <= i < |scopes| => Resource(bucket, prefix, scopes[i]))
  }

  function Patterns(prefix: string, scopes: seq<string>): (r: seq<string>)
    ensures |r| == |scopes|
  {
    seq(|scopes|, i requires 0 <= i < |scopes| => Pattern(Path(prefix, scopes[i])))
  }

  lemma ResourceIsInjective(bucket: string, prefix: string, s: string, t: string)
    ensures Resource(bucket, prefix, s) == Resource(bucket, prefix, t) <==> s == t
  {
    var head := "qrn:kodo:::bucket/" + bucket + "/" + prefix + "/";
    assert Resource(bucket, prefix, s) == head + (s + "/*") && Resource(bucket, prefix, t) == head + (t + "/*");
    assert (head + (s + "/*"))[|head|..] == s + "/*" && (head + (t + "/*"))[|head|..] == t + "/*";
    assert (s + "/*")[..|s + "/*"| - 2] == s && (t + "/*")[..|t + "/*"| - 2] == t;
  }

  lemma ResourceSeen(bucket: string, prefix: string, scopes: seq<string>, scope: string)
    ensures Resource(bucket, prefix, scope) in Resources(bucket, prefix, scopes) <==> scope in scopes
  {
    var all := Resources(bucket, prefix, scopes);
    if Resource(bucket, prefix, scope) in all {
      var i :| 0 <= i < |all| && all[i] == Resource(bucket, prefix, scope);
      ResourceIsInjective(bucket, prefix, scope, scopes[i]);
    }
    if scope in scopes {
      var i :| 0 <= i < |scopes| && scopes[i] == scope;
      assert all[i] == Resource(bucket, prefix, scope);
    }
  }

  function PolicyFor(bucket: string, prefix: string, own: string, scopes: seq<string>): Policy {
    Policy(Patterns(prefix, scopes), Resources(bucket, prefix, scopes), if own == "" then None else Some(Resource(bucket, prefix, own)))
  }

  // ---- What a policy lets its holder do ----------------------------------------------------------

  /** The name the storage service checks for an object. */
  function ObjectName(bucket: string, key: string): string {
    "qrn:kodo:::bucket/" + bucket + "/" + key
  }

  predicate CanWrite(policy: Policy, bucket: string, key: string) {
    policy.writeResource.Some? && Glob(policy.writeResource.value, ObjectName(bucket, key))
  }

  predicate CanRead(policy: Policy, bucket: string, key: string) {
    exists r :: r in policy.readResources && Glob(r, ObjectName(bucket, key))
  }

  /** Objects are listed by a prefix of their keys. */
  predicate CanList(policy: Policy, prefix: string) {
    exists p :: p in policy.listPrefixes && Glob(p, prefix)
  }

  /** `key` lies below one of the scopes. */
  predicate Below(prefix: string, scopes: seq<string>, key: string) {
    exists s :: s in scopes && StartsWith(key, prefix + "/" + s + "/")
  }

  predicate PlainBucket(bucket: string) {
    '/' !in bucket
  }

  lemma SameBucket(b: string, tail: string, other: string, key: string)
    requires PlainBucket(b) && PlainBucket(other)
    ensures StartsWith(other + "/" + key, b + "/" + tail) <==> b == other && StartsWith(key, tail)
  {
    var whole, start := other + "/" + key, b + "/" + tail;
    if b == other && StartsWith(key, tail) { assert whole == start + key[|tail|..]; }
    if StartsWith(whole, start) {
      assert whole[|b|] == start[|b|] == '/' && whole[|other|] == '/';
      forall i | 0 <= i < |b| ensures whole[i] != '/' { assert whole[i] == start[i] == b[i] && b[i] in b; }
      forall i | 0 <= i < |other| ensures whole[i] != '/' { assert whole[i] == other[i] && other[i] in other; }
      assert |b| == |other|;
      assert other == whole[..|b|] == start[..|b|] == b;
      assert key == whole[|b| + 1..] && tail == start[|b| + 1..];
    }
  }

  /** A resource covers exactly the objects below its scope, in its bucket. */
  lemma ResourceGrants(b: string, prefix: string, scope: string, other: string, key: string)
    requires ValidBucket(b) && ValidPrefix(prefix) && ValidPrefix(scope) && PlainBucket(other)
    ensures Glob(Resource(b, prefix, scope), ObjectName(other, key)) <==> b == other && StartsWith(key, prefix + "/" + scope + "/")
  {
    var head, tail := "qrn:kodo:::bucket/", prefix + "/" + scope + "/";
    var literal := head + b + "/" + tail;
    assert Resource(b, prefix, scope) == literal + "*";
    ValidHasNoWildcard(prefix);
    ValidHasNoWildcard(scope);
    forall c | c in literal ensures c !in "*?" {
      if c in b { assert c in "*?" ==> c in "/\\*?"; }
    }
    LiteralThenStar(literal, ObjectName(other, key));
    assert literal == head + (b + "/" + tail) && ObjectName(other, key) == head + (other + "/" + key);
    assert ObjectName(other, key)[|head|..] == other + "/" + key && literal[|head|..] == b + "/" + tail;
    assert '/' in "/\\*?" && PlainBucket(b) by { assert ValidBucket(b); }
    SameBucket(b, tail, other, key);
    HeadsDropped(head, b + "/" + tail, other + "/" + key);
  }

  lemma HeadsDropped(head: string, a: string, b: string)
    ensures StartsWith(head + b, head + a) <==> StartsWith(b, a)
  {
    assert (head + b)[|head|..] == b && (head + a)[|head|..] == a;
    if StartsWith(head + b, head + a) {
      assert b[..|a|] == (head + b)[|head|..|head| + |a|] == (head + a)[|head|..];
    }
    if StartsWith(b, a) { assert head + b == (head + a) + b[|a|..]; }
  }

  lemma PatternGrants(prefix: string, scope: string, key: string)
    requires ValidPrefix(prefix) && ValidPrefix(scope)
    ensures Glob(Pattern(Path(prefix, scope)), key) <==> StartsWith(key, prefix + "/" + scope + "/")
  {
    ValidJoin(prefix, scope);
    GrantsBelow(Path(prefix, scope), key);
  }

  /** A policy lets its holder write exactly below the own scope, and read and list
      exactly below the scopes it may read, in its bucket only. */
  lemma PolicyGrants(b: string, prefix: string, own: string, scopes: seq<string>, other: string, key: string)
    requires ValidBucket(b) && ValidPrefix(prefix) && (own == "" || ValidPrefix(own)) && PlainBucket(other)
    requires forall s :: s in scopes ==> ValidPrefix(s)
    ensures
      var policy := PolicyFor(b, prefix, own, scopes);
      && (CanWrite(policy, other, key) <==> own != "" && b == other && StartsWith(key, prefix + "/" + own + "/"))
      && (CanRead(policy, other, key) <==> b == other && Below(prefix, scopes, key))
      && (CanList(policy, key) <==> Below(prefix, scopes, key))
  {
    var policy := PolicyFor(b, prefix, own, scopes);
    if own != "" { ResourceGrants(b, prefix, own, other, key); }
    forall s | s in scopes
      ensures Glob(Resource(b, prefix, s), ObjectName(other, key)) <==> b == other && StartsWith(key, prefix + "/" + s + "/")
      ensures Glob(Pattern(Path(prefix, s)), key) <==> StartsWith(key, prefix + "/" + s + "/")
    {
      ResourceGrants(b, prefix, s, other, key);
      PatternGrants(prefix, s, key);
    }
    ReadsBelow(b, prefix, own, scopes, other, key);
    ListsBelow(b, prefix, own, scopes, key);
  }

  lemma ReadsBelow(b: string, prefix: string, own: string, scopes: seq<string>, other: string, key: string)
    requires forall s :: s in scopes ==> (Glob(Resource(b, prefix, s), ObjectName(other, key)) <==> b == other && StartsWith(key, prefix + "/" + s + "/"))
    ensures CanRead(PolicyFor(b, prefix, own, scopes), other, key) <==> b == other && Below(prefix, scopes, key)
  {
    var policy := PolicyFor(b, prefix, own, scopes);
    if r :| r in policy.readResources && Glob(r, ObjectName(other, key)) {
      var i :| 0 <= i < |scopes| && policy.readResources[i] == r;
      assert scopes[i] in scopes;
    }
    if s :| s in scopes && b == other && StartsWith(key, prefix + "/" + s + "/") {
      ResourceSeen(b, prefix, scopes, s);
    }
  }

  lemma ListsBelow(b: string, prefix: string, own: string, scopes: seq<string>, key: string)
    requires forall s :: s in scopes ==> (Glob(Pattern(Path(prefix, s)), key) <==> StartsWith(key, prefix + "/" + s + "/"))
    ensures CanList(PolicyFor(b, prefix, own, scopes), key) <==> Below(prefix, scopes, key)
  {
    var policy := PolicyFor(b, prefix, own, scopes);
    if p :| p in policy.listPrefixes && Glob(p, key) {
      var i :| 0 <= i < |scopes| && policy.listPrefixes[i] == p;
      assert scopes[i] in scopes;
    }
    if s :| s in scopes && StartsWith(key, prefix + "/" + s + "/") {
      var i :| 0 <= i < |scopes| && scopes[i] == s;
      assert policy.listPrefixes[i] == Pattern(Path(prefix, s));
    }
  }

  lemma UniqueScopesAreValid(scopes: seq<string>)
    requires ReadScopesOk(scopes)
    ensures forall s :: s in UniqueScopes(scopes) ==> ValidPrefix(s)
  {
    UniqueScopesSpec(scopes);
  }

  predicate ReadScopesOk(scopes: seq<string>) {
    forall s :: s in scopes ==> NormalScope(s) == "" || ValidPrefix(NormalScope(s))
  }

  lemma ResourcesSnoc(bucket: string, prefix: string, scopes: seq<string>, scope: string)
    ensures Resources(bucket, prefix, scopes + [scope]) == Resources(bucket, prefix, scopes) + [Resource(bucket, prefix, scope)]
    ensures Patterns(prefix, scopes + [scope]) == Patterns(prefix, scopes) + [Pattern(Path(prefix, scope))]
  {
  }

  /** The read resources and list prefixes, or the first scope that is not well formed. */
  method CollectReadScopes(b: string, prefix: string, readScopes: seq<string>)
    returns (bad: Option<string>, listPrefixes: seq<string>, readResources: seq<string>)
    ensures bad.None? <==> ReadScopesOk(readScopes)
    ensures bad.None? ==> readResources == Resources(b, prefix, UniqueScopes(readScopes))
                          && listPrefixes == Patterns(prefix, UniqueScopes(readScopes))
  {
    bad, readResources, listPrefixes := None, [], [];
    var seenRead: set<string> := {};
    for i := 0 to |readScopes|
      invariant bad.None? && ReadScopesOk(readScopes[..i])
      invariant readResources == Resources(b, prefix, UniqueScopes(readScopes[..i])) && seenRead == Elements(readResources)
      invariant listPrefixes == Patterns(prefix, UniqueScopes(readScopes[..i]))
    {
      ghost var before := UniqueScopes(readScopes[..i]);
      assert readScopes[..i + 1] == readScopes[..i] + [readScopes[i]];
      UniqueScopesSnoc(readScopes[..i], readScopes[i]);
      var scope := NormalScope(readScopes[i]);
      if scope == "" { continue; }
      if !ValidPrefix(scope) {
        bad := Some(scope);
        return;
      }
      ResourceSeen(b, prefix, before, scope);
      ResourcesSnoc(b, prefix, before, scope);
      var res := Resource(b, prefix, scope);
      if res !in seenRead {
        seenRead := seenRead + {res};
        readResources := readResources + [res];
        listPrefixes := listPrefixes + [Pattern(Path(prefix, scope))];
      }
    }
    assert readScopes[..|readScopes|] == readScopes;
  }

  lemma GrantsFollow(b: string, prefix: string, own: string, readScopes: seq<string>)
    ensures
      var scopes := UniqueScopes(readScopes);
      ValidBucket(b) && ValidPrefix(prefix) && (own == "" || ValidPrefix(own)) && ReadScopesOk(readScopes) ==>
        var policy := PolicyFor(b, prefix, own, scopes);
        forall other, key :: PlainBucket(other) ==>
          && (CanWrite(policy, other, key) <==> own != "" && b == other && StartsWith(key, prefix + "/" + own + "/"))
          && (CanRead(policy, other, key) <==> b == other && Below(prefix, scopes, key))
          && (CanList(policy, key) <==> Below(prefix, scopes, key))
  {
    if ValidBucket(b) && ValidPrefix(prefix) && (own == "" || ValidPrefix(own)) && ReadScopesOk(readScopes) {
      var scopes := UniqueScopes(readScopes);
      var policy := PolicyFor(b, prefix, own, scopes);
      UniqueScopesAreValid(readScopes);
      forall other, key | PlainBucket(other)
        ensures CanWrite(policy, other, key) <==> own != "" && b == other && StartsWith(key, prefix + "/" + own + "/")
        ensures CanRead(policy, other, key) <==> b == other && Below(prefix, scopes, key)
        ensures CanList(policy, key) <==> Below(prefix, scopes, key)
      {
        PolicyGrants(b, prefix, own, scopes, other, key);
      }
    }
  }

  /** The policy generateCacheSTS asks for: it exists exactly when bucket, prefix
      and scopes are well formed and something may be read, and then it grants
      listing and reading of the distinct read scopes, in order, and writing of
      the own scope, if there is one. */
  method BuildPolicy(bucket: string, cachePrefix: string, ownScope: string, readScopes: seq<string>) returns (result: PolicyResult)
    ensures
      var b, prefix, own, scopes := Trim(bucket), NormalPrefix(cachePrefix), NormalScope(ownScope), UniqueScopes(readScopes);
      && (result.Ok? <==> ValidBucket(b) && ValidPrefix(prefix) && ReadScopesOk(readScopes) && scopes != [] && (own == "" || ValidPrefix(own)))
      && (result.Ok? ==> result.policy == PolicyFor(b, prefix, own, scopes))
      && (result.Ok? ==> forall other, key :: PlainBucket(other) ==>
            && (CanWrite(result.policy, other, key) <==> own != "" && b == other && StartsWith(key, prefix + "/" + own + "/"))
            && (CanRead(result.policy, other, key) <==> b == other && Below(prefix, scopes, key))
            && (CanList(result.policy, key) <==> Below(prefix, scopes, key)))
  {
    var b, prefix := Trim(bucket), NormalPrefix(cachePrefix);
    GrantsFollow(b, prefix, NormalScope(ownScope), readScopes);
    if !ValidBucket(b) { return BadBucket; }
    if !ValidPrefix(prefix) { return BadPrefix; }
    var bad, listPrefixes, readResources := CollectReadScopes(b, prefix, readScopes);
    if bad.Some? { return BadReadScope(bad.value); }
    if |readResources| == 0 { return NoReadScope; }
    var own := NormalScope(ownScope);
    if own == "" { return Ok(Policy(listPrefixes, readResources, None)); }
    if !ValidPrefix(own) { return BadOwnScope; }
    result := Ok(Policy(listPrefixes, readResources, Some(Resource(b, prefix, own))));
  }

  // ---- The prefixes injected into the sandbox ----------------------------------------------------

  /** cacheScopePrefixesJSON, before it is encoded */
  method ScopePrefixes(base: string, scopes: seq<string>) returns (prefixes: seq<string>)
    ensures prefixes == InjectedPrefixes(base, UniqueScopes(scopes))
  {
    var unique := CollectUniqueScopes(scopes);
    prefixes := [];
    for i := 0 to |unique|
      invariant prefixes == InjectedPrefixes(base, unique[..i])
    {
      prefixes := prefixes + [TrimRightSlashes(base) + "/" + unique[i]];
    }
    assert unique[..|unique|] == unique;
  }

  function InjectedPrefixes(base: string, scopes: seq<string>): (r: seq<string>)
    ensures |r| == |scopes|
  {
    seq(|scopes|, i requires 0 <= i < |scopes| => Path(TrimRightSlashes(base), scopes[i]))
  }

  /** The base prefix has no blank or slash in front and no blank at the end. */
  predicate Clean(base: string) {
    base != "" && !IsSpace(base[0]) && base[0] != '/' && !IsSpace(base[|base| - 1])
  }

  lemma SlashEndIsInvalid(front: string)
    ensures !ValidPrefix(front + "/")
  {
    SplitJoin(front, "");
    assert front + "/" + "" == front + "/";
    var parts := Split(front) + Split("");
    assert parts[|parts| - 1] == "" && parts == Split(front + "/");
    assert "" in parts;
  }

  lemma ValidEndsInText(prefix: string)
    requires ValidPrefix(prefix)
    ensures prefix[|prefix| - 1] != '/'
  {
    var front := prefix[..|prefix| - 1];
    SlashEndIsInvalid(front);
    assert prefix == front + [prefix[|prefix| - 1]];
  }

  lemma TrailingSlash(s: string)
    requires s != "" && s[|s| - 1] != '/'
    ensures TrimRightSlashes(s) == s && TrimRightSlashes(s + "/") == s
  {
    assert (s + "/")[..|s|] == s;
  }

  lemma TrimmedWhenNothingFollows(base: string)
    requires base != "" && !IsSpace(base[|base| - 1])
    ensures Trim(base) == TrimLeft(base) && TrimLeft(base) != ""
  {
    LastStays(base);
    var _ := TrimRightSpec(TrimLeft(base));
  }

  lemma {:induction false} LastStays(s: string)
    requires s != "" && !IsSpace(s[|s| - 1])
    ensures TrimLeft(s) != "" && TrimLeft(s)[|TrimLeft(s)| - 1] == s[|s| - 1]
  {
    if IsSpace(s[0]) { LastStays(s[1..]); }
  }

  lemma TrimShortens(base: string)
    requires base != "" && IsSpace(base[|base| - 1])
    ensures |Trim(base)| < |base|
  {
    var first := TrimLeftSpec(base);
    var last := TrimRightSpec(TrimLeft(base));
    assert first == 0 ==> TrimLeft(base) == base;
  }

  /** What NormalPrefix drops in front of a base that does not end in a blank. */
  lemma DroppedInFront(base: string) returns (dropped: nat)
    requires base != "" && !IsSpace(base[|base| - 1])
    ensures
      var prefix := NormalPrefix(base);
      dropped <= |base| && (base[dropped..] == prefix || base[dropped..] == prefix + "/")
    ensures dropped == 0 <==> !IsSpace(base[0]) && base[0] != '/'
  {
    TrimmedWhenNothingFollows(base);
    var blanks := TrimLeftSpec(base);
    var trimmed := base[blanks..];
    OuterSlash(trimmed);
    var slash := if trimmed[0] == '/' then 1 else 0;
    dropped := blanks + slash;
    assert base[dropped..] == trimmed[slash..];
  }

  lemma OuterSlash(s: string)
    requires s != ""
    ensures
      var left := s[if s[0] == '/' then 1 else 0..];
      left == WithoutOuterSlash(s) || left == WithoutOuterSlash(s) + "/"
  {
    var left := s[if s[0] == '/' then 1 else 0..];
    if left != "" && left[|left| - 1] == '/' { assert left == left[..|left| - 1] + "/"; }
  }

  /** Both ways of cleaning the base prefix agree exactly on clean ones. */
  lemma PrefixesAgree(base: string)
    requires ValidPrefix(NormalPrefix(base))
    ensures TrimRightSlashes(base) == NormalPrefix(base) <==> Clean(base)
  {
    var prefix := NormalPrefix(base);
    ValidEndsInText(prefix);
    if base != "" && !IsSpace(base[|base| - 1]) {
      var dropped := DroppedInFront(base);
      assert base == base[..dropped] + base[dropped..];
      RightTrimKeepsFront(base, base[..dropped], prefix);
    } else if base != "" {
      TrimShortens(base);
    }
  }

  lemma RightTrimKeepsFront(base: string, dropped: string, prefix: string)
    requires prefix != "" && prefix[|prefix| - 1] != '/'
    requires base == dropped + prefix || base == dropped + (prefix + "/")
    ensures TrimRightSlashes(base) == prefix <==> dropped == ""
  {
    TrailingSlash(dropped + prefix);
    assert dropped + (prefix + "/") == dropped + prefix + "/";
    assert |dropped + prefix| == |dropped| + |prefix|;
  }

  /** The sandbox is told to read exactly what the policy lets it list, in the
      same order, if and only if the base prefix is clean. */
  lemma InjectedMatchPolicy(base: string, scopes: seq<string>)
    requires ValidPrefix(NormalPrefix(base)) && scopes != []
    ensures
      (forall i :: 0 <= i < |scopes| ==> Patterns(NormalPrefix(base), scopes)[i] == Pattern(InjectedPrefixes(base, scopes)[i]))
      <==> Clean(base)
  {
    PrefixesAgree(base);
    var p, q := NormalPrefix(base), TrimRightSlashes(base);
    forall i | 0 <= i < |scopes|
      ensures Patterns(p, scopes)[i] == Pattern(InjectedPrefixes(base, scopes)[i]) <==> p == q
    {
      var tail := "/" + scopes[i] + "/*";
      assert Patterns(p, scopes)[i] == p + tail && Pattern(InjectedPrefixes(base, scopes)[i]) == q + tail;
      if p + tail == q + tail { assert p == (p + tail)[..|p|] == (q + tail)[..|q|] == q; }
    }
    if forall i :: 0 <= i < |scopes| ==> Patterns(p, scopes)[i] == Pattern(InjectedPrefixes(base, scopes)[i]) {
      assert Patterns(p, scopes)[0] == Pattern(InjectedPrefixes(base, scopes)[0]);
    }
  }

  // ---- The scope decision --------------------------------------------------------------------------

  datatype Repository = Repository(fullName: string, defaultBranch: string)

  datatype Run = Run(event: string, repository: Repository, headRepository: string, headBranch: string, pullRequests: seq<int>)

  datatype Pull = Pull(number: int, baseRepository: string, baseRef: string, headRepository: string)

  /** What GitHub answers; None for an error or a missing client. */
  datatype Answers = Answers(repository: Option<Repository>, run: Option<Run>, pull: Option<Pull>)

  datatype Decision = Decision(writeScope: string, readScopes: seq<string>, pullRequest: int)

  const NO_CACHE := Decision("", [], 0)

  predicate EqualFold(a: string, b: string) {
    Lower(a) == Lower(b)
  }

  predicate TrustedEvent(event: string) {
    event in ["push", "workflow_dispatch", "repository_dispatch", "delete", "registry_package", "page_build", "schedule"]
  }

  function ReadOnly(scope: Option<string>): Decision {
    if scope.None? then NO_CACHE else Decision("", [scope.value], 0)
  }

  function RepositoryDefault(digest: string -> string, repository: string, answer: Option<Repository>): Option<string> {
    if answer.None? then None
    else if !EqualFold(Trim(answer.value.fullName), repository) || Trim(answer.value.defaultBranch) == "" then None
    else Some(ScopeForBranch(digest, answer.value.defaultBranch))
  }

  /** cacheScopesForWorkflow, without the reason it reports */
  function CacheScopesForWorkflow(digest: string -> string, repository: string, runId: int, answers: Answers): Decision {
    var repositoryDefault := RepositoryDefault(digest, repository, answers.repository);
    if runId <= 0 || answers.run.None? then ReadOnly(repositoryDefault)
    else
      var run := answers.run.value;
      var branch := Trim(run.repository.defaultBranch);
      var resolved := if branch != "" then Some(ScopeForBranch(digest, branch)) else repositoryDefault;
      if resolved.None? then NO_CACHE
      else if Fold(run.event) == "pull_request" then PullRequestScopes(digest, repository, run, answers.pull, resolved.value)
      else BranchScopes(digest, repository, run, resolved.value)
  }

  function PullRequestScopes(digest: string -> string, repository: string, run: Run, answer: Option<Pull>, defaultScope: string): Decision {
    if |run.pullRequests| == 0 || run.pullRequests[0] <= 0 || answer.None? then ReadOnly(Some(defaultScope))
    else
      var pull := answer.value;
      var base := Trim(pull.baseRepository);
      if pull.number != run.pullRequests[0] || base == "" || Trim(pull.baseRef) == "" || Trim(pull.headRepository) == "" ||
         !EqualFold(base, repository)
      then ReadOnly(Some(defaultScope))
      else
        var own := ScopeForPR(pull.number);
        Decision(own, UniqueScopes([own, ScopeForBranch(digest, Trim(pull.baseRef)), defaultScope]), pull.number)
  }

  function BranchScopes(digest: string -> string, repository: string, run: Run, defaultScope: string): Decision {
    var head, base, branch := Trim(run.headRepository), Trim(run.repository.fullName), Trim(run.headBranch);
    if Fold(run.event) in ["pull_request_target", "workflow_run", "issue_comment"] then ReadOnly(Some(defaultScope))
    else if head == "" || base == "" || !EqualFold(base, repository) || !EqualFold(head, base) then ReadOnly(Some(defaultScope))
    else if branch == "" || !TrustedEvent(Fold(run.event)) then ReadOnly(Some(defaultScope))
    else
      var own := ScopeForBranch(digest, branch);
      Decision(own, UniqueScopes([own, defaultScope]), 0)
  }

  lemma {:induction false} PlainIsNormal(s: string)
    requires Plain(s)
    ensures Trim(s) == s && NormalScope("scopes/" + s) == "scopes/" + s
  {
    var scope := "scopes/" + s;
    assert s[0] in s && s[|s| - 1] in s;
    assert scope[|scope| - 1] == s[|s| - 1];
  }

  lemma ScopeIsNormal(digest: string -> string, scope: Scope)
    requires forall b :: Hex(digest(b))
    ensures NormalScope(ScopePath(digest, scope)) == ScopePath(digest, scope)
  {
    match scope
    case PullRequest(number) =>
      var name := "pr-" + if number <= 0 then "unknown" else Decimal(number);
      PlainIsNormal(name);
      assert ScopeForPR(number) == "scopes/" + name;
    case Branch(name) =>
      var hash := digest(BranchName(name));
      PlainIsNormal("branch-" + hash);
      assert ScopeForBranch(digest, name) == "scopes/" + ("branch-" + hash);
  }

  /** `s` is the scope of some pull request or branch. */
  ghost predicate IsScope(digest: string -> string, s: string) {
    exists scope :: ScopePath(digest, scope) == s
  }

  lemma ScopeFacts(digest: string -> string, s: string)
    requires (forall b :: Hex(digest(b))) && IsScope(digest, s)
    ensures NormalScope(s) == s && ValidPrefix(s) && s != ""
  {
    var scope :| ScopePath(digest, scope) == s;
    ScopePathIsValid(digest, scope);
    ScopeIsNormal(digest, scope);
  }

  lemma UniqueOfScopes(digest: string -> string, scopes: seq<string>)
    requires (forall b :: Hex(digest(b))) && forall s :: s in scopes ==> IsScope(digest, s)
    ensures forall s :: s in UniqueScopes(scopes) <==> s in scopes
  {
    UniqueScopesSpec(scopes);
    forall s | s in scopes ensures NormalScope(s) == s && s != "" { ScopeFacts(digest, s); }
  }

  predicate Readable(d: Decision) {
    d.writeScope != "" ==> d.writeScope in d.readScopes
  }

  lemma PullRequestDecision(digest: string -> string, repository: string, run: Run, answer: Option<Pull>, defaultScope: string)
    requires (forall b :: Hex(digest(b))) && IsScope(digest, defaultScope)
    ensures
      var d := PullRequestScopes(digest, repository, run, answer, defaultScope);
      Readable(d) && d.readScopes != [] && forall s :: s in d.readScopes ==> IsScope(digest, s)
  {
    if answer.Some? {
      var own, base := ScopeForPR(answer.value.number), ScopeForBranch(digest, Trim(answer.value.baseRef));
      assert ScopePath(digest, PullRequest(answer.value.number)) == own;
      assert ScopePath(digest, Branch(Trim(answer.value.baseRef))) == base;
      UniqueOfScopes(digest, [own, base, defaultScope]);
      assert own in [own, base, defaultScope];
    }
  }

  lemma BranchDecision(digest: string -> string, repository: string, run: Run, defaultScope: string)
    requires (forall b :: Hex(digest(b))) && IsScope(digest, defaultScope)
    ensures
      var d := BranchScopes(digest, repository, run, defaultScope);
      Readable(d) && d.readScopes != [] && forall s :: s in d.readScopes ==> IsScope(digest, s)
  {
    var own := ScopeForBranch(digest, Trim(run.headBranch));
    assert ScopePath(digest, Branch(Trim(run.headBranch))) == own;
    UniqueOfScopes(digest, [own, defaultScope]);
    assert own in [own, defaultScope];
  }

  /** Every decision names only well-formed scopes and lets a writer read what it writes. */
  lemma DecisionIsSound(digest: string -> string, repository: string, runId: int, answers: Answers)
    requires forall b :: Hex(digest(b))
    ensures
      var d := CacheScopesForWorkflow(digest, repository, runId, answers);
      Readable(d) && (d != NO_CACHE <==> d.readScopes != []) && forall s :: s in d.readScopes ==> IsScope(digest, s)
  {
    var fallback := RepositoryDefault(digest, repository, answers.repository);
    if fallback.Some? {
      assert ScopePath(digest, Branch(answers.repository.value.defaultBranch)) == fallback.value;
    }
    if answers.run.Some? {
      var branch := Trim(answers.run.value.repository.defaultBranch);
      assert ScopePath(digest, Branch(branch)) == ScopeForBranch(digest, branch);
      var resolved := if branch != "" then Some(ScopeForBranch(digest, branch)) else fallback;
      if resolved.Some? {
        PullRequestDecision(digest, repository, answers.run.value, answers.pull, resolved.value);
        BranchDecision(digest, repository, answers.run.value, resolved.value);
      }
    }
  }

  /** With a well-formed bucket and base prefix the policy is issued for every
      decision that grants anything, and what it lets the runner write it also
      lets it read. */
  lemma DecidedPolicy(digest: string -> string, repository: string, runId: int, answers: Answers, bucket: string, prefix: string)
    requires forall b :: Hex(digest(b))
    ensures
      var d := CacheScopesForWorkflow(digest, repository, runId, answers);
      var own, scopes := NormalScope(d.writeScope), UniqueScopes(d.readScopes);
      && (d != NO_CACHE ==> ReadScopesOk(d.readScopes) && scopes != [] && (own == "" || ValidPrefix(own)))
      && (own == "" <==> d.writeScope == "")
      && var policy := PolicyFor(bucket, prefix, own, scopes);
      policy.writeResource.Some? ==> policy.writeResource.value in policy.readResources
  {
    DecisionIsSound(digest, repository, runId, answers);
    var d := CacheScopesForWorkflow(digest, repository, runId, answers);
    forall s | s in d.readScopes ensures NormalScope(s) == s && ValidPrefix(s) && s != "" { ScopeFacts(digest, s); }
    UniqueOfScopes(digest, d.readScopes);
    if d.readScopes != [] { assert d.readScopes[0] in UniqueScopes(d.readScopes); }
    if d.writeScope != "" {
      ResourceSeen(bucket, prefix, UniqueScopes(d.readScopes), d.writeScope);
    }
  }

  /** A run whose head is not the repository itself never writes to a branch's scope. */
  lemma ForksWriteNoBranch(digest: string -> string, repository: string, runId: int, answers: Answers, branch: string)
    requires (forall b :: Hex(digest(b))) && answers.run.Some?
    requires
      var run := answers.run.value;
      !EqualFold(Trim(run.headRepository), Trim(run.repository.fullName)) || !EqualFold(Trim(run.repository.fullName), repository)
    ensures CacheScopesForWorkflow(digest, repository, runId, answers).writeScope != ScopeForBranch(digest, branch)
  {
    if answers.pull.Some? { PullRequestIsNoBranch(digest, answers.pull.value.number, branch); }
  }
}
