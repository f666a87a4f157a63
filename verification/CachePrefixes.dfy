/** The way of a configured cache prefix from the account's settings to a
    repository's base prefix, and when what the sandbox is told agrees with what
    the storage policy grants. */
module CachePrefixes {
  import opened Common
  import opened Text
  import opened CacheScopes

  const DEFAULT_PREFIX := "gh-actions-cache"

  /** The prefix the settings handler keeps, if it accepts the input. */
  function Accepted(input: string): Option<string> {
    var prefix := NormalScope(input);
    if prefix == "" || ValidPrefix(prefix) then Some(prefix) else None
  }

  /** newCacheS3 trims the kept prefix once more. */
  function StoragePrefix(kept: string): string {
    var prefix := NormalScope(kept);
    if prefix == "" then DEFAULT_PREFIX else prefix
  }

  function BasePrefix(kept: string, repository: string): string {
    Path(StoragePrefix(kept), repository)
  }

  /** Neither a blank nor a slash. */
  predicate IsText(c: char) {
    !IsSpace(c) && c != '/'
  }

  lemma {:induction false} LeftSlashesGone(s: string)
    ensures TrimLeftSlashes(s) != "" ==> TrimLeftSlashes(s)[0] != '/'
  {
    if s != "" && s[0] == '/' { LeftSlashesGone(s[1..]); }
  }

  lemma {:induction false} RightTrimKeepsFirst(s: string)
    ensures TrimRightSlashes(s) != "" ==> s != "" && TrimRightSlashes(s)[0] == s[0]
  {
    if s != "" && s[|s| - 1] == '/' { RightTrimKeepsFirst(s[..|s| - 1]); }
  }

  lemma StoragePrefixStart(kept: string)
    ensures StoragePrefix(kept) != "" && StoragePrefix(kept)[0] != '/'
  {
    LeftSlashesGone(Trim(kept));
    RightTrimKeepsFirst(TrimLeftSlashes(Trim(kept)));
  }

  /** For an accepted prefix and a repository's full name, which ends neither in a
      blank nor in a slash, the sandbox reads and writes exactly where the policy
      lets it if and only if the trimmed prefix does not start with a blank. */
  lemma ConfiguredPrefixAgrees(input: string, repository: string, scopes: seq<string>, own: string)
    requires Accepted(input).Some? && scopes != []
    requires repository != "" && IsText(repository[|repository| - 1])
    requires ValidPrefix(NormalPrefix(BasePrefix(Accepted(input).value, repository)))
    ensures
      var kept := Accepted(input).value;
      var base, agrees := BasePrefix(kept, repository), !IsSpace(StoragePrefix(kept)[0]);
      && ((forall i :: 0 <= i < |scopes| ==> Patterns(NormalPrefix(base), scopes)[i] == Pattern(InjectedPrefixes(base, scopes)[i])) <==> agrees)
      && (Path(base, own) == Path(NormalPrefix(base), own) <==> agrees)
  {
    var kept := Accepted(input).value;
    var base := BasePrefix(kept, repository);
    StoragePrefixStart(kept);
    assert base[0] == StoragePrefix(kept)[0] && base[|base| - 1] == repository[|repository| - 1];
    InjectedMatchPolicy(base, scopes);
    PrefixesAgree(base);
    TrailingSlash(base);
    SameFront(base, NormalPrefix(base), own);
  }

  lemma SameFront(a: string, b: string, scope: string)
    ensures Path(a, scope) == Path(b, scope) <==> a == b
  {
    if Path(a, scope) == Path(b, scope) {
      assert |a| == |b|;
      assert a == Path(a, scope)[..|a|] == Path(b, scope)[..|b|] == b;
    }
  }

  // ---- In terms of what was typed ----------------------------------------------------------

  predicate Junk(s: string) {
    forall c :: c in s ==> !IsText(c)
  }

  /** How often a slash is directly followed by a blank. */
  function Breaks(s: string): nat {
    if |s| < 2 then 0 else (if s[0] == '/' && IsSpace(s[1]) then 1 else 0) + Breaks(s[1..])
  }

  /** What one trim takes off the front: blanks, then slashes. */
  function Front(s: string): string {
    TrimLeftSlashes(TrimLeft(s))
  }

  lemma {:induction false} BlanksGone(u: string)
    requires Junk(u)
    ensures Junk(TrimLeft(u)) && Breaks(TrimLeft(u)) == Breaks(u)
    ensures TrimLeft(u) != "" ==> TrimLeft(u)[0] == '/'
  {
    if u != "" {
      assert u[0] in u;
      if IsSpace(u[0]) { BlanksGone(u[1..]); }
    }
  }

  lemma {:induction false} SlashesGone(u: string)
    requires Junk(u) && u != "" && u[0] == '/'
    ensures Junk(TrimLeftSlashes(u))
    ensures if TrimLeftSlashes(u) == "" then Breaks(u) == 0 else Breaks(u) == Breaks(TrimLeftSlashes(u)) + 1
  {
    if |u| > 1 {
      assert u[1] in u && Junk(u[1..]);
      if u[1] == '/' { SlashesGone(u[1..]); }
    }
  }

  /** One trim takes away one break, and everything when there is none. */
  lemma TrimTakesOneBreak(u: string)
    requires Junk(u)
    ensures Junk(Front(u)) && (Front(u) == "" <==> Breaks(u) == 0)
    ensures Front(u) != "" ==> Breaks(u) == Breaks(Front(u)) + 1
  {
    BlanksGone(u);
    if TrimLeft(u) != "" { SlashesGone(TrimLeft(u)); }
  }

  lemma {:induction false} TrimLeftStops(u: string, v: string)
    requires v != "" && IsText(v[0])
    ensures TrimLeft(u + v) == TrimLeft(u) + v
  {
    if u == "" { assert u + v == v; } else {
      assert (u + v)[1..] == u[1..] + v;
      if IsSpace(u[0]) { TrimLeftStops(u[1..], v); }
    }
  }

  lemma {:induction false} TrimLeftSlashesStops(u: string, v: string)
    requires v != "" && IsText(v[0])
    ensures TrimLeftSlashes(u + v) == TrimLeftSlashes(u) + v
  {
    if u == "" { assert u + v == v; } else {
      assert (u + v)[1..] == u[1..] + v;
      if u[0] == '/' { TrimLeftSlashesStops(u[1..], v); }
    }
  }

  lemma {:induction false} TrimRightStops(u: string, v: string) returns (w: string)
    requires v != "" && IsText(v[0])
    ensures TrimRight(u + v) == u + w && w != "" && w[0] == v[0]
    decreases |v|
  {
    w := v;
    if IsSpace(v[|v| - 1]) {
      assert (u + v)[..|u + v| - 1] == u + v[..|v| - 1];
      w := TrimRightStops(u, v[..|v| - 1]);
    }
  }

  lemma {:induction false} TrimRightSlashesStops(u: string, v: string) returns (w: string)
    requires v != "" && IsText(v[0])
    ensures TrimRightSlashes(u + v) == u + w && w != "" && w[0] == v[0]
    decreases |v|
  {
    w := v;
    if v[|v| - 1] == '/' {
      assert (u + v)[..|u + v| - 1] == u + v[..|v| - 1];
      w := TrimRightSlashesStops(u, v[..|v| - 1]);
    }
  }

  lemma TrimFront(u: string, v: string) returns (w: string)
    requires v != "" && IsText(v[0])
    ensures NormalScope(u + v) == Front(u) + w && w != "" && w[0] == v[0]
  {
    TrimLeftStops(u, v);
    var once := TrimRightStops(TrimLeft(u), v);
    TrimLeftSlashesStops(TrimLeft(u), once);
    w := TrimRightSlashesStops(Front(u), once);
  }

  /** A prefix with some text keeps a leading blank exactly when, in front of the
      text, a slash is followed by a blank at least twice. */
  lemma BlankSurvives(u: string, v: string)
    requires Junk(u) && v != "" && IsText(v[0])
    ensures IsSpace(StoragePrefix(NormalScope(u + v))[0]) <==> Breaks(u) >= 2
  {
    var w := TrimFront(u, v);
    var w' := TrimFront(Front(u), w);
    TrimTakesOneBreak(u);
    TrimTakesOneBreak(Front(u));
    var rest := Front(Front(u));
    assert StoragePrefix(NormalScope(u + v)) == rest + w';
    LeftSlashesGone(TrimLeft(Front(u)));
    if rest != "" { assert rest[0] in rest; }
  }

  lemma Ends(s: string)
    requires s != "" && IsText(s[|s| - 1])
    ensures TrimRight(s) == s && TrimRightSlashes(s) == s
  {
  }

  lemma FirstTrim()
    ensures NormalScope("/ / foo") == " / foo"
  {
    var typed, kept := "/ / foo", " / foo";
    Ends(typed);
    assert typed[1..] == kept;
    Ends(kept);
  }

  lemma SecondTrim()
    ensures NormalScope(" / foo") == " foo"
  {
    var kept, slash, stored := " / foo", "/ foo", " foo";
    assert kept[1..] == slash && slash[1..] == stored;
    Ends(slash);
    Ends(stored);
  }

  lemma KeptIsValid()
    ensures ValidPrefix(" / foo")
  {
    NoSlash(" ");
    NoSlash(" foo");
    ValidJoin(" ", " foo");
    assert " " + "/" + " foo" == " / foo";
  }

  lemma PolicyPrefix()
    ensures ValidPrefix("foo/o/r") && NormalPrefix(" foo/o/r") == "foo/o/r"
  {
    assert " foo/o/r"[1..] == "foo/o/r";
    Ends("foo/o/r");
    PlainIsValid("foo");
    PlainIsValid("o");
    PlainIsValid("r");
    ValidJoin("o", "r");
    ValidJoin("foo", "o" + "/" + "r");
    assert "foo" + "/" + ("o" + "/" + "r") == "foo/o/r";
  }

  /** An accepted prefix under which the sandbox is sent where its credentials do not reach. */
  lemma AcceptedButUseless(own: string, name: string)
    requires ValidPrefix(own)
    ensures
      var input, repository := "/ / foo", "o/r";
      && Accepted(input).Some?
      && var base := BasePrefix(Accepted(input).value, repository);
      && ValidPrefix(NormalPrefix(base))
      && !Grants(Path(NormalPrefix(base), own), Path(base, own) + "/" + name)
  {
    FirstTrim();
    KeptIsValid();
    SecondTrim();
    PolicyPrefix();
    var base := BasePrefix(" / foo", "o/r");
    assert base == " foo/o/r";
    ValidJoin("foo/o/r", own);
    GrantsBelow(Path("foo/o/r", own), Path(base, own) + "/" + name);
    assert (Path("foo/o/r", own) + "/")[0] == 'f' && (Path(base, own) + "/" + name)[0] == ' ';
  }
}
