/** The string operations the server relies on, for ASCII text. */
module Text {
  import opened Sorting

  predicate IsSpace(c: char) {
    c == ' ' || '\t' <= c <= '\r'
  }

  function LowerChar(c: char): char {
    if 'A' <= c <= 'Z' then c - 'A' + 'a' else c
  }

  /** strings.ToLower */
  function Lower(s: string): (r: string)
    ensures |r| == |s|
  {
    seq(|s|, i requires 0 <= i < |s| => LowerChar(s[i]))
  }

  function TrimLeft(s: string): string {
    if s != [] && IsSpace(s[0]) then TrimLeft(s[1..]) else s
  }

  function TrimRight(s: string): string {
    if s != [] && IsSpace(s[|s| - 1]) then TrimRight(s[..|s| - 1]) else s
  }

  /** strings.TrimSpace */
  function Trim(s: string): string {
    TrimRight(TrimLeft(s))
  }

  lemma {:induction false} TrimLeftSpec(s: string) returns (k: nat)
    ensures k <= |s| && TrimLeft(s) == s[k..]
    ensures s != "" ==> (k == 0 <==> !IsSpace(s[0]))
  {
    k := 0;
    if s != "" && IsSpace(s[0]) {
      var rest := TrimLeftSpec(s[1..]);
      k := rest + 1;
      assert s[1..][rest..] == s[k..];
    }
  }

  lemma {:induction false} TrimRightSpec(s: string) returns (k: nat)
    ensures k <= |s| && TrimRight(s) == s[..k]
    ensures s != "" ==> (k == |s| <==> !IsSpace(s[|s| - 1]))
  {
    k := |s|;
    if s != "" && IsSpace(s[|s| - 1]) {
      k := TrimRightSpec(s[..|s| - 1]);
      assert s[..|s| - 1][..k] == s[..k];
    }
  }

  /** The form in which names and labels are compared. */
  function Fold(s: string): string {
    Lower(Trim(s))
  }

  /** Go's string order. */
  predicate Precedes(a: string, b: string) {
    if b == [] then false
    else if a == [] then true
    else a[0] < b[0] || (a[0] == b[0] && Precedes(a[1..], b[1..]))
  }

  /** They agree up to position `k`, where `a` ends or has the smaller character. */
  predicate SmallerAt(a: string, b: string, k: nat) {
    k <= |a| && k < |b| && (forall i :: 0 <= i < k ==> a[i] == b[i]) && (k == |a| || a[k] < b[k])
  }

  /** The order is the dictionary's: a beginning comes first, otherwise the first difference decides. */
  lemma {:induction false} PrecedesMeans(a: string, b: string)
    ensures Precedes(a, b) <==> exists k: nat :: SmallerAt(a, b, k)
  {
    if a == [] && b != [] { assert SmallerAt(a, b, 0); }
    if a != [] && b != [] && a[0] == b[0] {
      PrecedesMeans(a[1..], b[1..]);
      if k: nat :| SmallerAt(a[1..], b[1..], k) {
        forall i | 0 <= i < k + 1 ensures a[i] == b[i] { if i > 0 { assert a[i] == a[1..][i - 1] && b[i] == b[1..][i - 1]; } }
        assert SmallerAt(a, b, k + 1);
      }
      if k: nat :| SmallerAt(a, b, k) { assert SmallerAt(a[1..], b[1..], k - 1); }
    }
    if a != [] && b != [] && a[0] < b[0] { assert SmallerAt(a, b, 0); }
    if a != [] && b != [] && a[0] > b[0] {
      forall k: nat ensures !SmallerAt(a, b, k) {
      }
    }
  }

  lemma {:induction false} PrecedesIsStrict(a: string)
    ensures !Precedes(a, a)
  {
    if a != [] { PrecedesIsStrict(a[1..]); }
  }

  lemma {:induction false} PrecedesIsTotal(a: string, b: string)
    requires a != b
    ensures Precedes(a, b) || Precedes(b, a)
  {
    if a != [] && b != [] && a[0] == b[0] {
      assert a == [a[0]] + a[1..] && b == [b[0]] + b[1..];
      PrecedesIsTotal(a[1..], b[1..]);
    }
  }

  lemma {:induction false} PrecedesIsTransitive(a: string, b: string, c: string)
    requires Precedes(a, b) && Precedes(b, c)
    ensures Precedes(a, c)
  {
    if a != [] && a[0] == b[0] == c[0] { PrecedesIsTransitive(a[1..], b[1..], c[1..]); }
  }

  lemma PrecedesOrders(s: set<string>)
    ensures Orders(Precedes, s)
  {
    forall x ensures !Precedes(x, x) { PrecedesIsStrict(x); }
    forall x, y | x != y ensures Precedes(x, y) || Precedes(y, x) { PrecedesIsTotal(x, y); }
    forall x, y, z | Precedes(x, y) && Precedes(y, z) ensures Precedes(x, z) { PrecedesIsTransitive(x, y, z); }
  }
}
