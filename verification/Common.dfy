/** Small vocabulary every other module shares. */
module Common {
  datatype Option<+T> = None | Some(value: T)

  function Min(a: int, b: int): int {
    if a <= b then a else b
  }

  function Max(a: int, b: int): int {
    if a < b then b else a
  }

  // ---- Sizes of finite sets ---------------------------------------------------

  lemma SubsetSize<T>(a: set<T>, b: set<T>)
    requires a <= b
    ensures |a| <= |b|
  {
    if a != {} {
      var x :| x in a;
      SubsetSize(a - {x}, b - {x});
    }
  }

  lemma SomeElement<T>(s: set<T>) returns (x: T)
    requires |s| > 0
    ensures x in s
  {
    x :| x in s;
  }

  function Elements<T>(s: seq<T>): set<T> {
    set x | x in s
  }

  lemma ElementsOfConcat<T>(a: seq<T>, b: seq<T>)
    ensures Elements(a + b) == Elements(a) + Elements(b)
  {
  }

  predicate Distinct<T(==)>(s: seq<T>) {
    forall i, j :: 0 <= i < j < |s| ==> s[i] != s[j]
  }

  lemma {:induction false} DistinctSize<T>(s: seq<T>)
    requires Distinct(s)
    ensures |Elements(s)| == |s|
  {
    if s != [] {
      DistinctSize(s[1..]);
      assert Elements(s) == Elements(s[1..]) + {s[0]};
    }
  }

  lemma {:induction false} ElementsSize<T>(s: seq<T>)
    ensures |Elements(s)| <= |s|
  {
    if s != [] {
      ElementsSize(s[1..]);
      assert Elements(s) == Elements(s[1..]) + {s[0]};
    }
  }

  lemma {:induction false} BoundedSize(a: set<int>, lo: int, hi: int)
    requires lo <= hi && forall x :: x in a ==> lo <= x < hi
    ensures |a| <= hi - lo
    decreases hi - lo
  {
    if lo < hi { BoundedSize(a - {hi - 1}, lo, hi - 1); }
  }

  /** Distinct integers below `hi` do not all fit above `hi - |s|`. */
  lemma LowOne(s: seq<int>, hi: int) returns (v: nat)
    requires s != [] && Distinct(s) && forall x :: x in s ==> x < hi
    ensures v < |s| && s[v] <= hi - |s|
  {
    DistinctSize(s);
    if forall x :: x in s ==> hi - |s| < x {
      BoundedSize(Elements(s), hi - |s| + 1, hi);
    }
    var x :| x in s && x <= hi - |s|;
    v :| v < |s| && s[v] == x;
  }

  // ---- Integer division ---------------------------------------------------------

  lemma MultiplyBoth(a: int, b: int, k: int)
    requires a <= b && k >= 0
    ensures a * k <= b * k
  {
  }

  lemma FloorShare(x: int, k: int, q: int)
    requires k > 0
    ensures q * k <= x <==> q <= x / k
  {
    assert x == (x / k) * k + x % k;
    if q <= x / k {
      MultiplyBoth(q, x / k, k);
    } else {
      MultiplyBoth(x / k + 1, q, k);
      assert (x / k + 1) * k == (x / k) * k + k;
    }
  }

  // ---- Filtering ------------------------------------------------------------------

  function Filter<T>(s: seq<T>, p: T -> bool): seq<T> {
    if s == [] then []
    else
      var x := s[|s| - 1];
      Filter(s[..|s| - 1], p) + (if p(x) then [x] else [])
  }

  lemma FilterSnoc<T>(s: seq<T>, x: T, p: T -> bool)
    ensures Filter(s + [x], p) == Filter(s, p) + (if p(x) then [x] else [])
  {
    assert (s + [x])[..|s|] == s;
  }

  lemma {:induction false} FilterMembers<T>(s: seq<T>, p: T -> bool)
    ensures forall x :: x in Filter(s, p) <==> x in s && p(x)
  {
    if s != [] {
      FilterMembers(s[..|s| - 1], p);
      assert s == s[..|s| - 1] + [s[|s| - 1]];
    }
  }
}
