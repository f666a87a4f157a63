/** Sorting a finite set by a strict order: what `sort.Slice` and ORDER BY leave
    behind when no two elements compare equal. */
module Sorting {
  import opened Common

  /** `before` is a strict total order on `s`. */
  ghost predicate Orders<T(!new)>(before: (T, T) -> bool, s: set<T>) {
    && (forall x :: x in s ==> !before(x, x))
    && (forall x, y :: x in s && y in s && x != y ==> before(x, y) || before(y, x))
    && (forall x, y, z :: x in s && y in s && z in s && before(x, y) && before(y, z) ==> before(x, z))
  }

  predicate Least<T(==)>(before: (T, T) -> bool, s: set<T>, x: T) {
    x in s && forall y :: y in s && y != x ==> before(x, y)
  }

  lemma {:induction false} LeastExists<T(!new)>(before: (T, T) -> bool, s: set<T>) returns (x: T)
    requires Orders(before, s) && s != {}
    ensures Least(before, s, x)
    decreases |s|
  {
    x :| x in s;
    if s - {x} != {} {
      var y := LeastExists(before, s - {x});
      if before(y, x) {
        forall z | z in s && z != y ensures before(y, z) {
          assert z != x ==> z in s - {x};
        }
        x := y;
      }
    }
  }

  lemma LeastIsUnique<T(!new)>(before: (T, T) -> bool, s: set<T>, x: T, y: T)
    requires Orders(before, s) && Least(before, s, x) && Least(before, s, y)
    ensures x == y
  {
    assert x != y ==> before(x, y) && before(y, x) && before(x, x);
  }

  /** The elements of `s`, each before the next. */
  ghost function Sort<T(!new)>(before: (T, T) -> bool, s: set<T>): seq<T>
    requires Orders(before, s)
  {
    if s == {} then []
    else
      assert exists x :: Least(before, s, x) by { var x := LeastExists(before, s); }
      var x :| Least(before, s, x);
      [x] + Sort(before, s - {x})
  }

  ghost predicate Ascending<T(!new)>(before: (T, T) -> bool, s: seq<T>) {
    forall i, j :: 0 <= i < j < |s| ==> before(s[i], s[j])
  }

  lemma AscendingConcat<T(!new)>(before: (T, T) -> bool, a: seq<T>, b: seq<T>)
    requires Ascending(before, a) && Ascending(before, b)
    requires forall x, y :: x in a && y in b ==> before(x, y)
    ensures Ascending(before, a + b)
  {
    forall i, j | 0 <= i < j < |a + b| ensures before((a + b)[i], (a + b)[j]) {
      if i < |a| <= j { assert a[i] in a && b[j - |a|] in b; }
    }
  }

  lemma {:induction false} SortElements<T(!new)>(before: (T, T) -> bool, s: set<T>)
    requires Orders(before, s)
    ensures Elements(Sort(before, s)) == s && |Sort(before, s)| == |s|
  {
    if s != {} {
      var x := Sort(before, s)[0];
      SortElements(before, s - {x});
      ElementsOfConcat([x], Sort(before, s - {x}));
    }
  }

  lemma {:induction false} SortAscends<T(!new)>(before: (T, T) -> bool, s: set<T>)
    requires Orders(before, s)
    ensures Ascending(before, Sort(before, s))
  {
    if s != {} {
      var x := Sort(before, s)[0];
      var rest := Sort(before, s - {x});
      SortAscends(before, s - {x});
      SortElements(before, s - {x});
      assert forall y :: y in rest ==> y in Elements(rest);
      AscendingConcat(before, [x], rest);
    }
  }

  lemma SortSpec<T(!new)>(before: (T, T) -> bool, s: set<T>)
    requires Orders(before, s)
    ensures Elements(Sort(before, s)) == s && |Sort(before, s)| == |s|
    ensures Ascending(before, Sort(before, s)) && Distinct(Sort(before, s))
  {
    SortElements(before, s);
    SortAscends(before, s);
    var sorted := Sort(before, s);
    forall i, j | 0 <= i < j < |sorted| ensures sorted[i] != sorted[j] {
      assert before(sorted[i], sorted[j]) && sorted[i] in Elements(sorted);
    }
  }

  lemma {:induction false} AscendingIsSort<T(!new)>(before: (T, T) -> bool, s: seq<T>)
    requires Orders(before, Elements(s)) && Ascending(before, s)
    ensures s == Sort(before, Elements(s))
  {
    if s != [] {
      var all := Elements(s);
      assert s[0] in all;
      assert Least(before, all, s[0]);
      var least := Sort(before, all)[0];
      LeastIsUnique(before, all, s[0], least);
      assert forall i :: 1 <= i < |s| ==> before(s[0], s[i]);
      assert Elements(s[1..]) == all - {s[0]} by {
        forall x | x in all - {s[0]} ensures x in s[1..] {
          var i :| 0 <= i < |s| && s[i] == x;
          assert s[1..][i - 1] == x;
        }
      }
      AscendingIsSort(before, s[1..]);
    }
  }

  ghost predicate InitialPart<T(!new)>(before: (T, T) -> bool, part: set<T>, s: set<T>) {
    part <= s && forall x, y :: x in part && y in s && y !in part ==> before(x, y)
  }

  lemma PartOrders<T(!new)>(before: (T, T) -> bool, part: set<T>, s: set<T>)
    requires Orders(before, s) && part <= s
    ensures Orders(before, part)
  {
  }

  lemma SortedJoin<T(!new)>(before: (T, T) -> bool, a: set<T>, b: set<T>)
    requires Orders(before, a) && Orders(before, b)
    requires forall x, y :: x in a && y in b ==> before(x, y)
    ensures Ascending(before, Sort(before, a) + Sort(before, b))
    ensures Elements(Sort(before, a) + Sort(before, b)) == a + b
  {
    SortSpec(before, a);
    SortSpec(before, b);
    var sa, sb := Sort(before, a), Sort(before, b);
    ElementsOfConcat(sa, sb);
    forall x, y | x in sa && y in sb ensures before(x, y) {
      assert x in Elements(sa) && y in Elements(sb);
    }
    AscendingConcat(before, sa, sb);
  }

  /** A set that comes before the rest is sorted first. */
  lemma SortSplits<T(!new)>(before: (T, T) -> bool, part: set<T>, s: set<T>)
    requires Orders(before, s) && InitialPart(before, part, s)
    ensures Orders(before, part) && Orders(before, s - part)
    ensures Sort(before, s) == Sort(before, part) + Sort(before, s - part)
  {
    PartOrders(before, part, s);
    PartOrders(before, s - part, s);
    SortedJoin(before, part, s - part);
    assert part + (s - part) == s;
    AscendingIsSort(before, Sort(before, part) + Sort(before, s - part));
  }

  ghost function Top<T(!new)>(before: (T, T) -> bool, s: set<T>, k: nat): seq<T>
    requires Orders(before, s)
  {
    var sorted := Sort(before, s);
    sorted[..Min(k, |sorted|)]
  }

  lemma TopIsInitial<T(!new)>(before: (T, T) -> bool, s: set<T>, k: nat)
    requires Orders(before, s)
    ensures InitialPart(before, Elements(Top(before, s, k)), s)
    ensures |Elements(Top(before, s, k))| == Min(k, |s|)
    ensures Sort(before, Elements(Top(before, s, k))) == Top(before, s, k)
  {
    var sorted, top := Sort(before, s), Top(before, s, k);
    SortSpec(before, s);
    DistinctSize(top);
    AscendingIsSort(before, top);
    forall x, y | x in top && y in s && y !in top ensures before(x, y) {
      var i :| 0 <= i < |top| && top[i] == x;
      assert y in Elements(sorted);
      var j :| 0 <= j < |sorted| && sorted[j] == y;
      assert forall l :: 0 <= l < |top| ==> sorted[l] == top[l] != y;
    }
    forall x | x in top ensures x in s { assert x in Elements(sorted); }
  }

  /** What is among the first `k` of the whole is among the first `k` of its part. */
  lemma TopOfPart<T(!new)>(before: (T, T) -> bool, all: set<T>, part: set<T>, k: nat, x: T)
    requires Orders(before, all) && part <= all
    requires x in Top(before, all, k) && x in part
    ensures x in Top(before, part, k)
  {
    var first, mine := Elements(Top(before, all, k)), Elements(Top(before, part, k));
    TopIsInitial(before, all, k);
    TopIsInitial(before, part, k);
    if x !in mine {
      SubsetSize(mine + {x}, part);
      assert forall y :: y in mine && y !in first ==> before(x, y) && before(y, x);
      SubsetSize(mine + {x}, first);
    }
  }

  /** Cutting every part to its first `k` before merging does not change the first `k` of the whole. */
  lemma TopOfMerged<T(!new)>(before: (T, T) -> bool, all: set<T>, merged: set<T>, k: nat)
    requires Orders(before, all) && merged <= all
    requires forall x :: x in Top(before, all, k) ==> x in merged
    ensures Top(before, merged, k) == Top(before, all, k)
    ensures k <= |all| ==> k <= |merged|
  {
    var first := Elements(Top(before, all, k));
    TopIsInitial(before, all, k);
    SortSplits(before, first, all);
    SortSplits(before, first, merged);
    SortSpec(before, all);
    SortSpec(before, merged);
    SubsetSize(first, merged);
    SubsetSize(merged, all);
  }

  method SortSet<T(!new, ==)>(before: (T, T) -> bool, s: set<T>) returns (sorted: seq<T>)
    requires Orders(before, s)
    ensures sorted == Sort(before, s)
  {
    sorted := [];
    var rest := s;
    while rest != {}
      invariant rest <= s && Orders(before, rest)
      invariant Sort(before, s) == sorted + Sort(before, rest)
    {
      ghost var least := LeastExists(before, rest);
      var x :| x in rest && Least(before, rest, x);
      LeastIsUnique(before, rest, x, Sort(before, rest)[0]);
      sorted := sorted + [x];
      rest := rest - {x};
    }
  }
}
