/**
 * Python's `sorted(...)` and `sorted(set(...))` over a strict total order,
 * used by the validators to list missing keys, transitions and orphans.
 */
module Sorting {
  import opened Text

  /** `lt` is irreflexive, transitive and total: the order Python's `<` gives strings and tuples of strings. */
  ghost predicate StrictTotalOrder<T(!new)>(lt: (T, T) -> bool)
  {
    (forall a :: !lt(a, a))
    && (forall a, b, c :: lt(a, b) && lt(b, c) ==> lt(a, c))
    && (forall a, b :: a == b || lt(a, b) || lt(b, a))
  }

  /** No element is smaller than one before it. */
  predicate Sorted<T>(s: seq<T>, lt: (T, T) -> bool)
  {
    forall i, j :: 0 <= i < j < |s| ==> !lt(s[j], s[i])
  }

  /** Every element is smaller than every later one. */
  predicate StrictlySorted<T>(s: seq<T>, lt: (T, T) -> bool)
  {
    forall i, j :: 0 <= i < j < |s| ==> lt(s[i], s[j])
  }

  /** Puts `x` before the first element not smaller than it. */
  function Insert<T>(x: T, s: seq<T>, lt: (T, T) -> bool): seq<T>
  {
    if s == [] || !lt(s[0], x) then [x] + s else [s[0]] + Insert(x, s[1..], lt)
  }

  /** Insertion sort: `sorted(s)`. */
  function Sort<T>(s: seq<T>, lt: (T, T) -> bool): seq<T>
  {
    if s == [] then [] else Insert(s[0], Sort(s[1..], lt), lt)
  }

  lemma {:induction false} InsertSpec<T(!new)>(x: T, s: seq<T>, lt: (T, T) -> bool)
    requires StrictTotalOrder(lt) && Sorted(s, lt)
    ensures multiset(Insert(x, s, lt)) == multiset(s) + multiset{x}
    ensures Sorted(Insert(x, s, lt), lt)
  {
    if s == [] {
    } else if !lt(s[0], x) {
      var r := [x] + s;
      assert s == [s[0]] + s[1..];
      forall i, j | 0 <= i < j < |r|
        ensures !lt(r[j], r[i])
      {
        if i == 0 {
          if j > 1 {
            assert !lt(s[j - 1], s[0]);
          }
        }
      }
    } else {
      InsertSpec(x, s[1..], lt);
      var t := Insert(x, s[1..], lt);
      var r := [s[0]] + t;
      assert s == [s[0]] + s[1..];
      forall i, j | 0 <= i < j < |r|
        ensures !lt(r[j], r[i])
      {
        if i == 0 {
          assert r[j] in multiset(t);
          assert r[j] in multiset(s[1..]) || r[j] == x;
          if r[j] in multiset(s[1..]) {
            var k :| 0 <= k < |s[1..]| && s[1..][k] == r[j];
            assert s[k + 1] == r[j];
          }
        }
      }
    }
  }

  /** `Sort` is a sorted permutation of its input. */
  lemma {:induction false} SortSpec<T(!new)>(s: seq<T>, lt: (T, T) -> bool)
    requires StrictTotalOrder(lt)
    ensures multiset(Sort(s, lt)) == multiset(s)
    ensures Sorted(Sort(s, lt), lt)
  {
    if s != [] {
      SortSpec(s[1..], lt);
      InsertSpec(s[0], Sort(s[1..], lt), lt);
      assert s == [s[0]] + s[1..];
    }
  }

  /** A sorted permutation is unique, so `Sort` computes exactly what Python's `sorted` returns. */
  lemma {:induction false} SortedUnique<T(!new)>(a: seq<T>, b: seq<T>, lt: (T, T) -> bool)
    requires StrictTotalOrder(lt)
    requires Sorted(a, lt) && Sorted(b, lt) && multiset(a) == multiset(b)
    ensures a == b
  {
    if a != [] {
      assert |b| == |a| by { assert |multiset(a)| == |multiset(b)|; }
      assert a[0] in multiset(b) && b[0] in multiset(a);
      var i :| 0 <= i < |b| && b[i] == a[0];
      var j :| 0 <= j < |a| && a[j] == b[0];
      assert !lt(b[i], b[0]) && !lt(a[j], a[0]);
      assert a[0] == b[0];
      assert a == [a[0]] + a[1..] && b == [b[0]] + b[1..];
      assert multiset(a) == multiset{a[0]} + multiset(a[1..]);
      assert multiset(b) == multiset{a[0]} + multiset(b[1..]);
      forall x
        ensures multiset(a[1..])[x] == multiset(b[1..])[x]
      {
        assert multiset(a)[x] == multiset{a[0]}[x] + multiset(a[1..])[x];
        assert multiset(b)[x] == multiset{a[0]}[x] + multiset(b[1..])[x];
      }
      assert multiset(a[1..]) == multiset(b[1..]);
      SortedUnique(a[1..], b[1..], lt);
    }
  }

  /** The elements of `s` in first-occurrence order, each once: a `set(...)` before sorting. */
  function Dedup<T(==,!new)>(s: seq<T>): (d: seq<T>)
    ensures forall x :: x in d <==> x in s
    ensures forall i, j :: 0 <= i < j < |d| ==> d[i] != d[j]
  {
    if s == [] then []
    else
      var init := Dedup(s[..|s| - 1]);
      assert forall x :: x in s <==> x in s[..|s| - 1] || x == s[|s| - 1] by {
        assert s == s[..|s| - 1] + [s[|s| - 1]];
      }
      if s[|s| - 1] in init then init else init + [s[|s| - 1]]
  }

  /** `sorted(set(s))`. */
  function SortedSet<T(==,!new)>(s: seq<T>, lt: (T, T) -> bool): seq<T>
  {
    Sort(Dedup(s), lt)
  }

  /** `sorted(set(s))` lists each element of `s` exactly once, in increasing order. */
  lemma SortedSetSpec<T(!new)>(s: seq<T>, lt: (T, T) -> bool)
    requires StrictTotalOrder(lt)
    ensures forall x :: x in SortedSet(s, lt) <==> x in s
    ensures StrictlySorted(SortedSet(s, lt), lt)
  {
    var d := Dedup(s);
    var r := SortedSet(s, lt);
    SortSpec(d, lt);
    forall x
      ensures x in r <==> x in s
    {
      assert x in r <==> x in multiset(r);
      assert x in d <==> x in multiset(d);
    }
    forall i, j | 0 <= i < j < |r|
      ensures lt(r[i], r[j])
    {
      assert !lt(r[j], r[i]);
      if r[i] == r[j] {
        assert multiset(d)[r[i]] <= 1 by { DistinctCount(d, r[i]); }
        assert multiset(r)[r[i]] >= 2 by { TwoOccurrences(r, i, j); }
      }
    }
  }

  lemma {:induction false} DistinctCount<T>(d: seq<T>, x: T)
    requires forall i, j :: 0 <= i < j < |d| ==> d[i] != d[j]
    ensures multiset(d)[x] <= 1
  {
    if d != [] {
      assert d == d[..|d| - 1] + [d[|d| - 1]];
      DistinctCount(d[..|d| - 1], x);
      if x == d[|d| - 1] {
        assert x !in d[..|d| - 1];
      }
    }
  }

  lemma {:induction false} TwoOccurrences<T>(r: seq<T>, i: nat, j: nat)
    requires i < j < |r| && r[i] == r[j]
    ensures multiset(r)[r[i]] >= 2
  {
    assert r == r[..j] + r[j..];
    assert r[i] in r[..j];
    assert r[j..] == [r[j]] + r[j + 1..];
  }

  /** Code-point order on strings is a strict total order. */
  lemma StrLtIsOrder()
    ensures StrictTotalOrder(StrLt)
  {
    forall a: string
      ensures !StrLt(a, a)
    {
      StrLtIrreflexive(a);
    }
    forall a: string, b: string, c: string | StrLt(a, b) && StrLt(b, c)
      ensures StrLt(a, c)
    {
      StrLtTransitive(a, b, c);
    }
    forall a: string, b: string
      ensures a == b || StrLt(a, b) || StrLt(b, a)
    {
      if a != b {
        StrLtTotal(a, b);
      }
    }
  }

  /** A sequence without repeats has as many elements as the set of its elements. */
  lemma {:induction false} DistinctCard<T>(s: seq<T>)
    requires forall i, j :: 0 <= i < j < |s| ==> s[i] != s[j]
    ensures |set x | x in s| == |s|
  {
    if s != [] {
      var n := |s| - 1;
      DistinctCard(s[..n]);
      assert (set x | x in s) == (set x | x in s[..n]) + {s[n]};
      assert s[n] !in s[..n];
    }
  }

  /** `sorted` keeps the length. */
  lemma SortLength<T(!new)>(s: seq<T>, lt: (T, T) -> bool)
    requires StrictTotalOrder(lt)
    ensures |Sort(s, lt)| == |s|
    ensures forall x :: x in Sort(s, lt) <==> x in s
  {
    SortSpec(s, lt);
    assert |multiset(Sort(s, lt))| == |multiset(s)|;
    forall x
      ensures x in Sort(s, lt) <==> x in s
    {
      assert x in Sort(s, lt) <==> x in multiset(Sort(s, lt));
      assert x in s <==> x in multiset(s);
    }
  }
}
