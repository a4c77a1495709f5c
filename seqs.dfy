/** `Array.prototype.filter` and counting over sequences, with the facts the
    store, the filter engine and the statistics rely on. */
module Seqs {

  /** `s.filter(p)`: the elements that pass, in their original order. */
  function Filter<T>(s: seq<T>, p: T -> bool): (r: seq<T>)
    ensures |r| <= |s|
    decreases |s|
  {
    if |s| == 0 then []
    else (if p(s[0]) then [s[0]] else []) + Filter(s[1..], p)
  }

  /** An element is kept exactly when it occurs in `s` and passes `p`. */
  lemma {:induction false} FilterMembers<T>(s: seq<T>, p: T -> bool)
    ensures forall x :: x in Filter(s, p) ==> x in s && p(x)
    ensures forall x :: x in s && p(x) ==> x in Filter(s, p)
    decreases |s|
  {
    if |s| > 0 {
      FilterMembers(s[1..], p);
      assert s == [s[0]] + s[1..];
    }
  }

  /** `r` can be obtained from `s` by deleting elements. */
  predicate IsSubsequence<T(==)>(r: seq<T>, s: seq<T>)
    decreases |s|
  {
    if |r| == 0 then true
    else if |s| == 0 then false
    else (r[0] == s[0] && IsSubsequence(r[1..], s[1..])) || IsSubsequence(r, s[1..])
  }

  lemma {:induction false} FilterIsSubsequence<T>(s: seq<T>, p: T -> bool)
    ensures IsSubsequence(Filter(s, p), s)
    decreases |s|
  {
    if |s| > 0 {
      FilterIsSubsequence(s[1..], p);
      var r := Filter(s, p);
      if p(s[0]) {
        assert r[0] == s[0] && r[1..] == Filter(s[1..], p);
      } else {
        assert r == Filter(s[1..], p);
      }
    }
  }

  /** Filtering splits a sequence: what `p` keeps and what its complement
      `q` keeps make up the whole, with multiplicities. */
  lemma {:induction false} FilterSplits<T>(s: seq<T>, p: T -> bool, q: T -> bool)
    requires forall x :: q(x) == !p(x)
    ensures multiset(Filter(s, p)) + multiset(Filter(s, q)) == multiset(s)
    decreases |s|
  {
    if |s| > 0 {
      FilterSplits(s[1..], p, q);
      FilterSplitsStep(s, p, q);
      assert multiset(s) == multiset{s[0]} + multiset(s[1..]) by {
        assert s == [s[0]] + s[1..];
      }
    }
  }

  lemma FilterSplitsStep<T>(s: seq<T>, p: T -> bool, q: T -> bool)
    requires |s| > 0 && forall x :: q(x) == !p(x)
    ensures multiset(Filter(s, p)) + multiset(Filter(s, q)) ==
            multiset{s[0]} + multiset(Filter(s[1..], p)) + multiset(Filter(s[1..], q))
  {
    var ps, qs := Filter(s[1..], p), Filter(s[1..], q);
    if p(s[0]) {
      assert Filter(s, p) == [s[0]] + ps && Filter(s, q) == qs;
      assert multiset([s[0]] + ps) == multiset{s[0]} + multiset(ps);
    } else {
      assert Filter(s, p) == ps && Filter(s, q) == [s[0]] + qs;
      assert multiset([s[0]] + qs) == multiset{s[0]} + multiset(qs);
    }
  }

  /** Filtering with a predicate every element passes changes nothing. */
  lemma {:induction false} FilterAllPass<T>(s: seq<T>, p: T -> bool)
    requires forall i :: 0 <= i < |s| ==> p(s[i])
    ensures Filter(s, p) == s
    decreases |s|
  {
    if |s| > 0 {
      FilterAllPass(s[1..], p);
      assert s == [s[0]] + s[1..];
    }
  }

  /** Filtering twice with the same predicate is filtering once. */
  lemma {:induction false} FilterIdempotent<T>(s: seq<T>, p: T -> bool)
    ensures Filter(Filter(s, p), p) == Filter(s, p)
  {
    var r := Filter(s, p);
    FilterMembers(s, p);
    forall i | 0 <= i < |r| ensures p(r[i]) {
      assert r[i] in r;
    }
    FilterAllPass(r, p);
  }

  /** Number of elements that pass `p`. */
  function CountIf<T>(s: seq<T>, p: T -> bool): (n: nat)
    ensures n <= |s|
    decreases |s|
  {
    if |s| == 0 then 0 else (if p(s[0]) then 1 else 0) + CountIf(s[1..], p)
  }

  /** `s.filter(p).length` is the count. */
  lemma {:induction false} CountIfIsFilterLength<T>(s: seq<T>, p: T -> bool)
    ensures CountIf(s, p) == |Filter(s, p)|
    decreases |s|
  {
    if |s| > 0 { CountIfIsFilterLength(s[1..], p); }
  }

  /** The count is positive exactly when some element passes. */
  lemma {:induction false} CountIfPositive<T>(s: seq<T>, p: T -> bool)
    ensures CountIf(s, p) > 0 <==> exists i :: 0 <= i < |s| && p(s[i])
    decreases |s|
  {
    if |s| > 0 {
      CountIfPositive(s[1..], p);
      if exists i :: 0 <= i < |s| && p(s[i]) {
        var i :| 0 <= i < |s| && p(s[i]);
        if i > 0 { assert p(s[1..][i - 1]); }
      }
      if exists i :: 0 <= i < |s[1..]| && p(s[1..][i]) {
        var i :| 0 <= i < |s[1..]| && p(s[1..][i]);
        assert p(s[i + 1]);
      }
    }
  }

  /** Filtering a list extended at the end. */
  lemma {:induction false} FilterSnoc<T>(s: seq<T>, x: T, p: T -> bool)
    ensures Filter(s + [x], p) == Filter(s, p) + (if p(x) then [x] else [])
    decreases |s|
  {
    var tail: seq<T> := if p(x) then [x] else [];
    if |s| == 0 {
      assert s + [x] == [x];
      assert [x][1..] == [];
    } else {
      var t, h: seq<T> := s + [x], if p(s[0]) then [s[0]] else [];
      assert t[0] == s[0] && t[1..] == s[1..] + [x];
      FilterSnoc(s[1..], x, p);
      assert Filter(t, p) == h + (Filter(s[1..], p) + tail);
      assert Filter(s, p) == h + Filter(s[1..], p);
    }
  }

  /** Counting over a list extended at the end. */
  lemma {:induction false} CountIfSnoc<T>(s: seq<T>, x: T, p: T -> bool)
    ensures CountIf(s + [x], p) == CountIf(s, p) + (if p(x) then 1 else 0)
    decreases |s|
  {
    if |s| == 0 {
      assert s + [x] == [x];
      assert [x][1..] == [];
    } else {
      assert (s + [x])[1..] == s[1..] + [x];
      CountIfSnoc(s[1..], x, p);
    }
  }

  /** Counting by a predicate that is the disjoint union of two others. */
  lemma {:induction false} CountIfDisjointUnion<T>(s: seq<T>, p: T -> bool, q: T -> bool, r: T -> bool)
    requires forall x :: r(x) == (p(x) || q(x))
    requires forall x :: !(p(x) && q(x))
    ensures CountIf(s, r) == CountIf(s, p) + CountIf(s, q)
    decreases |s|
  {
    if |s| > 0 { CountIfDisjointUnion(s[1..], p, q, r); }
  }

  /** When every element passes, the count is the length. */
  lemma {:induction false} CountIfAllPass<T>(s: seq<T>, p: T -> bool)
    requires forall i :: 0 <= i < |s| ==> p(s[i])
    ensures CountIf(s, p) == |s|
    decreases |s|
  {
    if |s| > 0 { CountIfAllPass(s[1..], p); }
  }

  // ------------------------------------------------------------ sorting

  /** A comparator `before(a, b)`, "a must come strictly before b", that is
      a strict weak order: irreflexive, asymmetric, and with "not before"
      transitive. */
  ghost predicate StrictWeakOrder<T(!new)>(before: (T, T) -> bool) {
    (forall a :: !before(a, a)) &&
    (forall a, b :: before(a, b) ==> !before(b, a)) &&
    (forall a, b, c :: !before(a, b) && !before(b, c) ==> !before(a, c))
  }

  /** No element is placed after one it must precede. */
  ghost predicate SortedBy<T>(s: seq<T>, before: (T, T) -> bool) {
    forall i, j :: 0 <= i < j < |s| ==> !before(s[j], s[i])
  }

  /** Stable insertion of `x` after every element it does not strictly
      precede. */
  function Insert<T>(x: T, s: seq<T>, before: (T, T) -> bool): (r: seq<T>)
    ensures |r| == |s| + 1
    decreases |s|
  {
    if |s| == 0 then [x]
    else if before(x, s[|s| - 1]) then Insert(x, s[..|s| - 1], before) + [s[|s| - 1]]
    else s + [x]
  }

  lemma {:induction false} InsertPermutes<T>(x: T, s: seq<T>, before: (T, T) -> bool)
    ensures multiset(Insert(x, s, before)) == multiset(s) + multiset{x}
    decreases |s|
  {
    if |s| > 0 && before(x, s[|s| - 1]) {
      InsertPermutes(x, s[..|s| - 1], before);
      assert s == s[..|s| - 1] + [s[|s| - 1]];
    }
  }

  /** `s.sort(comparator)`, which is stable: insertion sort, every element
      inserted into the sorted prefix. */
  function SortWith<T>(s: seq<T>, before: (T, T) -> bool): (r: seq<T>)
    ensures |r| == |s|
  {
    if |s| == 0 then []
    else Insert(s[|s| - 1], SortWith(s[..|s| - 1], before), before)
  }

  lemma {:induction false} SortWithPermutes<T>(s: seq<T>, before: (T, T) -> bool)
    ensures multiset(SortWith(s, before)) == multiset(s)
  {
    if |s| > 0 {
      SortWithPermutes(s[..|s| - 1], before);
      InsertPermutes(s[|s| - 1], SortWith(s[..|s| - 1], before), before);
      assert s == s[..|s| - 1] + [s[|s| - 1]];
    }
  }

  lemma {:induction false} InsertSorted<T(!new)>(x: T, s: seq<T>, before: (T, T) -> bool)
    requires StrictWeakOrder(before) && SortedBy(s, before)
    ensures SortedBy(Insert(x, s, before), before)
    decreases |s|
  {
    if |s| > 0 {
      var last := s[|s| - 1];
      var r := Insert(x, s, before);
      if before(x, last) {
        var init := s[..|s| - 1];
        InsertSorted(x, init, before);
        var t := Insert(x, init, before);
        InsertPermutes(x, init, before);
        assert r == t + [last];
        forall i | 0 <= i < |t| ensures !before(last, t[i]) {
          assert t[i] in multiset(t);
          if t[i] != x {
            assert t[i] in multiset(init);
            var k :| 0 <= k < |init| && init[k] == t[i];
            assert s[k] == t[i];
          }
        }
      } else {
        assert r == s + [x];
      }
    }
  }

  /** Sorting gives a sorted permutation of the input. */
  lemma {:induction false} SortWithSorted<T(!new)>(s: seq<T>, before: (T, T) -> bool)
    requires StrictWeakOrder(before)
    ensures SortedBy(SortWith(s, before), before)
    ensures multiset(SortWith(s, before)) == multiset(s) && |SortWith(s, before)| == |s|
  {
    SortWithPermutes(s, before);
    if |s| > 0 {
      SortWithSorted(s[..|s| - 1], before);
      InsertSorted(s[|s| - 1], SortWith(s[..|s| - 1], before), before);
    }
  }

  /** Sorting an already sorted sequence leaves it as it is: the sort is
      stable. */
  lemma {:induction false} SortWithSortedIsIdentity<T>(s: seq<T>, before: (T, T) -> bool)
    requires SortedBy(s, before)
    ensures SortWith(s, before) == s
    decreases |s|
  {
    if |s| > 0 {
      var init, last := s[..|s| - 1], s[|s| - 1];
      SortedDropLast(s, before);
      SortWithSortedIsIdentity(init, before);
      InsertAfterLast(last, init, before);
      assert init + [last] == s;
    }
  }

  lemma SortedDropLast<T>(s: seq<T>, before: (T, T) -> bool)
    requires |s| > 0 && SortedBy(s, before)
    ensures SortedBy(s[..|s| - 1], before)
    ensures |s| > 1 ==> !before(s[|s| - 1], s[|s| - 2])
  {
    var init := s[..|s| - 1];
    forall i, j | 0 <= i < j < |init| ensures !before(init[j], init[i]) {
      assert init[j] == s[j] && init[i] == s[i];
    }
  }

  /** An element that does not come before the last one goes at the end. */
  lemma InsertAfterLast<T>(x: T, s: seq<T>, before: (T, T) -> bool)
    requires |s| == 0 || !before(x, s[|s| - 1])
    ensures Insert(x, s, before) == s + [x]
  {
  }

  // ------------------------------------------------------------ numbering

  /** The elements `keep` accepts, each mapped by `f` together with its
      position, counted from 1, among the kept ones. */
  function KeptNumbered<A, B>(s: seq<A>, keep: A -> bool, f: (A, int) -> B): seq<B>
    decreases |s|
  {
    if |s| == 0 then []
    else
      var prev := KeptNumbered(s[..|s| - 1], keep, f);
      if keep(s[|s| - 1]) then prev + [f(s[|s| - 1], |prev| + 1)] else prev
  }

  /** Element `i` of the result is `f` of kept element `i`, numbered
      `i + 1`. */
  lemma {:induction false} KeptNumberedSpec<A, B>(s: seq<A>, keep: A -> bool, f: (A, int) -> B)
    ensures |KeptNumbered(s, keep, f)| == |Filter(s, keep)|
    ensures forall i :: 0 <= i < |Filter(s, keep)| ==>
              KeptNumbered(s, keep, f)[i] == f(Filter(s, keep)[i], i + 1)
    decreases |s|
  {
    if |s| > 0 {
      var pre, last := s[..|s| - 1], s[|s| - 1];
      KeptNumberedSpec(pre, keep, f);
      FilterSnoc(pre, last, keep);
      assert s == pre + [last];
    }
  }
}
