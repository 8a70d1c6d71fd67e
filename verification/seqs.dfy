/**
 * The array operations the pages use, as functions on sequences:
 * `filter`, `filter(...).length`, `reduce` into a sum, and
 * `[...new Set(xs)]` (first occurrences, in order).
 */
module Seqs {

  /** `s.filter(p)`: the elements that pass, in their original order. */
  function Filter<T>(s: seq<T>, p: T -> bool): (r: seq<T>)
    ensures |r| <= |s|
    ensures forall x :: x in r ==> x in s && p(x)
    ensures forall x :: x in s && p(x) ==> x in r
  {
    if s == [] then [] else (if p(s[0]) then [s[0]] else []) + Filter(s[1..], p)
  }

  /** `r` is `s` with some elements left out and the rest in their original order. */
  predicate IsSubsequence<T(==)>(r: seq<T>, s: seq<T>)
    decreases |s|
  {
    r == [] || (s != [] && ((r[0] == s[0] && IsSubsequence(r[1..], s[1..])) || IsSubsequence(r, s[1..])))
  }

  /** Filtering keeps the original order. */
  lemma {:induction false} FilterIsSubsequence<T>(s: seq<T>, p: T -> bool)
    ensures IsSubsequence(Filter(s, p), s)
  {
    if s != [] {
      var r := Filter(s, p);
      FilterIsSubsequence(s[1..], p);
      if p(s[0]) {
        assert r == [s[0]] + Filter(s[1..], p);
        assert r[0] == s[0] && r[1..] == Filter(s[1..], p);
      } else {
        assert r == Filter(s[1..], p);
      }
    }
  }

  /** A filter whose test every element passes returns the sequence unchanged. */
  lemma {:induction false} FilterKeepsAll<T>(s: seq<T>, p: T -> bool)
    requires forall i :: 0 <= i < |s| ==> p(s[i])
    ensures Filter(s, p) == s
  {
    if s != [] {
      FilterKeepsAll(s[1..], p);
    }
  }

  /** A filter that no element passes returns nothing. */
  lemma {:induction false} FilterNone<T>(s: seq<T>, p: T -> bool)
    requires forall i :: 0 <= i < |s| ==> !p(s[i])
    ensures Filter(s, p) == []
  {
    if s != [] {
      FilterNone(s[1..], p);
    }
  }

  lemma {:induction false} FilterAppend<T>(a: seq<T>, b: seq<T>, p: T -> bool)
    ensures Filter(a + b, p) == Filter(a, p) + Filter(b, p)
  {
    if a == [] {
      assert a + b == b;
    } else {
      var head := if p(a[0]) then [a[0]] else [];
      assert (a + b)[0] == a[0];
      assert (a + b)[1..] == a[1..] + b;
      assert Filter(a + b, p) == head + Filter(a[1..] + b, p);
      FilterAppend(a[1..], b, p);
      assert Filter(a, p) == head + Filter(a[1..], p);
      assert head + (Filter(a[1..], p) + Filter(b, p)) == (head + Filter(a[1..], p)) + Filter(b, p);
    }
  }

  /** Filtering a prefix one element longer adds that element when it passes. */
  lemma FilterSnoc<T>(s: seq<T>, i: nat, p: T -> bool)
    requires i < |s|
    ensures Filter(s[..i + 1], p) == Filter(s[..i], p) + (if p(s[i]) then [s[i]] else [])
  {
    assert s[..i + 1] == s[..i] + [s[i]];
    FilterAppend(s[..i], [s[i]], p);
    assert Filter([s[i]], p) == if p(s[i]) then [s[i]] else [];
  }

  /** Two filters in a row are one filter by the conjunction of their tests. */
  lemma {:induction false} FilterFilter<T>(s: seq<T>, p: T -> bool, q: T -> bool)
    ensures Filter(Filter(s, p), q) == Filter(s, x => p(x) && q(x))
  {
    var pq := x => p(x) && q(x);
    if s != [] {
      FilterFilter(s[1..], p, q);
      assert Filter(s, pq) == (if pq(s[0]) then [s[0]] else []) + Filter(s[1..], pq);
      if p(s[0]) {
        assert Filter(s, p) == [s[0]] + Filter(s[1..], p);
        FilterAppend([s[0]], Filter(s[1..], p), q);
        assert Filter([s[0]], q) == if q(s[0]) then [s[0]] else [];
      } else {
        assert Filter(s, p) == Filter(s[1..], p);
      }
    }
  }

  /** Filters whose tests agree on every element of `s` select the same elements. */
  lemma {:induction false} FilterExt<T>(s: seq<T>, p: T -> bool, q: T -> bool)
    requires forall i :: 0 <= i < |s| ==> p(s[i]) == q(s[i])
    ensures Filter(s, p) == Filter(s, q)
  {
    if s != [] {
      FilterExt(s[1..], p, q);
    }
  }

  /** Filtering by `p` and then by `q` is filtering by any test that is their conjunction on `s`. */
  lemma Narrow<T>(s: seq<T>, p: T -> bool, q: T -> bool, pq: T -> bool)
    requires forall i :: 0 <= i < |s| ==> pq(s[i]) == (p(s[i]) && q(s[i]))
    ensures Filter(Filter(s, p), q) == Filter(s, pq)
  {
    FilterFilter(s, p, q);
    FilterExt(s, x => p(x) && q(x), pq);
  }

  /** `s.filter(p).length`. */
  function Count<T>(s: seq<T>, p: T -> bool): (n: nat)
    ensures n <= |s|
  {
    |Filter(s, p)|
  }

  /** A weaker test never counts fewer elements. */
  lemma {:induction false} CountMonotone<T>(s: seq<T>, p: T -> bool, q: T -> bool)
    requires forall x :: p(x) ==> q(x)
    ensures Count(s, p) <= Count(s, q)
  {
    if s != [] {
      CountMonotone(s[1..], p, q);
    }
  }

  /** The count reaches the length exactly when every element passes. */
  lemma {:induction false} CountAll<T>(s: seq<T>, p: T -> bool)
    ensures Count(s, p) == |s| <==> forall i :: 0 <= i < |s| ==> p(s[i])
  {
    if s != [] {
      CountAll(s[1..], p);
      if !p(s[0]) {
        assert Count(s, p) == Count(s[1..], p);
      }
      assert forall i :: 1 <= i < |s| ==> s[i] == s[1..][i - 1];
    }
  }

  /** `s.reduce((sum, x) => sum + f(x), 0)`, added from the left. */
  function Sum<T>(s: seq<T>, f: T -> int): int {
    if s == [] then 0 else Sum(s[..|s| - 1], f) + f(s[|s| - 1])
  }

  lemma {:induction false} SumAppend<T>(a: seq<T>, b: seq<T>, f: T -> int)
    ensures Sum(a + b, f) == Sum(a, f) + Sum(b, f)
  {
    if b == [] {
      assert a + b == a;
    } else {
      var ab := a + b;
      assert ab[..|ab| - 1] == a + b[..|b| - 1];
      assert ab[|ab| - 1] == b[|b| - 1];
      assert Sum(ab, f) == Sum(ab[..|ab| - 1], f) + f(ab[|ab| - 1]);
      SumAppend(a, b[..|b| - 1], f);
      assert Sum(b, f) == Sum(b[..|b| - 1], f) + f(b[|b| - 1]);
    }
  }

  /** Sums do not depend on the order of the elements: a permutation has the same sum. */
  lemma {:induction false} SumPermutation<T>(a: seq<T>, b: seq<T>, f: T -> int)
    requires multiset(a) == multiset(b)
    ensures Sum(a, f) == Sum(b, f)
    decreases |a|
  {
    if a != [] {
      var x := a[|a| - 1];
      var a' := a[..|a| - 1];
      assert a == a' + [x];
      assert x in multiset(b);
      var i :| 0 <= i < |b| && b[i] == x;
      var b' := b[..i] + b[i + 1..];
      RemoveAt(b, i);
      assert multiset(a') == multiset(a) - multiset{x};
      SumPermutation(a', b', f);
      SumRemoveAt(b, i, f);
      SumAppend(a', [x], f);
      SumSingleton(x, f);
    }
  }

  lemma RemoveAt<T>(s: seq<T>, i: nat)
    requires i < |s|
    ensures multiset(s[..i] + s[i + 1..]) == multiset(s) - multiset{s[i]}
  {
    assert s == s[..i] + [s[i]] + s[i + 1..];
  }

  lemma SumSingleton<T>(x: T, f: T -> int)
    ensures Sum([x], f) == f(x)
  {
    assert [x][..0] == [];
  }

  lemma SumSplit<T>(s: seq<T>, i: nat, f: T -> int)
    requires i <= |s|
    ensures Sum(s, f) == Sum(s[..i], f) + Sum(s[i..], f)
  {
    assert s == s[..i] + s[i..];
    SumAppend(s[..i], s[i..], f);
  }

  lemma SumCons<T>(s: seq<T>, f: T -> int)
    requires s != []
    ensures Sum(s, f) == f(s[0]) + Sum(s[1..], f)
  {
    assert s == [s[0]] + s[1..];
    SumAppend([s[0]], s[1..], f);
    SumSingleton(s[0], f);
  }

  lemma SumRemoveAt<T>(s: seq<T>, i: nat, f: T -> int)
    requires i < |s|
    ensures Sum(s, f) == Sum(s[..i] + s[i + 1..], f) + f(s[i])
  {
    SumSplit(s, i, f);
    SumCons(s[i..], f);
    assert s[i..][1..] == s[i + 1..];
    SumAppend(s[..i], s[i + 1..], f);
  }

  /** Counting is a sum of ones, so a permutation has the same count. */
  lemma {:induction false} CountPermutation<T>(a: seq<T>, b: seq<T>, p: T -> bool)
    requires multiset(a) == multiset(b)
    ensures Count(a, p) == Count(b, p)
  {
    var one := x => if p(x) then 1 else 0;
    CountIsSum(a, p);
    CountIsSum(b, p);
    SumPermutation(a, b, one);
  }

  lemma {:induction false} CountIsSum<T>(s: seq<T>, p: T -> bool)
    ensures Count(s, p) == Sum(s, x => if p(x) then 1 else 0)
  {
    if s != [] {
      var last := s[|s| - 1];
      var init := s[..|s| - 1];
      assert s == init + [last];
      CountIsSum(init, p);
      FilterAppend(init, [last], p);
      assert Filter([last], p) == if p(last) then [last] else [];
    }
  }

  predicate NoDuplicates<T(==)>(s: seq<T>) {
    forall i, j :: 0 <= i < j < |s| ==> s[i] != s[j]
  }

  /** Leaving elements out never creates a duplicate. */
  lemma {:induction false} FilterNoDuplicates<T>(s: seq<T>, p: T -> bool)
    requires NoDuplicates(s)
    ensures NoDuplicates(Filter(s, p))
  {
    if s != [] {
      FilterNoDuplicates(s[1..], p);
      assert s[0] !in s[1..];
    }
  }

  /** Position of the first occurrence of `x` in `s`. */
  function FirstIndex<T(==)>(s: seq<T>, x: T): (k: nat)
    requires x in s
    ensures k < |s| && s[k] == x && x !in s[..k]
  {
    if s[0] == x then 0 else 1 + FirstIndex(s[1..], x)
  }

  lemma {:induction false} FirstIndexInPrefix<T>(s: seq<T>, n: nat, x: T)
    requires n <= |s| && x in s[..n]
    ensures FirstIndex(s, x) == FirstIndex(s[..n], x)
  {
    var k := FirstIndex(s[..n], x);
    var m := FirstIndex(s, x);
    assert s[..n][..k] == s[..k];
  }

  /** `r` lists every element of `s` once, in the order of their first occurrences in `s`. */
  predicate DedupeOf<T(==)>(r: seq<T>, s: seq<T>) {
    && NoDuplicates(r)
    && (forall i :: 0 <= i < |r| ==> r[i] in s)
    && (forall i :: 0 <= i < |s| ==> s[i] in r)
    && (forall i, j :: 0 <= i < j < |r| ==> FirstIndex(s, r[i]) < FirstIndex(s, r[j]))
  }

  /**
   * `[...new Set(s)]`: every element once, the same elements as `s`,
   * in the order of their first occurrences.
   */
  function Dedupe<T(==)>(s: seq<T>): (r: seq<T>)
    ensures NoDuplicates(r)
    ensures forall i :: 0 <= i < |r| ==> r[i] in s
    ensures forall i :: 0 <= i < |s| ==> s[i] in r
    ensures forall i, j :: 0 <= i < j < |r| ==> FirstIndex(s, r[i]) < FirstIndex(s, r[j])
  {
    if s == [] then []
    else
      var d := Dedupe(s[..|s| - 1]);
      assert DedupeOf(d, s[..|s| - 1]);
      var last := s[|s| - 1];
      if last in d then
        DedupeSeen(s, d);
        d
      else
        DedupeNew(s, d);
        d + [last]
  }

  /** A last element already seen adds nothing. */
  lemma DedupeSeen<T>(s: seq<T>, d: seq<T>)
    requires s != [] && DedupeOf(d, s[..|s| - 1]) && s[|s| - 1] in d
    ensures DedupeOf(d, s)
  {
    FirstIndicesKept(s, d);
    assert s == s[..|s| - 1] + [s[|s| - 1]];
  }

  /** A last element not seen before is appended, after every earlier first occurrence. */
  lemma DedupeNew<T>(s: seq<T>, d: seq<T>)
    requires s != [] && DedupeOf(d, s[..|s| - 1]) && s[|s| - 1] !in d
    ensures DedupeOf(d + [s[|s| - 1]], s)
  {
    var last := s[|s| - 1];
    FirstIndicesKept(s, d);
    assert s == s[..|s| - 1] + [last];
    assert last !in s[..|s| - 1];
    assert FirstIndex(s, last) == |s| - 1;
  }

  lemma FirstIndicesKept<T>(s: seq<T>, d: seq<T>)
    requires s != []
    requires forall i :: 0 <= i < |d| ==> d[i] in s[..|s| - 1]
    ensures forall i :: 0 <= i < |d| ==> FirstIndex(s, d[i]) == FirstIndex(s[..|s| - 1], d[i]) < |s| - 1
  {
    forall i | 0 <= i < |d|
      ensures FirstIndex(s, d[i]) == FirstIndex(s[..|s| - 1], d[i]) < |s| - 1
    {
      FirstIndexInPrefix(s, |s| - 1, d[i]);
    }
  }
}
