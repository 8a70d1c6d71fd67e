/**
 * `array.sort((a, b) => key(a) - key(b))`, the in-place ascending sort the
 * dashboards apply to their application lists, as an insertion sort by
 * adjacent swaps.
 */
module Sorting {

  predicate SortedBy<T>(s: seq<T>, key: T -> int) {
    forall i, j :: 0 <= i < j < |s| ==> key(s[i]) <= key(s[j])
  }

  /** Exchanges two cells; the contents stay a permutation of what they were. */
  method Swap<T>(a: array<T>, i: int, j: int)
    requires 0 <= i < a.Length && 0 <= j < a.Length
    modifies a
    ensures a[..] == old(a[..])[i := old(a[j])][j := old(a[i])]
    ensures multiset(a[..]) == multiset(old(a[..]))
  {
    a[i], a[j] := a[j], a[i];
  }

  /** Sorts `a` in place by ascending key; the result is a permutation of the original contents. */
  method SortByKey<T>(a: array<T>, key: T -> int)
    modifies a
    ensures SortedBy(a[..], key)
    ensures multiset(a[..]) == multiset(old(a[..]))
  {
    if a.Length == 0 {
      return;
    }
    var i := 1;
    while i < a.Length
      invariant 1 <= i <= a.Length
      invariant SortedBy(a[..i], key)
      invariant multiset(a[..]) == multiset(old(a[..]))
    {
      InsertLast(a, i, key);
      i := i + 1;
    }
  }

  /** One pass of the insertion sort: moves `a[i]` down into the sorted prefix `a[..i]`. */
  method InsertLast<T>(a: array<T>, i: int, key: T -> int)
    requires 0 < i < a.Length && SortedBy(a[..i], key)
    modifies a
    ensures SortedBy(a[..i + 1], key)
    ensures multiset(a[..]) == multiset(old(a[..]))
  {
    var j := i;
    while j > 0 && key(a[j - 1]) > key(a[j])
      invariant 0 <= j <= i
      invariant forall m, n :: 0 <= m < n <= i && m != j && n != j ==> key(a[m]) <= key(a[n])
      invariant forall n :: j < n <= i ==> key(a[j]) < key(a[n])
      invariant multiset(a[..]) == multiset(old(a[..]))
    {
      Swap(a, j - 1, j);
      j := j - 1;
    }
  }
}
