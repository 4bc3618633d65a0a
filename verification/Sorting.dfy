/**
sort.Slice: an array is put in order, in place, by a comparison. Its callers use only the
contract: the elements are those there were, and no later one is less than an earlier one.
*/
module Sorting {

  ghost predicate StrictWeakOrder<T(!new)>(less: (T, T) -> bool) {
    && (forall x, y :: less(x, y) ==> !less(y, x))
    && (forall x, y, z :: less(x, y) ==> less(x, z) || less(z, y))
  }

  predicate Sorted<T>(s: seq<T>, less: (T, T) -> bool) {
    forall i, j :: 0 <= i < j < |s| ==> !less(s[j], s[i])
  }

  /** The first n elements are in order. */
  predicate SortedTo<T>(s: seq<T>, n: nat, less: (T, T) -> bool) {
    n <= |s| && forall i, j :: 0 <= i < j < n ==> !less(s[j], s[i])
  }

  /** The first n elements are in order but for the one at j, which is at most too far right. */
  predicate SortedAround<T>(s: seq<T>, n: nat, j: nat, less: (T, T) -> bool) {
    && j < n <= |s|
    && (forall p, q :: 0 <= p < q < n && p != j && q != j ==> !less(s[q], s[p]))
    && (forall q :: j < q < n ==> !less(s[q], s[j]))
  }

  lemma Settled<T(!new)>(s: seq<T>, n: nat, j: nat, less: (T, T) -> bool)
    requires StrictWeakOrder(less) && SortedAround(s, n, j, less)
    requires j > 0 ==> !less(s[j], s[j - 1])
    ensures SortedTo(s, n, less)
  {
    forall p | 0 <= p < j
      ensures !less(s[j], s[p])
    {
      var x, y, z := s[j], s[p], s[j - 1];
      assert less(x, y) ==> less(x, z) || less(z, y);
    }
  }

  /** Exchanging the unsettled element with a greater left neighbour keeps the rest in order. */
  lemma SwapKeeps<T(!new)>(s: seq<T>, n: nat, j: nat, less: (T, T) -> bool)
    requires StrictWeakOrder(less) && SortedAround(s, n, j, less)
    requires j > 0 && less(s[j], s[j - 1])
    ensures SortedAround(s[j := s[j - 1]][j - 1 := s[j]], n, j - 1, less)
    ensures multiset(s[j := s[j - 1]][j - 1 := s[j]]) == multiset(s)
  {
  }

  method SortSlice<T(!new)>(a: array<T>, less: (T, T) -> bool)
    requires StrictWeakOrder(less)
    modifies a
    ensures Sorted(a[..], less)
    ensures multiset(a[..]) == multiset(old(a[..]))
  {
    var n := 0;
    while n < a.Length
      invariant 0 <= n <= a.Length
      invariant SortedTo(a[..], n, less)
      invariant multiset(a[..]) == multiset(old(a[..]))
    {
      SinkLast(a, n, less);
      n := n + 1;
    }
  }

  /** Move the element at n down to its place among the sorted ones before it. */
  method SinkLast<T(!new)>(a: array<T>, n: nat, less: (T, T) -> bool)
    requires StrictWeakOrder(less)
    requires n < a.Length && SortedTo(a[..], n, less)
    modifies a
    ensures SortedTo(a[..], n + 1, less)
    ensures multiset(a[..]) == multiset(old(a[..]))
  {
    var j := n;
    while j > 0 && less(a[j], a[j - 1])
      invariant 0 <= j <= n
      invariant multiset(a[..]) == multiset(old(a[..]))
      invariant SortedAround(a[..], n + 1, j, less)
    {
      hide SortedAround, StrictWeakOrder;
      ghost var s := a[..];
      SwapKeeps(s, n + 1, j, less);
      a[j], a[j - 1] := a[j - 1], a[j];
      assert a[..] == s[j := s[j - 1]][j - 1 := s[j]];
      j := j - 1;
    }
    Settled(a[..], n + 1, j, less);
  }
}
