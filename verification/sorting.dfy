/**
 * Go's sort.Sort, specified only by what it guarantees: the array ends up a
 * permutation of what it held, ordered so that no element is Less than one
 * before it. The order among elements that are not Less than each other is not
 * promised (sort.Sort is not stable).
 */
module Sorting {

  /** What sort.Sort needs of a Less: a strict weak order. */
  ghost predicate StrictWeakOrder<T(!new)>(less: (T, T) -> bool)
  {
    && (forall x, y :: less(x, y) ==> !less(y, x))
    && (forall x, y, z :: !less(x, y) && !less(y, z) ==> !less(x, z))
  }

  /** No element is Less than an element before it. */
  ghost predicate SortedBy<T>(s: seq<T>, less: (T, T) -> bool)
  {
    forall p, q :: 0 <= p < q < |s| ==> !less(s[q], s[p])
  }

  /** The Swap of byDist and byFreq: exchanges two entries in place. */
  method Swap<T>(a: array<T>, i: nat, j: nat)
    requires i < a.Length && j < a.Length
    modifies a
    ensures a[i] == old(a[j]) && a[j] == old(a[i])
    ensures forall m :: 0 <= m < a.Length && m != i && m != j ==> a[m] == old(a[m])
    ensures multiset(a[..]) == old(multiset(a[..]))
  {
    a[i], a[j] := a[j], a[i];
  }

  /** Sorts `a` in place by `less` (insertion sort by adjacent swaps). */
  method SortBy<T(!new)>(a: array<T>, less: (T, T) -> bool)
    requires StrictWeakOrder(less)
    modifies a
    ensures SortedBy(a[..], less)
    ensures multiset(a[..]) == old(multiset(a[..]))
  {
    for i := 0 to a.Length
      invariant SortedBy(a[..i], less)
      invariant multiset(a[..]) == old(multiset(a[..]))
    {
      var j := i;
      while j > 0 && less(a[j], a[j - 1])
        invariant 0 <= j <= i
        invariant forall p, q :: 0 <= p < q <= i && p != j && q != j ==> !less(a[q], a[p])
        invariant forall q :: j < q <= i ==> !less(a[q], a[j])
        invariant multiset(a[..]) == old(multiset(a[..]))
      {
        Swap(a, j - 1, j);
        j := j - 1;
      }
    }
  }
}
