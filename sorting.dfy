/** `Array.prototype.sort` with a newest-first comparator `(a, b) => key(b) - key(a)`,
    as the service's listings and the dashboard's recent activity call it:
    the array is reordered in place. */
module Sorting {
  import opened Js

  /** `s` is in non-increasing order of `key`. */
  predicate NewestFirst(s: seq<Doc>, key: Doc -> int)
  {
    forall i, j :: 0 <= i < j < |s| ==> key(s[i]) >= key(s[j])
  }

  /** The first `n` elements of `s` are in non-increasing order of `key`. */
  predicate NewestFirstUpTo(s: seq<Doc>, n: int, key: Doc -> int)
  {
    forall i, j :: 0 <= i < j < n && j < |s| ==> key(s[i]) >= key(s[j])
  }

  /** Sorts `a` in place, newest first (an insertion sort). */
  method SortNewestFirst(a: array<Doc>, key: Doc -> int)
    modifies a
    ensures NewestFirst(a[..], key)
    ensures multiset(a[..]) == multiset(old(a[..]))
  {
    var i := 0;
    while i < a.Length
      invariant 0 <= i <= a.Length
      invariant NewestFirstUpTo(a[..], i, key)
      invariant multiset(a[..]) == multiset(old(a[..]))
    {
      Insert(a, i, key);
      i := i + 1;
    }
  }

  /** Moves `a[i]` left past every older element, extending the sorted prefix by one. */
  method Insert(a: array<Doc>, i: int, key: Doc -> int)
    requires 0 <= i < a.Length
    requires NewestFirstUpTo(a[..], i, key)
    modifies a
    ensures NewestFirstUpTo(a[..], i + 1, key)
    ensures multiset(a[..]) == multiset(old(a[..]))
  {
    var j := i;
    while j > 0 && key(a[j - 1]) < key(a[j])
      invariant 0 <= j <= i
      invariant forall p, q :: 0 <= p < q <= i && p != j && q != j ==> key(a[p]) >= key(a[q])
      invariant forall q :: j < q <= i ==> key(a[j]) > key(a[q])
      invariant multiset(a[..]) == multiset(old(a[..]))
    {
      Swap(a, j - 1, j);
      j := j - 1;
    }
  }

  method Swap(a: array<Doc>, i: int, j: int)
    requires 0 <= i < j < a.Length
    modifies a
    ensures a[..] == old(a[..])[i := old(a[j])][j := old(a[i])]
    ensures multiset(a[..]) == multiset(old(a[..]))
  {
    a[i], a[j] := a[j], a[i];
  }
}
