/**
 * `list.sort(key=…, reverse=…)`: an in-place sort of an array by a numeric
 * key, ascending or descending.
 */
module Sorting {
  import opened Seqs

  /** `x` may stand before `y` in the sorted order. */
  predicate Before<T>(key: T -> real, descending: bool, x: T, y: T) {
    if descending then key(x) >= key(y) else key(x) <= key(y)
  }

  /** The keys of `s` never decrease (ascending) or never increase (descending). */
  predicate SortedBy<T>(s: seq<T>, key: T -> real, descending: bool) {
    forall i, j :: 0 <= i < j < |s| ==> Before(key, descending, s[i], s[j])
  }

  /**
   * Insertion sort by adjacent swaps: afterwards the array is ordered by the
   * key and holds the same elements as before.
   */
  method SortByKey<T>(a: array<T>, key: T -> real, descending: bool)
    modifies a
    ensures SortedBy(a[..], key, descending)
    ensures multiset(a[..]) == multiset(old(a[..]))
  {
    if a.Length == 0 {
      return;
    }
    var i := 1;
    while i < a.Length
      invariant 1 <= i <= a.Length
      invariant SortedBy(a[..i], key, descending)
      invariant multiset(a[..]) == multiset(old(a[..]))
    {
      Insert(a, i, key, descending);
      i := i + 1;
    }
    assert a[..] == a[..a.Length];
  }

  /** Sorted up to `i` except that the element at `j` may be out of place, but not with anything to its right. */
  predicate SortedAround<T>(s: seq<T>, i: nat, j: nat, key: T -> real, descending: bool)
    requires j <= i < |s|
  {
    && (forall p, q :: 0 <= p < q <= i && p != j && q != j ==> Before(key, descending, s[p], s[q]))
    && (forall q :: j < q <= i ==> Before(key, descending, s[j], s[q]))
  }

  function Swap<T>(s: seq<T>, j: nat): (r: seq<T>)
    requires 0 < j < |s|
    ensures |r| == |s| && r[j - 1] == s[j] && r[j] == s[j - 1]
    ensures forall k :: 0 <= k < |s| && k != j - 1 && k != j ==> r[k] == s[k]
    ensures multiset(r) == multiset(s)
  {
    s[j - 1 := s[j]][j := s[j - 1]]
  }

  lemma SwapStep<T>(s: seq<T>, i: nat, j: nat, key: T -> real, descending: bool)
    requires 0 < j <= i < |s| && SortedAround(s, i, j, key, descending)
    requires !Before(key, descending, s[j - 1], s[j])
    ensures SortedAround(Swap(s, j), i, j - 1, key, descending)
  {
    var r := Swap(s, j);
    forall q | j - 1 < q <= i
      ensures Before(key, descending, r[j - 1], r[q])
    {
      if q > j {
        assert Before(key, descending, s[j], s[q]);
      }
    }
    forall p, q | 0 <= p < q <= i && p != j - 1 && q != j - 1
      ensures Before(key, descending, r[p], r[q])
    {
      if q == j {
        assert r[q] == s[j - 1];
        if p < j - 1 {
          assert Before(key, descending, s[p], s[j - 1]);
        }
      } else if p == j {
        assert Before(key, descending, s[j - 1], s[q]);
      }
    }
  }

  lemma InsertDone<T>(s: seq<T>, i: nat, j: nat, key: T -> real, descending: bool)
    requires j <= i < |s| && SortedAround(s, i, j, key, descending)
    requires j == 0 || Before(key, descending, s[j - 1], s[j])
    ensures SortedBy(s[..i + 1], key, descending)
  {
    forall p, q | 0 <= p < q <= i
      ensures Before(key, descending, s[p], s[q])
    {
      if q == j && p < j - 1 {
        assert Before(key, descending, s[p], s[j - 1]);
      }
    }
  }

  /** Moves `a[i]` left into the sorted prefix `a[..i]`. */
  method Insert<T>(a: array<T>, i: nat, key: T -> real, descending: bool)
    requires i < a.Length && SortedBy(a[..i], key, descending)
    modifies a
    ensures SortedBy(a[..i + 1], key, descending)
    ensures multiset(a[..]) == multiset(old(a[..]))
    ensures a[i + 1..] == old(a[i + 1..])
  {
    var j := i;
    assert SortedAround(a[..], i, j, key, descending) by {
      assert forall p, q :: 0 <= p < q < i ==> a[..i][p] == a[p] && a[..i][q] == a[q];
    }
    while j > 0 && !Before(key, descending, a[j - 1], a[j])
      invariant 0 <= j <= i
      invariant multiset(a[..]) == multiset(old(a[..]))
      invariant a[i + 1..] == old(a[i + 1..])
      invariant SortedAround(a[..], i, j, key, descending)
    {
      SwapStep(a[..], i, j, key, descending);
      ghost var before := a[..];
      a[j - 1], a[j] := a[j], a[j - 1];
      assert a[..] == Swap(before, j);
      j := j - 1;
    }
    InsertDone(a[..], i, j, key, descending);
  }

  /** Leaving elements out of a sorted sequence keeps it sorted. */
  lemma {:induction false} SortedSubsequence<T>(sub: seq<T>, s: seq<T>, key: T -> real, descending: bool)
    requires IsSubsequence(sub, s) && SortedBy(s, key, descending)
    ensures SortedBy(sub, key, descending)
    decreases |s|
  {
    if s != [] {
      assert SortedBy(s[1..], key, descending);
      if sub != [] && sub[0] == s[0] && IsSubsequence(sub[1..], s[1..]) {
        SortedSubsequence(sub[1..], s[1..], key, descending);
        SubsequenceMembers(sub[1..], s[1..]);
        forall j | 0 < j < |sub|
          ensures Before(key, descending, sub[0], sub[j])
        {
          assert sub[j] == sub[1..][j - 1];
          var m :| 0 <= m < |s[1..]| && s[1..][m] == sub[j];
          assert s[m + 1] == sub[j];
        }
        forall i, j | 0 <= i < j < |sub|
          ensures Before(key, descending, sub[i], sub[j])
        {
          if i > 0 {
            assert sub[i] == sub[1..][i - 1] && sub[j] == sub[1..][j - 1];
          }
        }
      } else {
        SortedSubsequence(sub, s[1..], key, descending);
      }
    }
  }
}
