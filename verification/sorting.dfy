/** `Array.prototype.sort` with a comparator, as the tracker uses it: a stable
    sort (ECMAScript 2019 and later) that puts `a` before `b` whenever the
    comparator does not ask to swap them. The model is an insertion sort that
    inserts each element in front of the first already-sorted element it may
    precede; since the elements inserted later came earlier in the input, ties
    keep their input order. `first(a, b)` holds when `a` may stand before `b`. */
module Sorting {

  /** `first` orders every pair and is transitive: a total preorder. */
  ghost predicate TotalPreorder<T(!new)>(first: (T, T) -> bool)
  {
    && (forall a, b :: first(a, b) || first(b, a))
    && (forall a, b, c :: first(a, b) && first(b, c) ==> first(a, c))
  }

  predicate Sorted<T>(s: seq<T>, first: (T, T) -> bool)
  {
    forall i, j :: 0 <= i < j < |s| ==> first(s[i], s[j])
  }

  /** `x` placed in front of the first element of `s` it may precede. */
  function Insert<T>(x: T, s: seq<T>, first: (T, T) -> bool): (r: seq<T>)
    ensures multiset(r) == multiset(s) + multiset{x}
    ensures |r| == |s| + 1
  {
    if s == [] || first(x, s[0]) then [x] + s
    else
      assert s == [s[0]] + s[1..];
      [s[0]] + Insert(x, s[1..], first)
  }

  function Sort<T>(s: seq<T>, first: (T, T) -> bool): (r: seq<T>)
    ensures multiset(r) == multiset(s)
    ensures |r| == |s|
  {
    if s == [] then []
    else
      assert s == [s[0]] + s[1..];
      Insert(s[0], Sort(s[1..], first), first)
  }

  lemma {:induction false} InsertSorted<T(!new)>(x: T, s: seq<T>, first: (T, T) -> bool)
    requires TotalPreorder(first)
    requires Sorted(s, first)
    ensures Sorted(Insert(x, s, first), first)
    decreases |s|
  {
    if s != [] && !first(x, s[0]) {
      InsertSorted(x, s[1..], first);
      var r := Insert(x, s, first);
      var tail := Insert(x, s[1..], first);
      assert r == [s[0]] + tail;
      forall k | 0 <= k < |tail| ensures first(s[0], tail[k]) {
        assert tail[k] in multiset(tail);
        assert tail[k] == x || tail[k] in multiset(s[1..]);
        if tail[k] != x {
          var j :| 0 <= j < |s[1..]| && s[1..][j] == tail[k];
          assert s[j + 1] == tail[k];
        }
      }
    }
  }

  /** The result is ordered by `first` (and, by its ensures, a permutation). */
  lemma {:induction false} SortSorted<T(!new)>(s: seq<T>, first: (T, T) -> bool)
    requires TotalPreorder(first)
    ensures Sorted(Sort(s, first), first)
    decreases |s|
  {
    if s != [] {
      SortSorted(s[1..], first);
      InsertSorted(s[0], Sort(s[1..], first), first);
    }
  }

  /** Sorting a list that is already in order changes nothing. */
  lemma {:induction false} SortOfSorted<T>(s: seq<T>, first: (T, T) -> bool)
    requires Sorted(s, first)
    ensures Sort(s, first) == s
    decreases |s|
  {
    if s != [] {
      assert Sorted(s[1..], first);
      SortOfSorted(s[1..], first);
      assert s == [s[0]] + s[1..];
    }
  }

  /** Re-sorting one new element in front of an ordered list inserts it into
      that list, leaving the order of the others alone. */
  lemma ResortAfterPrepend<T>(x: T, s: seq<T>, first: (T, T) -> bool)
    requires Sorted(s, first)
    ensures Sort([x] + s, first) == Insert(x, s, first)
  {
    assert ([x] + s)[1..] == s;
    SortOfSorted(s, first);
  }
}
