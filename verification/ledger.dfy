/** Filtering and summing over transaction lists: the `filter` and
    `reduce((sum, t) => sum + t.amount, 0)` steps that every derived figure of
    the tracker is built from, and the month test shared by the engine, the
    store's selectors and the calendar. Both functions recurse on the last
    element, which is the order in which the source's loops visit a list. */
module Ledger {
  import opened Types

  /** `s.filter(p)`: the elements of `s` satisfying `p`, in their order. */
  function Filter(s: seq<Transaction>, p: Transaction -> bool): (r: seq<Transaction>)
    ensures |r| <= |s|
    ensures forall i :: 0 <= i < |r| ==> p(r[i])
  {
    if s == [] then []
    else Filter(s[..|s| - 1], p) + (if p(s[|s| - 1]) then [s[|s| - 1]] else [])
  }

  /** A filter keeps exactly the elements of the list that satisfy the predicate. */
  lemma {:induction false} FilterMembers(s: seq<Transaction>, p: Transaction -> bool)
    ensures forall t :: t in Filter(s, p) <==> t in s && p(t)
    decreases |s|
  {
    if s != [] {
      var s', x := s[..|s| - 1], s[|s| - 1];
      assert s == s' + [x];
      FilterMembers(s', p);
    }
  }

  /** The sum of the amounts, as `reduce((sum, t) => sum + t.amount, 0)`. */
  function Sum(s: seq<Transaction>): real
  {
    if s == [] then 0.0 else Sum(s[..|s| - 1]) + s[|s| - 1].amount
  }

  /** The data invariant of a transaction: its sign is carried by its type,
      never by a negative amount. */
  predicate NonNegative(s: seq<Transaction>)
  {
    forall i :: 0 <= i < |s| ==> s[i].amount >= 0.0
  }

  /** `d.getFullYear() === year && d.getMonth() === month`. */
  predicate InMonth(t: Transaction, ref: Date)
  {
    t.date.year == ref.year && t.date.month == ref.month
  }

  /** The records dated in the reference date's calendar month, in list order. */
  function MonthTransactions(s: seq<Transaction>, ref: Date): seq<Transaction>
  {
    Filter(s, InMonthOf(ref))
  }

  /** `t => isCurrentMonth(t)` for a fixed reference date. */
  function InMonthOf(ref: Date): Transaction -> bool
  {
    (t: Transaction) => InMonth(t, ref)
  }

  /** The predicates a filter is built from, named so that the same predicate
      written in two places is the same value. */
  function Not(p: Transaction -> bool): Transaction -> bool
  {
    (t: Transaction) => !p(t)
  }

  function And(p: Transaction -> bool, q: Transaction -> bool): Transaction -> bool
  {
    (t: Transaction) => p(t) && q(t)
  }

  function Always(): Transaction -> bool
  {
    (t: Transaction) => true
  }

  /** One step of either recursion: a list extended by one element. */
  lemma FilterSnoc(s: seq<Transaction>, t: Transaction, p: Transaction -> bool)
    ensures Filter(s + [t], p) == Filter(s, p) + (if p(t) then [t] else [])
    ensures Sum(s + [t]) == Sum(s) + t.amount
  {
    assert (s + [t])[..|s + [t]| - 1] == s;
  }

  /** The sum of a filtered list extended by one element. */
  lemma SumFilterSnoc(s: seq<Transaction>, t: Transaction, p: Transaction -> bool)
    ensures Sum(Filter(s + [t], p)) == Sum(Filter(s, p)) + (if p(t) then t.amount else 0.0)
  {
    FilterSnoc(s, t, p);
    if p(t) {
      FilterSnoc(Filter(s, p), t, p);
    } else {
      assert Filter(s, p) + [] == Filter(s, p);
    }
  }

  lemma {:induction false} SumAppend(a: seq<Transaction>, b: seq<Transaction>)
    ensures Sum(a + b) == Sum(a) + Sum(b)
    decreases |b|
  {
    if b == [] {
      assert a + b == a;
    } else {
      var b' := b[..|b| - 1];
      assert a + b == (a + b') + [b[|b| - 1]];
      assert b == b' + [b[|b| - 1]];
      FilterSnoc(a + b', b[|b| - 1], Always());
      FilterSnoc(b', b[|b| - 1], Always());
      SumAppend(a, b');
    }
  }

  lemma {:induction false} FilterAppend(a: seq<Transaction>, b: seq<Transaction>, p: Transaction -> bool)
    ensures Filter(a + b, p) == Filter(a, p) + Filter(b, p)
    decreases |b|
  {
    if b == [] {
      assert a + b == a;
    } else {
      var b' := b[..|b| - 1];
      var t := b[|b| - 1];
      assert a + b == (a + b') + [t];
      assert b == b' + [t];
      FilterSnoc(a + b', t, p);
      FilterSnoc(b', t, p);
      FilterAppend(a, b', p);
    }
  }

  /** Splitting a list by a predicate neither loses nor double counts an amount. */
  lemma {:induction false} SumPartition(s: seq<Transaction>, p: Transaction -> bool)
    ensures Sum(Filter(s, p)) + Sum(Filter(s, Not(p))) == Sum(s)
    decreases |s|
  {
    if s != [] {
      var s' := s[..|s| - 1];
      var t := s[|s| - 1];
      assert s == s' + [t];
      FilterSnoc(s', t, p);
      FilterSnoc(s', t, Not(p));
      SumPartition(s', p);
      SumAppend(Filter(s', p), if p(t) then [t] else []);
      SumAppend(Filter(s', Not(p)), if !p(t) then [t] else []);
      FilterSnoc([], t, Always());
    }
  }

  lemma {:induction false} SumNonNegative(s: seq<Transaction>)
    requires NonNegative(s)
    ensures Sum(s) >= 0.0
    decreases |s|
  {
    if s != [] {
      SumNonNegative(s[..|s| - 1]);
    }
  }

  /** A filter keeps the non-negativity of the list it filters. */
  lemma FilterNonNegative(s: seq<Transaction>, p: Transaction -> bool)
    requires NonNegative(s)
    ensures NonNegative(Filter(s, p))
  {
    var r := Filter(s, p);
    FilterMembers(s, p);
    forall i | 0 <= i < |r| ensures r[i].amount >= 0.0 {
      assert r[i] in s;
    }
  }

  /** With non-negative amounts, a weaker filter never sums to less. */
  lemma {:induction false} SumFilterMonotone(s: seq<Transaction>, p: Transaction -> bool, q: Transaction -> bool)
    requires NonNegative(s)
    requires forall t :: t in s && p(t) ==> q(t)
    ensures Sum(Filter(s, p)) <= Sum(Filter(s, q))
    decreases |s|
  {
    if s != [] {
      var s' := s[..|s| - 1];
      var t := s[|s| - 1];
      assert s == s' + [t];
      FilterSnoc(s', t, p);
      FilterSnoc(s', t, q);
      SumFilterMonotone(s', p, q);
      SumAppend(Filter(s', p), if p(t) then [t] else []);
      SumAppend(Filter(s', q), if q(t) then [t] else []);
      FilterSnoc([], t, Always());
    }
  }

  /** Filters that agree on every element of the list give the same result. */
  lemma {:induction false} FilterCongruent(s: seq<Transaction>, p: Transaction -> bool, q: Transaction -> bool)
    requires forall t :: t in s ==> p(t) == q(t)
    ensures Filter(s, p) == Filter(s, q)
    decreases |s|
  {
    if s != [] {
      FilterCongruent(s[..|s| - 1], p, q);
    }
  }

  /** Filtering a filtered list is filtering once by both predicates. */
  lemma {:induction false} FilterFilter(s: seq<Transaction>, p: Transaction -> bool, q: Transaction -> bool)
    ensures Filter(Filter(s, p), q) == Filter(s, And(p, q))
    decreases |s|
  {
    if s != [] {
      var s' := s[..|s| - 1];
      var t := s[|s| - 1];
      assert s == s' + [t];
      FilterSnoc(s', t, p);
      FilterSnoc(s', t, And(p, q));
      FilterAppend(Filter(s', p), if p(t) then [t] else [], q);
      FilterSnoc([], t, q);
      FilterFilter(s', p, q);
    }
  }

  /** A filter that rejects every element leaves nothing. */
  lemma {:induction false} FilterNone(s: seq<Transaction>, p: Transaction -> bool)
    requires forall t :: t in s ==> !p(t)
    ensures Filter(s, p) == []
    decreases |s|
  {
    if s != [] {
      FilterNone(s[..|s| - 1], p);
    }
  }

  /** A filter that keeps everything is the identity. */
  lemma {:induction false} FilterAlways(s: seq<Transaction>)
    ensures Filter(s, Always()) == s
    decreases |s|
  {
    if s != [] {
      FilterAlways(s[..|s| - 1]);
    }
  }
}
