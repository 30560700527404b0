/** Grouping amounts by category into an insertion-ordered dictionary, the
    step `acc[c] = (acc[c] || 0) + amount` that both the jar breakdown
    (src/hooks/useFinanceCalculations.ts:74) and the category chart
    (src/components/CategoryChart.jsx:8-11) perform, read back with
    `Object.entries` in the order the keys were first set. */
module Grouping {
  import opened Types
  import opened Ledger

  /** One dictionary entry: a category id and the amount gathered for it. */
  datatype CategoryTotal = CategoryTotal(id: string, amount: real)

  function Ids(g: seq<CategoryTotal>): set<string>
  {
    if g == [] then {} else {g[0].id} + Ids(g[1..])
  }

  /** No key appears twice. */
  predicate DistinctIds(g: seq<CategoryTotal>)
  {
    g == [] || (g[0].id !in Ids(g[1..]) && DistinctIds(g[1..]))
  }

  /** The value the dictionary holds for `c`, or 0 when it has no such key. */
  function AmountOf(g: seq<CategoryTotal>, c: string): real
  {
    if g == [] then 0.0
    else if g[0].id == c then g[0].amount
    else AmountOf(g[1..], c)
  }

  /** `Object.values(g).reduce((a, b) => a + b, 0)`. */
  function TotalOf(g: seq<CategoryTotal>): real
  {
    if g == [] then 0.0 else g[0].amount + TotalOf(g[1..])
  }

  /** `acc[c] = (acc[c] || 0) + amount`: an existing key keeps its place, a new
      key goes to the end. */
  function AddTo(acc: seq<CategoryTotal>, c: string, amount: real): (r: seq<CategoryTotal>)
    ensures Ids(r) == Ids(acc) + {c}
    ensures |r| == if c in Ids(acc) then |acc| else |acc| + 1
  {
    if acc == [] then [CategoryTotal(c, amount)]
    else if acc[0].id == c then [CategoryTotal(c, acc[0].amount + amount)] + acc[1..]
    else
      var r := [acc[0]] + AddTo(acc[1..], c, amount);
      assert r[1..] == AddTo(acc[1..], c, amount);
      r
  }

  lemma {:induction false} AddToTotal(acc: seq<CategoryTotal>, c: string, amount: real)
    ensures TotalOf(AddTo(acc, c, amount)) == TotalOf(acc) + amount
    decreases |acc|
  {
    if acc != [] && acc[0].id != c {
      var r := AddTo(acc, c, amount);
      assert r[1..] == AddTo(acc[1..], c, amount);
      AddToTotal(acc[1..], c, amount);
    } else if acc != [] {
      assert AddTo(acc, c, amount)[1..] == acc[1..];
    }
  }

  lemma {:induction false} AddToDistinct(acc: seq<CategoryTotal>, c: string, amount: real)
    requires DistinctIds(acc)
    ensures DistinctIds(AddTo(acc, c, amount))
    decreases |acc|
  {
    var r := AddTo(acc, c, amount);
    if acc != [] && acc[0].id != c {
      assert r[1..] == AddTo(acc[1..], c, amount);
      AddToDistinct(acc[1..], c, amount);
    } else if acc != [] {
      assert r[1..] == acc[1..];
    }
  }

  lemma {:induction false} AddToAmount(acc: seq<CategoryTotal>, c: string, amount: real, k: string)
    requires DistinctIds(acc)
    ensures AmountOf(AddTo(acc, c, amount), k) == AmountOf(acc, k) + (if k == c then amount else 0.0)
    decreases |acc|
  {
    var r := AddTo(acc, c, amount);
    if acc == [] {
    } else if acc[0].id != c {
      assert r[1..] == AddTo(acc[1..], c, amount);
      AddToAmount(acc[1..], c, amount, k);
    } else {
      assert r[1..] == acc[1..];
      if k == c {
        NotInAmountZero(acc[1..], c);
      }
    }
  }

  lemma {:induction false} NotInAmountZero(g: seq<CategoryTotal>, c: string)
    requires c !in Ids(g)
    ensures AmountOf(g, c) == 0.0
    decreases |g|
  {
    if g != [] {
      NotInAmountZero(g[1..], c);
    }
  }

  /** `t => t.category === c`. */
  function CategoryIs(c: string): Transaction -> bool
  {
    (t: Transaction) => t.category == c
  }

  /** `Object.entries(grouped)` after grouping `s`: one entry per category met
      in `s`, in order of first occurrence. */
  function GroupByCategory(s: seq<Transaction>): seq<CategoryTotal>
  {
    if s == [] then []
    else AddTo(GroupByCategory(s[..|s| - 1]), s[|s| - 1].category, s[|s| - 1].amount)
  }

  /** Grouping keeps one entry per category, and exactly the categories that
      occur in the list. */
  lemma {:induction false} GroupIdsDistinct(s: seq<Transaction>)
    ensures DistinctIds(GroupByCategory(s))
    ensures Ids(GroupByCategory(s)) == set t | t in s :: t.category
    decreases |s|
  {
    if s != [] {
      var s', t := s[..|s| - 1], s[|s| - 1];
      assert s == s' + [t];
      GroupIdsDistinct(s');
      AddToDistinct(GroupByCategory(s'), t.category, t.amount);
      assert (set u | u in s :: u.category) == (set u | u in s' :: u.category) + {t.category};
    }
  }

  /** Each category's entry holds the sum of that category's amounts. */
  lemma {:induction false} GroupAmounts(s: seq<Transaction>, c: string)
    ensures AmountOf(GroupByCategory(s), c) == Sum(Filter(s, CategoryIs(c)))
    decreases |s|
  {
    if s != [] {
      var s', t := s[..|s| - 1], s[|s| - 1];
      assert s == s' + [t];
      GroupAmounts(s', c);
      GroupSnoc(s', t);
      GroupIdsDistinct(s');
      AddToAmount(GroupByCategory(s'), t.category, t.amount, c);
      SumFilterSnoc(s', t, CategoryIs(c));
    }
  }

  lemma GroupSnoc(s: seq<Transaction>, t: Transaction)
    ensures GroupByCategory(s + [t]) == AddTo(GroupByCategory(s), t.category, t.amount)
  {
    assert (s + [t])[..|s + [t]| - 1] == s;
  }

  /** The grouped values add up to the sum of the whole list: grouping neither
      loses nor double counts. */
  lemma {:induction false} GroupTotal(s: seq<Transaction>)
    ensures TotalOf(GroupByCategory(s)) == Sum(s)
    decreases |s|
  {
    if s != [] {
      var s', t := s[..|s| - 1], s[|s| - 1];
      GroupTotal(s');
      AddToTotal(GroupByCategory(s'), t.category, t.amount);
    }
  }

  /** Each entry's amount is the sum of its category's amounts. */
  lemma EntryAmount(g: seq<CategoryTotal>, i: int)
    requires DistinctIds(g) && 0 <= i < |g|
    ensures g[i].amount == AmountOf(g, g[i].id)
  {
    if i > 0 {
      assert g[1..][i - 1] == g[i];
      EntryAmount(g[1..], i - 1);
      assert g[i].id in Ids(g[1..]) by { IdsMember(g[1..], i - 1); }
    }
  }

  /** The keys, read by position. */
  lemma {:induction false} IdsIndices(g: seq<CategoryTotal>)
    ensures Ids(g) == set j | 0 <= j < |g| :: g[j].id
    decreases |g|
  {
    if g != [] {
      IdsIndices(g[1..]);
      var all := set j | 0 <= j < |g| :: g[j].id;
      var tail := set j | 0 <= j < |g[1..]| :: g[1..][j].id;
      forall x | x in all ensures x in {g[0].id} + tail {
        var j :| 0 <= j < |g| && g[j].id == x;
        if j > 0 {
          assert g[1..][j - 1] == g[j];
        }
      }
      assert all == {g[0].id} + tail;
    }
  }

  lemma {:induction false} IdsMember(g: seq<CategoryTotal>, i: int)
    requires 0 <= i < |g|
    ensures g[i].id in Ids(g)
    decreases i
  {
    if i > 0 {
      assert g[1..][i - 1] == g[i];
      IdsMember(g[1..], i - 1);
    }
  }
}
