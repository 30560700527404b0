/** The "Spending by Category" chart (src/components/CategoryChart.jsx:6-22):
    the expenses of the records it is given, grouped by category into a
    dictionary filled in place, then one entry per category with its share
    of the total, largest first. */
module CategoryChart {
  import opened Types
  import opened Ledger
  import opened Grouping
  import opened Sorting
  import opened Constants
  import opened Engine

  /** `t => t.type === 'expense'`. */
  function IsExpense(): Transaction -> bool
  {
    (t: Transaction) => t.kind == Expense
  }

  /** `(amount / total) * 100` as a JavaScript number: with a zero total
      the division gives `NaN` or an infinity, which no real can stand for. */
  datatype Percent = Finite(value: real) | NotFinite

  /** `{ ...CATEGORIES.find(c => c.id === catId), amount, percentage }`: an
      id missing from the table spreads `undefined`, which adds no field. */
  datatype ChartEntry = ChartEntry(category: Option<Category>, amount: real, percentage: Percent)

  /** `categories.find(c => c.id === id)`. */
  function FindCategory(categories: seq<Category>, id: string): (r: Option<Category>)
    ensures r.Some? ==> r.value in categories && r.value.id == id
    ensures r.None? <==> forall k :: 0 <= k < |categories| ==> categories[k].id != id
  {
    if categories == [] then None
    else if categories[0].id == id then Some(categories[0])
    else
      var r := FindCategory(categories[1..], id);
      assert forall k :: 1 <= k < |categories| ==> categories[k] == categories[1..][k - 1];
      r
  }

  function Percentage(amount: real, total: real): Percent
  {
    if total == 0.0 then NotFinite else Finite(amount / total * 100.0)
  }

  /** The `map` over `Object.entries(grouped)`. */
  function Entries(g: seq<CategoryTotal>, total: real): (r: seq<ChartEntry>)
    ensures |r| == |g|
  {
    if g == [] then []
    else
      var e := ChartEntry(FindCategory(CATEGORIES, g[0].id), g[0].amount, Percentage(g[0].amount, total));
      [e] + Entries(g[1..], total)
  }

  /** `(a, b) => b.amount - a.amount`: `a` stays in front unless `b` is larger. */
  function LargerFirst(): (ChartEntry, ChartEntry) -> bool
  {
    (a: ChartEntry, b: ChartEntry) => a.amount >= b.amount
  }

  /** The `expensesByCategory` memo. */
  function ExpensesByCategory(s: seq<Transaction>): seq<ChartEntry>
  {
    var g := GroupByCategory(Filter(s, IsExpense()));
    Sort(Entries(g, TotalOf(g)), LargerFirst())
  }

  /** The memo as the component computes it: the grouping `reduce`, which
      updates the dictionary in place, then the total, the entries and the sort. */
  method ComputeExpensesByCategory(s: seq<Transaction>) returns (entries: seq<ChartEntry>)
    ensures entries == ExpensesByCategory(s)
  {
    var grouped := GroupExpenses(Filter(s, IsExpense()));
    var total := TotalOf(grouped);
    entries := Sort(Entries(grouped, total), LargerFirst());
  }

  /** `expenses.reduce((acc, curr) => { acc[curr.category] = (acc[curr.category] || 0) + curr.amount; ... }, {})`. */
  method GroupExpenses(xs: seq<Transaction>) returns (grouped: seq<CategoryTotal>)
    ensures grouped == GroupByCategory(xs)
  {
    grouped := [];
    var i := 0;
    while i < |xs|
      invariant 0 <= i <= |xs|
      invariant grouped == GroupByCategory(xs[..i])
    {
      assert xs[..i + 1][..i] == xs[..i];
      grouped := AddTo(grouped, xs[i].category, xs[i].amount);
      i := i + 1;
    }
    assert xs[..i] == xs;
  }

  /** The chart's total is the total of the records' expenses, as the
      engine counts them. */
  lemma ChartTotalIsExpenses(s: seq<Transaction>)
    ensures TotalOf(GroupByCategory(Filter(s, IsExpense()))) == ExpensesOf(s)
  {
    GroupTotal(Filter(s, IsExpense()));
    FilterCongruent(s, IsExpense(), Not(IsIncome));
  }

  function AmountTotal(r: seq<ChartEntry>): real
  {
    if r == [] then 0.0 else r[0].amount + AmountTotal(r[1..])
  }

  /** The finite percentages added up. */
  function PercentTotal(r: seq<ChartEntry>): real
  {
    if r == [] then 0.0
    else (if r[0].percentage.Finite? then r[0].percentage.value else 0.0) + PercentTotal(r[1..])
  }

  lemma {:induction false} InsertTotals(x: ChartEntry, r: seq<ChartEntry>)
    ensures AmountTotal(Insert(x, r, LargerFirst())) == x.amount + AmountTotal(r)
    ensures PercentTotal(Insert(x, r, LargerFirst())) == PercentTotal([x]) + PercentTotal(r)
    decreases |r|
  {
    var y := Insert(x, r, LargerFirst());
    if r == [] || LargerFirst()(x, r[0]) {
      assert y[1..] == r;
    } else {
      assert y[1..] == Insert(x, r[1..], LargerFirst());
      InsertTotals(x, r[1..]);
    }
  }

  /** Sorting neither adds nor loses an amount or a percentage. */
  lemma {:induction false} SortTotals(r: seq<ChartEntry>)
    ensures AmountTotal(Sort(r, LargerFirst())) == AmountTotal(r)
    ensures PercentTotal(Sort(r, LargerFirst())) == PercentTotal(r)
    decreases |r|
  {
    if r != [] {
      SortTotals(r[1..]);
      InsertTotals(r[0], Sort(r[1..], LargerFirst()));
    }
  }

  lemma {:induction false} EntriesPercents(g: seq<CategoryTotal>, total: real)
    requires total != 0.0
    ensures PercentTotal(Entries(g, total)) == TotalOf(g) / total * 100.0
    decreases |g|
  {
    if g != [] {
      EntriesPercentStep(g, total);
      EntriesPercents(g[1..], total);
      ShareSum(g[0].amount, TotalOf(g[1..]), total);
    }
  }

  lemma EntriesPercentStep(g: seq<CategoryTotal>, total: real)
    requires total != 0.0 && g != []
    ensures PercentTotal(Entries(g, total)) == g[0].amount / total * 100.0 + PercentTotal(Entries(g[1..], total))
    ensures TotalOf(g) == g[0].amount + TotalOf(g[1..])
  {
    var e := Entries(g, total);
    assert e[1..] == Entries(g[1..], total);
    assert e[0].percentage == Finite(g[0].amount / total * 100.0);
  }

  lemma ShareSum(a: real, b: real, total: real)
    requires total != 0.0
    ensures a / total * 100.0 + b / total * 100.0 == (a + b) / total * 100.0
  {
    calc {
      a / total * 100.0 + b / total * 100.0;
      (a / total + b / total) * 100.0;
      { assert a / total + b / total == (a + b) / total; }
      (a + b) / total * 100.0;
    }
  }

  lemma {:induction false} EntryAt(g: seq<CategoryTotal>, total: real, i: int)
    requires 0 <= i < |g|
    ensures Entries(g, total)[i] == ChartEntry(FindCategory(CATEGORIES, g[i].id), g[i].amount, Percentage(g[i].amount, total))
    decreases i
  {
    if i > 0 {
      EntriesTail(g, total, i);
      EntryAt(g[1..], total, i - 1);
      assert g[1..][i - 1] == g[i];
    }
  }

  lemma EntriesTail(g: seq<CategoryTotal>, total: real, i: int)
    requires 0 < i < |g|
    ensures Entries(g, total)[i] == Entries(g[1..], total)[i - 1]
  {
    var e := Entries(g, total);
    assert e[1..] == Entries(g[1..], total);
    assert e[i] == e[1..][i - 1];
  }

  lemma {:induction false} DistinctIdsCount(g: seq<CategoryTotal>)
    requires DistinctIds(g)
    ensures |Ids(g)| == |g|
    decreases |g|
  {
    if g != [] {
      DistinctIdsCount(g[1..]);
    }
  }

  /** One entry per category with expenses, each holding the sum of that
      category's expenses and the category's table row (absent for an id the
      table lacks). */
  lemma ChartEntryPerCategory(s: seq<Transaction>)
    ensures |ExpensesByCategory(s)| == |set t | t in s && t.kind == Expense :: t.category|
    ensures var g := GroupByCategory(Filter(s, IsExpense()));
      forall i :: 0 <= i < |g| ==>
        Entries(g, TotalOf(g))[i].amount == Sum(Filter(Filter(s, IsExpense()), CategoryIs(g[i].id)))
        && Entries(g, TotalOf(g))[i].category == FindCategory(CATEGORIES, g[i].id)
  {
    var xs := Filter(s, IsExpense());
    var g := GroupByCategory(xs);
    var total := TotalOf(g);
    GroupIdsDistinct(xs);
    DistinctIdsCount(g);
    FilterMembers(s, IsExpense());
    assert (set t | t in xs :: t.category) == (set t | t in s && t.kind == Expense :: t.category);
    forall i | 0 <= i < |g|
      ensures Entries(g, total)[i].amount == Sum(Filter(xs, CategoryIs(g[i].id)))
        && Entries(g, total)[i].category == FindCategory(CATEGORIES, g[i].id)
    {
      EntryAt(g, total, i);
      EntryAmount(g, i);
      GroupAmounts(xs, g[i].id);
    }
  }

  /** The chart shows exactly those entries, largest amount first. */
  lemma ChartOrdered(s: seq<Transaction>)
    ensures var g := GroupByCategory(Filter(s, IsExpense()));
      multiset(ExpensesByCategory(s)) == multiset(Entries(g, TotalOf(g)))
    ensures var r := ExpensesByCategory(s);
      forall i, j :: 0 <= i < j < |r| ==> r[i].amount >= r[j].amount
  {
    var g := GroupByCategory(Filter(s, IsExpense()));
    var r := ExpensesByCategory(s);
    assert TotalPreorder(LargerFirst());
    SortSorted(Entries(g, TotalOf(g)), LargerFirst());
    forall i, j | 0 <= i < j < |r| ensures r[i].amount >= r[j].amount {
      assert LargerFirst()(r[i], r[j]);
    }
  }

  /** The entries add up to the expense total, and when that total is not
      zero their percentages add up to 100. */
  lemma ChartTotals(s: seq<Transaction>)
    ensures AmountTotal(ExpensesByCategory(s)) == ExpensesOf(s)
    ensures ExpensesOf(s) != 0.0 ==> PercentTotal(ExpensesByCategory(s)) == 100.0
  {
    var g := GroupByCategory(Filter(s, IsExpense()));
    ChartTotalIsExpenses(s);
    SortedEntriesTotals(g, TotalOf(g));
  }

  lemma SortedEntriesTotals(g: seq<CategoryTotal>, total: real)
    requires total == TotalOf(g)
    ensures AmountTotal(Sort(Entries(g, total), LargerFirst())) == total
    ensures total != 0.0 ==> PercentTotal(Sort(Entries(g, total), LargerFirst())) == 100.0
  {
    SortTotals(Entries(g, total));
    EntriesAmounts(g, total);
    if total != 0.0 {
      EntriesPercents(g, total);
      WholeIsHundred(total);
    }
  }

  lemma WholeIsHundred(total: real)
    requires total != 0.0
    ensures total / total * 100.0 == 100.0
  {
  }

  lemma {:induction false} EntriesAmounts(g: seq<CategoryTotal>, total: real)
    ensures AmountTotal(Entries(g, total)) == TotalOf(g)
    decreases |g|
  {
    if g != [] {
      assert Entries(g, total)[1..] == Entries(g[1..], total);
      EntriesAmounts(g[1..], total);
    }
  }
}
