/** The derived-metrics engine (src/hooks/useFinanceCalculations.ts): from a
    transaction list, a reference date and a jar/category configuration it
    computes the month's income and expense totals, the balance, the 54%
    spending budget, the per-jar allocations, the "consumption" spend and the
    previous month's buffer leftover with its already-swept check. The two
    accumulations the source performs by mutating an accumulator in a loop
    (the totals `reduce` and the `jarData` `forEach`) are methods proved
    against declarative filter-and-sum definitions; the rest are functions. */
module Engine {
  import opened Types
  import opened Ledger
  import opened Grouping
  import opened Strings
  import opened Dates
  import opened Progress
  import opened Constants

  /** The share of income the spending jars receive (line 55). */
  const DYNAMIC_BUDGET_FACTOR: real := 0.54
  /** The buffer share, written as a literal in the leftover rule (line 130). */
  const BUFFER_TARGET_FACTOR: real := 0.06
  /** The jars whose expenses count as consumption (line 111). */
  const CONSUMPTION_JARS: seq<string> := ["necessities", "play", "give", "buffer"]
  /** The tag of sweep-generated records (line 127). */
  const SWEEP_TAG: string := "Buffer Sweep"

  datatype Totals = Totals(income: real, expenses: real)

  /** One `jarData` entry: the jar's running total and its per-category dictionary. */
  datatype JarAccum = JarAccum(total: real, categories: seq<CategoryTotal>)

  datatype PrevMonthStatus = PrevMonthStatus(leftover: real, isAlreadySwept: bool, monthName: string)

  datatype Config = Config(categories: seq<Category>, jarConfig: seq<Jar>, categoryToJarMapping: CategoryMapping)

  datatype FinanceCalculations = FinanceCalculations(
    totals: Totals,
    balance: real,
    dynamicBudget: real,
    jarAllocations: seq<JarAllocationData>,
    consumptionExpenses: real,
    prevMonthData: PrevMonthStatus)

  // ---------------------------------------------------------------- totals

  predicate IsIncome(t: Transaction)
  {
    t.kind == Income
  }

  function IncomeOf(s: seq<Transaction>): real
  {
    Sum(Filter(s, IsIncome))
  }

  /** Every record that is not 'income' counts as an expense (line 47). */
  function ExpensesOf(s: seq<Transaction>): real
  {
    Sum(Filter(s, Not(IsIncome)))
  }

  /** An independent reading of the balance: every record adds its amount
      with the sign its type gives it. */
  function SignedSum(s: seq<Transaction>): real
  {
    if s == [] then 0.0
    else SignedSum(s[..|s| - 1]) + (if IsIncome(s[|s| - 1]) then s[|s| - 1].amount else -s[|s| - 1].amount)
  }

  /** The `totals` reduce: one pass over the month's records, adding each
      amount to income or to expenses. */
  method ComputeTotals(txs: seq<Transaction>, currentDate: Date) returns (totals: Totals)
    ensures totals.income == IncomeOf(MonthTransactions(txs, currentDate))
    ensures totals.expenses == ExpensesOf(MonthTransactions(txs, currentDate))
  {
    var monthTxs := MonthTransactions(txs, currentDate);
    totals := TotalsOf(monthTxs);
  }

  /** The reduce itself, over an already filtered list. */
  method TotalsOf(s: seq<Transaction>) returns (totals: Totals)
    ensures totals.income == IncomeOf(s)
    ensures totals.expenses == ExpensesOf(s)
  {
    totals := Totals(0.0, 0.0);
    var i := 0;
    while i < |s|
      invariant 0 <= i <= |s|
      invariant totals.income == IncomeOf(s[..i])
      invariant totals.expenses == ExpensesOf(s[..i])
    {
      var curr := s[i];
      assert s[..i + 1] == s[..i] + [curr];
      TotalsSnoc(s[..i], curr);
      if curr.kind == Income {
        totals := totals.(income := totals.income + curr.amount);
      } else {
        totals := totals.(expenses := totals.expenses + curr.amount);
      }
      i := i + 1;
    }
    assert s[..i] == s;
  }

  /** One record added to a list adds its amount to exactly one of the two totals. */
  lemma TotalsSnoc(s: seq<Transaction>, t: Transaction)
    ensures IncomeOf(s + [t]) == IncomeOf(s) + (if IsIncome(t) then t.amount else 0.0)
    ensures ExpensesOf(s + [t]) == ExpensesOf(s) + (if IsIncome(t) then 0.0 else t.amount)
  {
    SumFilterSnoc(s, t, IsIncome);
    SumFilterSnoc(s, t, Not(IsIncome));
  }

  /** Income and expenses partition the month's records: together they are
      the whole month, and the balance is the signed sum, so nothing is
      counted twice or left out. */
  lemma {:induction false} TotalsPartition(s: seq<Transaction>)
    ensures IncomeOf(s) + ExpensesOf(s) == Sum(s)
    ensures IncomeOf(s) - ExpensesOf(s) == SignedSum(s)
    ensures NonNegative(s) ==> IncomeOf(s) >= 0.0 && ExpensesOf(s) >= 0.0
    decreases |s|
  {
    if s != [] {
      var s', t := s[..|s| - 1], s[|s| - 1];
      assert s == s' + [t];
      TotalsPartition(s');
      TotalsSnoc(s', t);
    }
    if NonNegative(s) {
      FilterNonNegative(s, IsIncome);
      FilterNonNegative(s, Not(IsIncome));
      SumNonNegative(Filter(s, IsIncome));
      SumNonNegative(Filter(s, Not(IsIncome)));
    }
  }

  // ---------------------------------------------------------------- jars

  /** The month's expense records, in list order (lines 66-69). */
  function MonthExpenses(txs: seq<Transaction>, currentDate: Date): seq<Transaction>
  {
    Filter(txs, And(InMonthOf(currentDate), Not(IsIncome)))
  }

  /** The record's category maps to `jarId`, and `jarId` is a non-empty
      string (the `jarId &&` test of line 72). */
  function ResolvesTo(mapping: CategoryMapping, jarId: string): Transaction -> bool
  {
    (t: Transaction) => t.category in mapping && mapping[t.category] == jarId && jarId != ""
  }

  /** The month's expenses that count toward jar `jarId`. */
  function JarTransactions(txs: seq<Transaction>, currentDate: Date, mapping: CategoryMapping, jarId: string): seq<Transaction>
  {
    Filter(MonthExpenses(txs, currentDate), ResolvesTo(mapping, jarId))
  }

  function JarAccumOf(s: seq<Transaction>): JarAccum
  {
    JarAccum(Sum(s), GroupByCategory(s))
  }

  /** `jarData` after the records of `s` have been added: for each id in
      `ids`, the total and the per-category grouping of the records that
      resolve to it. */
  function JarDataAt(s: seq<Transaction>, ids: set<string>, mapping: CategoryMapping): map<string, JarAccum>
  {
    map id | id in ids :: JarAccumOf(Filter(s, ResolvesTo(mapping, id)))
  }

  lemma JarDataAtKeys(s: seq<Transaction>, ids: set<string>, mapping: CategoryMapping)
    ensures JarDataAt(s, ids, mapping).Keys == ids
  {
  }

  /** What `jarData` should hold after the loop: for each configured jar, the
      total and the per-category grouping of the month's expenses that
      resolve to it. Expenses whose category is unmapped, or mapped to a jar
      that is not configured, appear under no key. */
  function JarDataOf(txs: seq<Transaction>, currentDate: Date, jarConfig: seq<Jar>, mapping: CategoryMapping): map<string, JarAccum>
  {
    JarDataAt(MonthExpenses(txs, currentDate), JarIds(jarConfig), mapping)
  }

  /** One expense added to `jarData`, when its category maps to a jar that
      is a key: that jar's entry grows by the amount, in its total and in its
      category's line, and every other entry stays as it was. */
  lemma JarDataAdd(s: seq<Transaction>, t: Transaction, ids: set<string>, mapping: CategoryMapping)
    requires t.category in mapping && mapping[t.category] != "" && mapping[t.category] in ids
    ensures var before := JarDataAt(s, ids, mapping);
      var jarId := mapping[t.category];
      JarDataAt(s + [t], ids, mapping)
        == before[jarId := JarAccum(before[jarId].total + t.amount, AddTo(before[jarId].categories, t.category, t.amount))]
  {
    var before := JarDataAt(s, ids, mapping);
    var after := JarDataAt(s + [t], ids, mapping);
    var jarId := mapping[t.category];
    var v := JarAccum(before[jarId].total + t.amount, AddTo(before[jarId].categories, t.category, t.amount));
    JarDataHit(s, t, ids, mapping);
    JarDataUpdate(s, t, ids, mapping, v);
  }

  /** The entry of the key the record's category maps to. */
  lemma JarDataHit(s: seq<Transaction>, t: Transaction, ids: set<string>, mapping: CategoryMapping)
    requires t.category in mapping && mapping[t.category] != "" && mapping[t.category] in ids
    ensures var k := mapping[t.category];
      var before := JarDataAt(s, ids, mapping)[k];
      JarDataAt(s + [t], ids, mapping)[k]
        == JarAccum(before.total + t.amount, AddTo(before.categories, t.category, t.amount))
  {
    JarDataStepAt(s, t, ids, mapping, mapping[t.category]);
    assert ResolvesTo(mapping, mapping[t.category])(t);
  }

  /** Adding a record whose category maps to key `k` changes no other key. */
  lemma JarDataUpdate(s: seq<Transaction>, t: Transaction, ids: set<string>, mapping: CategoryMapping, v: JarAccum)
    requires t.category in mapping && mapping[t.category] in ids
    requires JarDataAt(s + [t], ids, mapping)[mapping[t.category]] == v
    ensures JarDataAt(s + [t], ids, mapping) == JarDataAt(s, ids, mapping)[mapping[t.category] := v]
  {
    var before := JarDataAt(s, ids, mapping);
    var after := JarDataAt(s + [t], ids, mapping);
    var k := mapping[t.category];
    JarDataAtKeys(s, ids, mapping);
    JarDataAtKeys(s + [t], ids, mapping);
    forall id | id in before && id != k ensures after[id] == before[id] {
      JarDataStepAt(s, t, ids, mapping, id);
    }
    UpdateOne(before, after, k, v);
  }

  /** One expense added to `jarData`, when its category is unmapped or maps to
      a jar that is not a key: nothing changes. */
  lemma JarDataSkip(s: seq<Transaction>, t: Transaction, ids: set<string>, mapping: CategoryMapping)
    requires !(t.category in mapping && mapping[t.category] != "" && mapping[t.category] in ids)
    ensures JarDataAt(s + [t], ids, mapping) == JarDataAt(s, ids, mapping)
  {
    var before := JarDataAt(s, ids, mapping);
    var after := JarDataAt(s + [t], ids, mapping);
    forall id | id in ids ensures after[id] == before[id] {
      JarDataStepAt(s, t, ids, mapping, id);
    }
    assert after.Keys == before.Keys;
  }

  /** Two maps with the same keys that differ at most at `k`. */
  lemma UpdateOne(before: map<string, JarAccum>, after: map<string, JarAccum>, k: string, v: JarAccum)
    requires after.Keys == before.Keys && k in before && after[k] == v
    requires forall id :: id in before && id != k ==> after[id] == before[id]
    ensures after == before[k := v]
  {
    assert after.Keys == before[k := v].Keys;
  }

  lemma JarDataStepAt(s: seq<Transaction>, t: Transaction, ids: set<string>, mapping: CategoryMapping, id: string)
    requires id in ids
    ensures var before := JarDataAt(s, ids, mapping);
      JarDataAt(s + [t], ids, mapping)[id] == if ResolvesTo(mapping, id)(t) then
        JarAccum(before[id].total + t.amount, AddTo(before[id].categories, t.category, t.amount))
        else before[id]
  {
    JarAccumSnoc(s, t, ResolvesTo(mapping, id));
  }

  /** The per-jar form of one step. */
  lemma JarAccumSnoc(s: seq<Transaction>, t: Transaction, p: Transaction -> bool)
    ensures JarAccumOf(Filter(s + [t], p)) == if p(t) then
      JarAccum(Sum(Filter(s, p)) + t.amount, AddTo(GroupByCategory(Filter(s, p)), t.category, t.amount))
      else JarAccumOf(Filter(s, p))
  {
    var f := Filter(s, p);
    FilterSnoc(s, t, p);
    if p(t) {
      FilterSnoc(f, t, p);
      assert (f + [t])[..|f + [t]| - 1] == f;
    } else {
      assert f + [] == f;
    }
  }

  /** The `jarData` construction (lines 60-76): one zero entry per configured
      jar, then one pass over the month's expenses adding each to the jar its
      category maps to, when that jar is configured. */
  method AccumulateJars(txs: seq<Transaction>, currentDate: Date, jarConfig: seq<Jar>, mapping: CategoryMapping)
    returns (jarData: map<string, JarAccum>)
    ensures jarData == JarDataOf(txs, currentDate, jarConfig, mapping)
  {
    var xs := MonthExpenses(txs, currentDate);
    jarData := JarDataFor(xs, jarConfig, mapping);
  }

  /** `jarConfig.forEach(jar => { jarData[jar.id] = { total: 0, categories: {} } })`. */
  method EmptyJarData(jarConfig: seq<Jar>, mapping: CategoryMapping) returns (jarData: map<string, JarAccum>)
    ensures jarData == JarDataAt([], JarIds(jarConfig), mapping)
  {
    jarData := map[];
    var k := 0;
    while k < |jarConfig|
      invariant 0 <= k <= |jarConfig|
      invariant jarData.Keys == set j | 0 <= j < k :: jarConfig[j].id
      invariant forall id :: id in jarData ==> jarData[id] == JarAccum(0.0, [])
    {
      jarData := jarData[jarConfig[k].id := JarAccum(0.0, [])];
      k := k + 1;
    }
    var spec := JarDataAt([], JarIds(jarConfig), mapping);
    forall id | id in spec ensures spec[id] == JarAccum(0.0, []) {
      assert Filter([], ResolvesTo(mapping, id)) == [];
    }
    assert jarData.Keys == spec.Keys;
  }

  /** The two loops themselves, over an already filtered expense list. */
  method JarDataFor(xs: seq<Transaction>, jarConfig: seq<Jar>, mapping: CategoryMapping)
    returns (jarData: map<string, JarAccum>)
    ensures jarData == JarDataAt(xs, JarIds(jarConfig), mapping)
  {
    jarData := EmptyJarData(jarConfig, mapping);
    var i := 0;
    assert xs[..i] == [];
    while i < |xs|
      invariant 0 <= i <= |xs|
      invariant jarData == JarDataAt(xs[..i], JarIds(jarConfig), mapping)
    {
      assert xs[..i + 1] == xs[..i] + [xs[i]];
      jarData := AddExpense(jarData, xs[i], mapping, xs[..i], JarIds(jarConfig));
      i := i + 1;
    }
    assert xs[..i] == xs;
  }

  /** The body of the `forEach` (lines 70-75): the expense goes to the jar its
      category maps to, when that id is non-empty and already a key of
      `jarData`; `seen` and `ids` name the state `jarData` stands for. */
  method AddExpense(jarData: map<string, JarAccum>, t: Transaction, mapping: CategoryMapping,
                    ghost seen: seq<Transaction>, ghost ids: set<string>)
    returns (r: map<string, JarAccum>)
    requires jarData == JarDataAt(seen, ids, mapping)
    ensures r == JarDataAt(seen + [t], ids, mapping)
  {
    JarDataAtKeys(seen, ids, mapping);
    r := jarData;
    if t.category in mapping {
      var jarId := mapping[t.category];
      if jarId != "" && jarId in jarData {
        var acc := jarData[jarId];
        JarDataAdd(seen, t, ids, mapping);
        r := jarData[jarId := JarAccum(acc.total + t.amount, AddTo(acc.categories, t.category, t.amount))];
        return;
      }
    }
    JarDataSkip(seen, t, ids, mapping);
  }

  /** No row before position `i` has the id `catId`. */
  predicate NoEarlierId(categories: seq<Category>, catId: string, i: int)
  {
    forall k :: 0 <= k < i && k < |categories| ==> categories[k].id != catId
  }

  /** `categories.find(c => c.id === catId)?.name || catId`: the display name,
      or the raw id when the category is unknown or its name is empty. */
  function CategoryName(categories: seq<Category>, catId: string): (name: string)
    ensures name == catId || exists i :: 0 <= i < |categories| && categories[i].id == catId && categories[i].name == name
    ensures (forall i :: 0 <= i < |categories| ==> categories[i].id != catId) ==> name == catId
    ensures forall i :: 0 <= i < |categories| && categories[i].id == catId && NoEarlierId(categories, catId, i) ==>
      name == if categories[i].name != "" then categories[i].name else catId
  {
    if categories == [] then catId
    else if categories[0].id == catId then (if categories[0].name != "" then categories[0].name else catId)
    else
      var name := CategoryName(categories[1..], catId);
      assert forall i :: 0 < i < |categories| && NoEarlierId(categories, catId, i) ==> NoEarlierId(categories[1..], catId, i - 1) by {
        forall i | 0 < i < |categories| && NoEarlierId(categories, catId, i)
          ensures NoEarlierId(categories[1..], catId, i - 1)
        {
          forall k | 0 <= k < i - 1 ensures categories[1..][k].id != catId {
            assert categories[1..][k] == categories[k + 1];
          }
        }
      }
      assert forall i :: 0 < i < |categories| ==> categories[1..][i - 1] == categories[i];
      assert name != catId ==> exists i :: 1 <= i < |categories| && categories[i].id == catId && categories[i].name == name by {
        if name != catId {
          var i :| 0 <= i < |categories[1..]| && categories[1..][i].id == catId && categories[1..][i].name == name;
          assert categories[i + 1] == categories[1..][i];
        }
      }
      name
  }

  /** `Object.entries(...).map(...)` into breakdown lines, in key order. */
  function Breakdown(g: seq<CategoryTotal>, categories: seq<Category>): (r: seq<CategoryShare>)
    ensures |r| == |g|
    ensures forall i :: 0 <= i < |r| ==> r[i].id == g[i].id && r[i].amount == g[i].amount
  {
    seq(|g|, i requires 0 <= i < |g| => CategoryShare(g[i].id, CategoryName(categories, g[i].id), g[i].amount))
  }

  function SharesTotal(r: seq<CategoryShare>): real
  {
    if r == [] then 0.0 else r[0].amount + SharesTotal(r[1..])
  }

  /** One element of the `jarConfig.map` (lines 79-97). */
  function Allocate(jar: Jar, income: real, jarData: map<string, JarAccum>, categories: seq<Category>): JarAllocationData
  {
    var target := income * jar.percentage;
    var current := if jar.id in jarData then jarData[jar.id].total else 0.0;
    var cats := if jar.id in jarData then jarData[jar.id].categories else [];
    JarAllocationData(
      jar.id, jar.name, CappedPercent(current, target), jar.color,
      target, current, current > target, Breakdown(cats, categories))
  }

  /** One allocation per configured jar, in configuration order, keeping each
      jar's id, name and colour. */
  function JarAllocations(jarConfig: seq<Jar>, income: real, jarData: map<string, JarAccum>, categories: seq<Category>)
    : (r: seq<JarAllocationData>)
    ensures |r| == |jarConfig|
    ensures forall i :: 0 <= i < |r| ==>
      r[i].id == jarConfig[i].id && r[i].name == jarConfig[i].name && r[i].color == jarConfig[i].color
  {
    seq(|jarConfig|, i requires 0 <= i < |jarConfig| => Allocate(jarConfig[i], income, jarData, categories))
  }

  lemma {:induction false} SharesTotalIsGroupTotal(g: seq<CategoryTotal>, categories: seq<Category>)
    ensures SharesTotal(Breakdown(g, categories)) == TotalOf(g)
    decreases |g|
  {
    if g != [] {
      SharesTotalIsGroupTotal(g[1..], categories);
      assert Breakdown(g, categories)[1..] == Breakdown(g[1..], categories);
    }
  }

  /** The entry `jarData` holds for a configured jar. */
  lemma JarDataOfEntry(txs: seq<Transaction>, currentDate: Date, jarConfig: seq<Jar>, mapping: CategoryMapping, i: int)
    requires 0 <= i < |jarConfig|
    ensures jarConfig[i].id in JarDataOf(txs, currentDate, jarConfig, mapping)
    ensures JarDataOf(txs, currentDate, jarConfig, mapping)[jarConfig[i].id]
      == JarAccumOf(JarTransactions(txs, currentDate, mapping, jarConfig[i].id))
  {
    JarDataAtKeys(MonthExpenses(txs, currentDate), JarIds(jarConfig), mapping);
  }

  /** What each jar's figures mean, for the month's income `income`: its
      target is its share of that income; its current amount is the sum of the month's expenses that
      resolve to it; its progress is CappedPercent(current, target), i.e.
      current / target * 100 capped at 100, so it lies in [0, 100] for
      non-negative amounts, is 0 without a positive target and reaches 100
      exactly when the jar is full; and it is over exactly when the uncapped current amount exceeds
      the target. */
  lemma JarAllocationFigures(txs: seq<Transaction>, currentDate: Date, config: Config, income: real, i: int)
    requires 0 <= i < |config.jarConfig|
    ensures var jar := config.jarConfig[i];
      var a := JarAllocations(config.jarConfig, income,
        JarDataOf(txs, currentDate, config.jarConfig, config.categoryToJarMapping), config.categories)[i];
      && a.target == income * jar.percentage
      && a.current == Sum(JarTransactions(txs, currentDate, config.categoryToJarMapping, jar.id))
      && (NonNegative(txs) ==> 0.0 <= a.percentage <= 100.0)
      && (a.target <= 0.0 ==> a.percentage == 0.0)
      && (a.target > 0.0 ==> (a.percentage == 100.0 <==> a.current >= a.target))
      && a.percentage == CappedPercent(a.current, a.target)
      && (a.isOver <==> a.current > a.target)
  {
    var mapping := config.categoryToJarMapping;
    var jar := config.jarConfig[i];
    var jarData := JarDataOf(txs, currentDate, config.jarConfig, mapping);
    var jt := JarTransactions(txs, currentDate, mapping, jar.id);
    JarDataOfEntry(txs, currentDate, config.jarConfig, mapping, i);
    assert JarAllocations(config.jarConfig, income, jarData, config.categories)[i]
      == Allocate(jar, income, jarData, config.categories);
    AllocateFigures(jar, income, jarData, config.categories);
    if NonNegative(txs) {
      JarSumNonNegative(txs, currentDate, mapping, jar.id);
    }
  }

  /** The figures of one allocation, from the jar's entry in `jarData`. */
  lemma AllocateFigures(jar: Jar, income: real, jarData: map<string, JarAccum>, categories: seq<Category>)
    requires jar.id in jarData
    ensures var a := Allocate(jar, income, jarData, categories);
      && a.target == income * jar.percentage
      && a.current == jarData[jar.id].total
      && (a.current >= 0.0 ==> 0.0 <= a.percentage <= 100.0)
      && (a.target <= 0.0 ==> a.percentage == 0.0)
      && (a.target > 0.0 ==> (a.percentage == 100.0 <==> a.current >= a.target))
      && a.percentage == CappedPercent(a.current, a.target)
      && (a.isOver <==> a.current > a.target)
  {
  }

  lemma JarSumNonNegative(txs: seq<Transaction>, currentDate: Date, mapping: CategoryMapping, jarId: string)
    requires NonNegative(txs)
    ensures Sum(JarTransactions(txs, currentDate, mapping, jarId)) >= 0.0
  {
    FilterNonNegative(txs, And(InMonthOf(currentDate), Not(IsIncome)));
    FilterNonNegative(MonthExpenses(txs, currentDate), ResolvesTo(mapping, jarId));
    SumNonNegative(JarTransactions(txs, currentDate, mapping, jarId));
  }

  /** What each jar's breakdown means: it lists each category of the jar's
      expenses once, with that category's sum, and its lines add up to the
      jar's current amount. */
  lemma JarBreakdownCorrect(txs: seq<Transaction>, currentDate: Date, config: Config, income: real, i: int)
    requires 0 <= i < |config.jarConfig|
    ensures var jt := JarTransactions(txs, currentDate, config.categoryToJarMapping, config.jarConfig[i].id);
      var a := JarAllocations(config.jarConfig, income,
        JarDataOf(txs, currentDate, config.jarConfig, config.categoryToJarMapping), config.categories)[i];
      && SharesTotal(a.categories) == a.current
      && (forall j, k :: 0 <= j < k < |a.categories| ==> a.categories[j].id != a.categories[k].id)
      && (forall j :: 0 <= j < |a.categories| ==> a.categories[j].amount == Sum(Filter(jt, CategoryIs(a.categories[j].id))))
      && (set j | 0 <= j < |a.categories| :: a.categories[j].id) == (set t | t in jt :: t.category)
  {
    var mapping := config.categoryToJarMapping;
    var jar := config.jarConfig[i];
    var jt := JarTransactions(txs, currentDate, mapping, jar.id);
    JarDataOfEntry(txs, currentDate, config.jarConfig, mapping, i);
    var g := GroupByCategory(jt);
    GroupTotal(jt);
    SharesTotalIsGroupTotal(g, config.categories);
    GroupIdsDistinct(jt);
    DistinctIdsPairwise(g);
    forall j | 0 <= j < |g| ensures g[j].amount == Sum(Filter(jt, CategoryIs(g[j].id))) {
      EntryAmount(g, j);
      GroupAmounts(jt, g[j].id);
    }
    BreakdownIds(g, config.categories);
  }

  /** The breakdown lines carry exactly the grouped keys. */
  lemma BreakdownIds(g: seq<CategoryTotal>, categories: seq<Category>)
    ensures var r := Breakdown(g, categories);
      (set j | 0 <= j < |r| :: r[j].id) == Ids(g)
  {
    var r := Breakdown(g, categories);
    IdsIndices(g);
    assert (set j | 0 <= j < |r| :: r[j].id) == (set j | 0 <= j < |g| :: g[j].id);
  }

  /** The recursive no-duplicates rule, read pairwise. */
  lemma {:induction false} DistinctIdsPairwise(g: seq<CategoryTotal>)
    requires DistinctIds(g)
    ensures forall j, k :: 0 <= j < k < |g| ==> g[j].id != g[k].id
    decreases |g|
  {
    if g != [] {
      DistinctIdsPairwise(g[1..]);
      forall k | 0 < k < |g| ensures g[0].id != g[k].id {
        assert g[1..][k - 1] == g[k];
        IdsMember(g[1..], k - 1);
      }
      forall j, k | 0 < j < k < |g| ensures g[j].id != g[k].id {
        assert g[1..][j - 1] == g[j] && g[1..][k - 1] == g[k];
      }
    }
  }

  // ---------------------------------------------------------------- consumption

  /** The record's category maps to a non-empty jar id that is one of `jarIds`. */
  function MappedInto(mapping: CategoryMapping, jarIds: seq<string>): Transaction -> bool
  {
    (t: Transaction) => t.category in mapping && mapping[t.category] != "" && mapping[t.category] in jarIds
  }

  /** Lines 101-114: the month's expenses whose jar is a spending jar. */
  function ConsumptionExpenses(txs: seq<Transaction>, currentDate: Date, mapping: CategoryMapping): real
  {
    Sum(Filter(MonthExpenses(txs, currentDate), MappedInto(mapping, CONSUMPTION_JARS)))
  }

  /** The month's expenses, read through the totals' filters. */
  lemma MonthExpensesAreExpenses(txs: seq<Transaction>, currentDate: Date)
    ensures ExpensesOf(MonthTransactions(txs, currentDate)) == Sum(MonthExpenses(txs, currentDate))
  {
    FilterFilter(txs, InMonthOf(currentDate), Not(IsIncome));
  }

  /** Consumption spend is part of the month's expenses: with non-negative
      amounts it lies between 0 and `totals.expenses`. */
  lemma ConsumptionWithinExpenses(txs: seq<Transaction>, currentDate: Date, mapping: CategoryMapping)
    requires NonNegative(txs)
    ensures 0.0 <= ConsumptionExpenses(txs, currentDate, mapping) <= ExpensesOf(MonthTransactions(txs, currentDate))
  {
    var xs := MonthExpenses(txs, currentDate);
    MonthExpensesAreExpenses(txs, currentDate);
    FilterNonNegative(txs, And(InMonthOf(currentDate), Not(IsIncome)));
    SumPartition(xs, MappedInto(mapping, CONSUMPTION_JARS));
    var p := MappedInto(mapping, CONSUMPTION_JARS);
    FilterNonNegative(xs, p);
    FilterNonNegative(xs, Not(p));
    SumNonNegative(Filter(xs, p));
    SumNonNegative(Filter(xs, Not(p)));
  }

  /** The sum of the jars' current amounts over a list of jar ids. */
  function SumOfJars(txs: seq<Transaction>, currentDate: Date, mapping: CategoryMapping, jarIds: seq<string>): real
  {
    if jarIds == [] then 0.0
    else Sum(JarTransactions(txs, currentDate, mapping, jarIds[0])) + SumOfJars(txs, currentDate, mapping, jarIds[1..])
  }

  predicate DistinctStrings(ids: seq<string>)
  {
    forall i, j :: 0 <= i < j < |ids| ==> ids[i] != ids[j]
  }

  /** No expense is counted in two jars: over distinct jar ids, the jars'
      current amounts add up to the expenses mapped into one of them. */
  lemma {:induction false} JarsPartitionMappedExpenses(txs: seq<Transaction>, currentDate: Date, mapping: CategoryMapping, jarIds: seq<string>)
    requires DistinctStrings(jarIds)
    ensures SumOfJars(txs, currentDate, mapping, jarIds) == Sum(Filter(MonthExpenses(txs, currentDate), MappedInto(mapping, jarIds)))
    decreases |jarIds|
  {
    var xs := MonthExpenses(txs, currentDate);
    if jarIds == [] {
      FilterNone(xs, MappedInto(mapping, jarIds));
    } else {
      var j, rest := jarIds[0], jarIds[1..];
      JarsPartitionMappedExpenses(txs, currentDate, mapping, rest);
      assert jarIds == [j] + rest;
      assert j !in rest by {
        forall k | 0 <= k < |rest| ensures rest[k] != j {
          assert rest[k] == jarIds[k + 1];
        }
      }
      MappedSplit(xs, mapping, j, rest);
    }
  }

  /** Splitting off the first jar id: the expenses mapped into `[j] + rest`
      are those resolving to `j` and, apart from them, those mapped into `rest`. */
  lemma MappedSplit(xs: seq<Transaction>, mapping: CategoryMapping, j: string, rest: seq<string>)
    requires j !in rest
    ensures Sum(Filter(xs, MappedInto(mapping, [j] + rest)))
      == Sum(Filter(xs, ResolvesTo(mapping, j))) + Sum(Filter(xs, MappedInto(mapping, rest)))
  {
    var all := MappedInto(mapping, [j] + rest);
    SumPartition(Filter(xs, all), ResolvesTo(mapping, j));
    FilterFilter(xs, all, ResolvesTo(mapping, j));
    FilterCongruent(xs, And(all, ResolvesTo(mapping, j)), ResolvesTo(mapping, j));
    FilterFilter(xs, all, Not(ResolvesTo(mapping, j)));
    FilterCongruent(xs, And(all, Not(ResolvesTo(mapping, j))), MappedInto(mapping, rest));
  }

  /** Consumption is exactly the four spending jars' current amounts added
      up, so the two views of spending agree. */
  lemma ConsumptionIsSpendingJars(txs: seq<Transaction>, currentDate: Date, mapping: CategoryMapping)
    ensures ConsumptionExpenses(txs, currentDate, mapping) == SumOfJars(txs, currentDate, mapping, CONSUMPTION_JARS)
  {
    JarsPartitionMappedExpenses(txs, currentDate, mapping, CONSUMPTION_JARS);
  }

  /** The jars of a configuration with distinct ids together never hold more
      than the month's expenses: the ones whose category is unmapped, or
      mapped to an unconfigured jar, are dropped, never double counted. */
  lemma AllJarsWithinExpenses(txs: seq<Transaction>, currentDate: Date, mapping: CategoryMapping, jarIds: seq<string>)
    requires DistinctStrings(jarIds) && NonNegative(txs)
    ensures SumOfJars(txs, currentDate, mapping, jarIds) <= ExpensesOf(MonthTransactions(txs, currentDate))
  {
    JarsPartitionMappedExpenses(txs, currentDate, mapping, jarIds);
    MonthExpensesAreExpenses(txs, currentDate);
    var xs := MonthExpenses(txs, currentDate);
    FilterNonNegative(txs, And(InMonthOf(currentDate), Not(IsIncome)));
    SumFilterMonotone(xs, MappedInto(mapping, jarIds), Always());
    FilterAlways(xs);
  }

  // ---------------------------------------------------------------- previous month

  /** An income record that was not generated by a sweep (line 127). */
  predicate IsBaseIncome(t: Transaction)
  {
    IsIncome(t) && !Contains(t.description, SWEEP_TAG)
  }

  function PrevMonthIncome(txs: seq<Transaction>, currentDate: Date): real
  {
    Sum(Filter(MonthTransactions(txs, PrevMonth(currentDate)), IsBaseIncome))
  }

  /** An expense whose category maps to 'buffer' (line 129). */
  function BufferExpense(mapping: CategoryMapping): Transaction -> bool
  {
    (t: Transaction) => t.kind == Expense && t.category in mapping && mapping[t.category] == "buffer"
  }

  /** The previous month's expenses whose category maps to 'buffer'. */
  function BufferSpent(txs: seq<Transaction>, currentDate: Date, mapping: CategoryMapping): real
  {
    Sum(Filter(MonthTransactions(txs, PrevMonth(currentDate)),
      BufferExpense(mapping)))
  }

  /** "Buffer Sweep from <short name of the previous month>". */
  function SweepProbe(currentDate: Date): string
  {
    "Buffer Sweep from " + ShortMonthName(PrevMonth(currentDate).month)
  }

  /** `txs.some(t => t.description.includes(probe))`. */
  function AnyDescriptionContains(txs: seq<Transaction>, probe: string): (b: bool)
    ensures b <==> exists i :: 0 <= i < |txs| && Contains(txs[i].description, probe)
  {
    if txs == [] then false
    else
      assert forall i :: 1 <= i < |txs| ==> txs[i] == txs[1..][i - 1];
      Contains(txs[0].description, probe) || AnyDescriptionContains(txs[1..], probe)
  }

  /** Lines 116-141. The leftover is the buffer target (6% of the previous
      month's non-sweep income) less the previous month's buffer spending,
      never below zero; the swept check searches every record, of any month. */
  function PrevMonthData(txs: seq<Transaction>, currentDate: Date, mapping: CategoryMapping): (r: PrevMonthStatus)
    ensures var due := PrevMonthIncome(txs, currentDate) * BUFFER_TARGET_FACTOR - BufferSpent(txs, currentDate, mapping);
      r.leftover >= 0.0 && r.leftover >= due && (r.leftover == 0.0 || r.leftover == due)
    ensures r.isAlreadySwept <==> exists i :: 0 <= i < |txs| && Contains(txs[i].description, SweepProbe(currentDate))
    ensures r.monthName == LongMonthName(PrevMonth(currentDate).month)
  {
    var prev := PrevMonth(currentDate);
    var bufferTarget := PrevMonthIncome(txs, currentDate) * BUFFER_TARGET_FACTOR;
    var leftover := bufferTarget - BufferSpent(txs, currentDate, mapping);
    PrevMonthStatus(
      if leftover > 0.0 then leftover else 0.0,
      AnyDescriptionContains(txs, SweepProbe(currentDate)),
      LongMonthName(prev.month))
  }

  /** With non-negative amounts the leftover never exceeds the buffer target. */
  lemma LeftoverWithinTarget(txs: seq<Transaction>, currentDate: Date, mapping: CategoryMapping)
    requires NonNegative(txs)
    ensures PrevMonthData(txs, currentDate, mapping).leftover <= PrevMonthIncome(txs, currentDate) * BUFFER_TARGET_FACTOR
  {
    var pm := MonthTransactions(txs, PrevMonth(currentDate));
    FilterNonNegative(txs, InMonthOf(PrevMonth(currentDate)));
    FilterNonNegative(pm, IsBaseIncome);
    FilterNonNegative(pm, BufferExpense(mapping));
    SumNonNegative(Filter(pm, IsBaseIncome));
    SumNonNegative(Filter(pm, BufferExpense(mapping)));
  }

  // ---------------------------------------------------------------- the hook

  /** The whole hook: each figure as defined above; `balance` and
      `dynamicBudget` are derived from the totals. */
  method UseFinanceCalculations(txs: seq<Transaction>, currentDate: Date, config: Config)
    returns (r: FinanceCalculations)
    ensures r.totals == Totals(IncomeOf(MonthTransactions(txs, currentDate)), ExpensesOf(MonthTransactions(txs, currentDate)))
    ensures r.balance == SignedSum(MonthTransactions(txs, currentDate))
    ensures r.dynamicBudget == r.totals.income * DYNAMIC_BUDGET_FACTOR
    ensures r.jarAllocations == JarAllocations(config.jarConfig, r.totals.income,
      JarDataOf(txs, currentDate, config.jarConfig, config.categoryToJarMapping), config.categories)
    ensures r.consumptionExpenses == ConsumptionExpenses(txs, currentDate, config.categoryToJarMapping)
    ensures r.prevMonthData == PrevMonthData(txs, currentDate, config.categoryToJarMapping)
  {
    var totals := ComputeTotals(txs, currentDate);
    TotalsPartition(MonthTransactions(txs, currentDate));
    var balance := totals.income - totals.expenses;
    var dynamicBudget := totals.income * DYNAMIC_BUDGET_FACTOR;
    var jarData := AccumulateJars(txs, currentDate, config.jarConfig, config.categoryToJarMapping);
    var allocations := JarAllocations(config.jarConfig, totals.income, jarData, config.categories);
    r := FinanceCalculations(totals, balance, dynamicBudget, allocations,
      ConsumptionExpenses(txs, currentDate, config.categoryToJarMapping),
      PrevMonthData(txs, currentDate, config.categoryToJarMapping));
  }

  // ---------------------------------------------------------------- the literals and the configuration

  /** The engine's literals agree with the default configuration: 0.54 is the
      four spending jars' shares added up, and 0.06 is the buffer jar's share. */
  lemma LiteralsMatchDefaultConfig()
    ensures DYNAMIC_BUDGET_FACTOR == JarShare(JAR_CONFIG, "necessities") + JarShare(JAR_CONFIG, "play")
      + JarShare(JAR_CONFIG, "give") + JarShare(JAR_CONFIG, "buffer")
    ensures BUFFER_TARGET_FACTOR == JarShare(JAR_CONFIG, "buffer")
    ensures forall k :: 0 <= k < |CONSUMPTION_JARS| ==> CONSUMPTION_JARS[k] in JarIds(JAR_CONFIG)
  {
    assert JarShare(JAR_CONFIG, "necessities") == 0.40;
    assert JarShare(JAR_CONFIG, "play") == 0.05;
    assert JarShare(JAR_CONFIG, "give") == 0.03;
    assert JarShare(JAR_CONFIG, "buffer") == 0.06;
    assert JAR_CONFIG[0].id in JarIds(JAR_CONFIG) && JAR_CONFIG[4].id in JarIds(JAR_CONFIG);
    assert JAR_CONFIG[5].id in JarIds(JAR_CONFIG) && JAR_CONFIG[6].id in JarIds(JAR_CONFIG);
  }
}
