/** The older JavaScript twin of the engine (src/hooks/useFinanceCalculations.js).
    It reads the module constants instead of a configuration argument, and it
    differs from the TypeScript engine in two guards: it indexes
    `jarData[jarId]` without checking that the jar exists (which would throw
    for a mapping value that is not a configured jar), and its consumption
    filter has no `jarId ?` test. Both are harmless for the default tables,
    and the methods here prove it: on every input the twin computes what the
    TypeScript engine computes for the default configuration. */
module LegacyEngine {
  import opened Types
  import opened Ledger
  import opened Grouping
  import opened Constants
  import opened Engine

  const DEFAULT_CONFIG: Config := Config(CATEGORIES, JAR_CONFIG, CATEGORY_TO_JAR_MAPPING)

  /** The body of the `forEach` (lines 38-43). `jarData[jarId]` is read with no
      existence check, so the loop demands that every value of the mapping
      names a configured jar (the loop has already made each one a key);
      otherwise the access would throw. */
  method LegacyAddExpense(jarData: map<string, JarAccum>, t: Transaction, ids: set<string>, mapping: CategoryMapping,
                          ghost seen: seq<Transaction>)
    returns (r: map<string, JarAccum>)
    requires forall c :: c in mapping ==> mapping[c] in ids
    requires jarData == JarDataAt(seen, ids, mapping)
    ensures r == JarDataAt(seen + [t], ids, mapping)
  {
    JarDataAtKeys(seen, ids, mapping);
    r := jarData;
    if t.category in mapping {
      var jarId := mapping[t.category];
      if jarId != "" {
        var acc := jarData[jarId];
        JarDataAdd(seen, t, ids, mapping);
        r := jarData[jarId := JarAccum(acc.total + t.amount, AddTo(acc.categories, t.category, t.amount))];
        return;
      }
    }
    JarDataSkip(seen, t, ids, mapping);
  }

  /** Lines 28-44: the zero entries, then one pass over the month's expenses,
      for the module's own tables. */
  method LegacyJarData(txs: seq<Transaction>, currentDate: Date) returns (jarData: map<string, JarAccum>)
    ensures jarData == JarDataOf(txs, currentDate, JAR_CONFIG, CATEGORY_TO_JAR_MAPPING)
  {
    var xs := MonthExpenses(txs, currentDate);
    MappingTargetsConfigured();
    jarData := LegacyJarDataFor(xs, JAR_CONFIG, CATEGORY_TO_JAR_MAPPING);
  }

  method LegacyJarDataFor(xs: seq<Transaction>, jarConfig: seq<Jar>, mapping: CategoryMapping)
    returns (jarData: map<string, JarAccum>)
    requires forall c :: c in mapping ==> mapping[c] in JarIds(jarConfig)
    ensures jarData == JarDataAt(xs, JarIds(jarConfig), mapping)
  {
    jarData := EmptyJarData(jarConfig, mapping);
    var i := 0;
    assert xs[..i] == [];
    while i < |xs|
      invariant 0 <= i <= |xs|
      invariant jarData == JarDataAt(xs[..i], JarIds(jarConfig), mapping)
    {
      assert xs[..i + 1] == xs[..i] + [xs[i]];
      jarData := LegacyAddExpense(jarData, xs[i], JarIds(jarConfig), mapping, xs[..i]);
      i := i + 1;
    }
    assert xs[..i] == xs;
  }

  /** Line 79: `[...].includes(CATEGORY_TO_JAR_MAPPING[t.category])`, where an
      unmapped category gives `undefined`, which is not in the list. */
  function LegacyConsumes(): Transaction -> bool
  {
    (t: Transaction) => t.category in CATEGORY_TO_JAR_MAPPING && CATEGORY_TO_JAR_MAPPING[t.category] in CONSUMPTION_JARS
  }

  /** Lines 69-82. */
  function LegacyConsumptionExpenses(txs: seq<Transaction>, currentDate: Date): real
  {
    Sum(Filter(MonthExpenses(txs, currentDate), LegacyConsumes()))
  }

  /** Dropping the `jarId ?` test changes nothing: the empty string is not a
      spending jar, so both filters keep the same records. */
  lemma LegacyConsumptionAgrees(txs: seq<Transaction>, currentDate: Date)
    ensures LegacyConsumptionExpenses(txs, currentDate)
      == ConsumptionExpenses(txs, currentDate, CATEGORY_TO_JAR_MAPPING)
  {
    FilterCongruent(MonthExpenses(txs, currentDate), LegacyConsumes(),
      MappedInto(CATEGORY_TO_JAR_MAPPING, CONSUMPTION_JARS));
  }

  /** The whole twin: every figure equals the TypeScript engine's for the
      default configuration. */
  method LegacyUseFinanceCalculations(txs: seq<Transaction>, currentDate: Date) returns (r: FinanceCalculations)
    ensures r.totals == Totals(IncomeOf(MonthTransactions(txs, currentDate)), ExpensesOf(MonthTransactions(txs, currentDate)))
    ensures r.balance == SignedSum(MonthTransactions(txs, currentDate))
    ensures r.dynamicBudget == r.totals.income * DYNAMIC_BUDGET_FACTOR
    ensures r.jarAllocations == JarAllocations(DEFAULT_CONFIG.jarConfig, r.totals.income,
      JarDataOf(txs, currentDate, DEFAULT_CONFIG.jarConfig, DEFAULT_CONFIG.categoryToJarMapping), DEFAULT_CONFIG.categories)
    ensures r.consumptionExpenses == ConsumptionExpenses(txs, currentDate, DEFAULT_CONFIG.categoryToJarMapping)
    ensures r.prevMonthData == PrevMonthData(txs, currentDate, DEFAULT_CONFIG.categoryToJarMapping)
  {
    var totals := ComputeTotals(txs, currentDate);
    TotalsPartition(MonthTransactions(txs, currentDate));
    var jarData := LegacyJarData(txs, currentDate);
    var allocations := JarAllocations(JAR_CONFIG, totals.income, jarData, CATEGORIES);
    LegacyConsumptionAgrees(txs, currentDate);
    r := FinanceCalculations(totals, totals.income - totals.expenses, totals.income * DYNAMIC_BUDGET_FACTOR,
      allocations, LegacyConsumptionExpenses(txs, currentDate),
      PrevMonthData(txs, currentDate, CATEGORY_TO_JAR_MAPPING));
  }
}
