/** The page component's own logic (src/FinanceApp.jsx): the rule that turns
    the add form into a payload, the four records a buffer sweep creates, the
    condition under which the sweep is offered, and the list the derived
    figures are computed from. */
module App {
  import opened Types
  import opened Ledger
  import opened Strings
  import opened Dates
  import opened Constants
  import opened Engine

  // ------------------------------------------------------------ the add form

  /** The form's fields as the inputs hold them; the amount is still text. */
  datatype FormState = FormState(amount: string, description: string, category: string, kind: TxType, date: Date)

  /** The form after opening and after each successful add (lines 41-47, 85-91). */
  function InitialForm(today: Date): FormState
  {
    FormState("", "", "food", Expense, today)
  }

  /** `handleAddSubmit` (lines 72-83): nothing is sent while the amount or the
      description is empty; an income entry is filed under 'income' whatever
      category the form shows. `parseFloat` is outside the model, so the
      parsed amount is a parameter. */
  function SubmitPayload(form: FormState, parsedAmount: real): (r: Option<TransactionDraft>)
    ensures r.None? <==> form.amount == "" || form.description == ""
    ensures r.Some? ==> (r.value.kind == form.kind && r.value.date == form.date
      && r.value.description == form.description && r.value.amount == parsedAmount)
    ensures r.Some? && form.kind == Income ==> r.value.category == "income"
    ensures r.Some? && form.kind == Expense ==> r.value.category == form.category
  {
    if form.amount == "" || form.description == "" then None
    else Some(TransactionDraft(form.date, parsedAmount,
      if form.kind == Income then "income" else form.category, form.kind, form.description))
  }

  /** A submitted income record never lands in a jar of the default
      configuration, and a submitted form with its initial category lands in
      the necessities jar. */
  lemma SubmittedCategoriesResolve(form: FormState, parsedAmount: real)
    ensures var r := SubmitPayload(form, parsedAmount);
      r.Some? && form.kind == Income ==> r.value.category !in CATEGORY_TO_JAR_MAPPING
    ensures var r := SubmitPayload(form, parsedAmount);
      (r.Some? && form.kind == Expense && form.category == InitialForm(form.date).category)
        ==> CATEGORY_TO_JAR_MAPPING[r.value.category] == "necessities"
  {
    EveryCategoryButIncomeMapped();
  }

  // ------------------------------------------------------------ the sweep

  /** `Buffer Sweep from ${monthName.substring(0, 3)}` followed by a suffix. */
  function SweepDescription(monthName: string, suffix: string): string
  {
    "Buffer Sweep from " + Take(monthName, 3) + suffix
  }

  /** `handleSweepBuffer` (lines 100-106): the leftover leaves the buffer as
      one expense and comes back as three incomes, split 50/30/20 between
      investments, savings and fun, all dated today. */
  function SweepDrafts(amount: real, monthName: string, today: Date): seq<TransactionDraft>
  {
    [ TransactionDraft(today, amount, "buffer", Expense, SweepDescription(monthName, " (Out)")),
      TransactionDraft(today, amount * 0.5, "investments", Income, SweepDescription(monthName, " (to INV)")),
      TransactionDraft(today, amount * 0.3, "savings", Income, SweepDescription(monthName, " (to LTSS)")),
      TransactionDraft(today, amount * 0.2, "fun", Income, SweepDescription(monthName, " (to FUN)")) ]
  }

  /** The records the service stores for a list of drafts under the ids it
      assigns, in the same order. */
  function PersistAll(ds: seq<TransactionDraft>, ids: seq<int>): (r: seq<Transaction>)
    requires |ids| == |ds|
    ensures |r| == |ds|
    ensures forall i :: 0 <= i < |r| ==> r[i] == Persisted(ds[i], ids[i])
  {
    if ds == [] then [] else [Persisted(ds[0], ids[0])] + PersistAll(ds[1..], ids[1..])
  }

  /** The sweep button's guard (line 154). */
  predicate SweepOffered(p: PrevMonthStatus)
  {
    p.leftover > 0.0 && !p.isAlreadySwept
  }

  /** The split gives back exactly what leaves the buffer, so the sweep moves
      money without creating or losing any: income and expenses both grow by
      the amount and the balance does not change. */
  lemma SweepConserves(amount: real, monthName: string, today: Date, ids: seq<int>)
    requires |ids| == 4
    ensures var recs := PersistAll(SweepDrafts(amount, monthName, today), ids);
      IncomeOf(recs) == amount && ExpensesOf(recs) == amount && SignedSum(recs) == 0.0
  {
    var recs := PersistAll(SweepDrafts(amount, monthName, today), ids);
    SweepRecordKinds(amount, monthName, today, ids);
    FourRecords(recs);
    TotalsPartition(recs);
  }

  /** The first sweep record is the expense, the other three the incomes, and
      the incomes' amounts add up to the expense's. */
  lemma SweepRecordKinds(amount: real, monthName: string, today: Date, ids: seq<int>)
    requires |ids| == 4
    ensures var recs := PersistAll(SweepDrafts(amount, monthName, today), ids);
      && |recs| == 4 && !IsIncome(recs[0]) && IsIncome(recs[1]) && IsIncome(recs[2]) && IsIncome(recs[3])
      && recs[0].amount == amount && recs[1].amount + recs[2].amount + recs[3].amount == amount
  {
  }

  lemma FourRecords(recs: seq<Transaction>)
    requires |recs| == 4 && !IsIncome(recs[0]) && IsIncome(recs[1]) && IsIncome(recs[2]) && IsIncome(recs[3])
    ensures IncomeOf(recs) == recs[1].amount + recs[2].amount + recs[3].amount
    ensures ExpensesOf(recs) == recs[0].amount
  {
    assert recs[..1] == [recs[0]];
    OneRecord(recs[0]);
    assert recs[..2] == recs[..1] + [recs[1]];
    TotalsSnoc(recs[..1], recs[1]);
    assert recs[..3] == recs[..2] + [recs[2]];
    TotalsSnoc(recs[..2], recs[2]);
    assert recs == recs[..3] + [recs[3]];
    TotalsSnoc(recs[..3], recs[3]);
  }

  lemma OneRecord(a: Transaction)
    ensures IncomeOf([a]) == if IsIncome(a) then a.amount else 0.0
    ensures ExpensesOf([a]) == if IsIncome(a) then 0.0 else a.amount
  {
    TotalsSnoc([], a);
    assert [] + [a] == [a];
  }

  /** Every sweep record carries the "Buffer Sweep" tag and begins with
      "Buffer Sweep from " and the first three letters of the month name. */
  lemma SweepDescriptionsTagged(amount: real, monthName: string, today: Date)
    ensures forall d :: d in SweepDrafts(amount, monthName, today) ==>
      IsPrefix("Buffer Sweep from " + Take(monthName, 3), d.description) && Contains(d.description, SWEEP_TAG)
  {
    DescriptionTagged(monthName, " (Out)");
    DescriptionTagged(monthName, " (to INV)");
    DescriptionTagged(monthName, " (to LTSS)");
    DescriptionTagged(monthName, " (to FUN)");
  }

  lemma DescriptionTagged(monthName: string, suffix: string)
    ensures IsPrefix("Buffer Sweep from " + Take(monthName, 3), SweepDescription(monthName, suffix))
    ensures Contains(SweepDescription(monthName, suffix), SWEEP_TAG)
  {
    var head := "Buffer Sweep from " + Take(monthName, 3);
    var desc := SweepDescription(monthName, suffix);
    assert desc == head + suffix;
    assert desc[..|head|] == head;
    assert desc[..|SWEEP_TAG|] == SWEEP_TAG;
  }

  /** Once the sweep offered for the previous month has been stored, that
      month counts as swept, so the sweep is not offered again. */
  lemma SweepMarksMonthSwept(txs: seq<Transaction>, currentDate: Date, mapping: CategoryMapping, today: Date, ids: seq<int>)
    requires |ids| == 4
    ensures var p := PrevMonthData(txs, currentDate, mapping);
      var added := PersistAll(SweepDrafts(p.leftover, p.monthName, today), ids);
      PrevMonthData(added + txs, currentDate, mapping).isAlreadySwept
      && !SweepOffered(PrevMonthData(added + txs, currentDate, mapping))
  {
    var p := PrevMonthData(txs, currentDate, mapping);
    var added := PersistAll(SweepDrafts(p.leftover, p.monthName, today), ids);
    ShortNameIsFirstThree(PrevMonth(currentDate).month);
    assert Take(p.monthName, 3) == ShortMonthName(PrevMonth(currentDate).month);
    SweepDescriptionsTagged(p.leftover, p.monthName, today);
    assert SweepDrafts(p.leftover, p.monthName, today)[0] in SweepDrafts(p.leftover, p.monthName, today);
    assert (added + txs)[0] == added[0];
    assert IsPrefix(SweepProbe(currentDate), added[0].description);
    assert Contains((added + txs)[0].description, SweepProbe(currentDate));
  }

  /** The sweep's incomes are never part of a later previous-month income
      base: adding the sweep records changes no month's base. */
  lemma SweepIncomeExcludedFromBase(txs: seq<Transaction>, currentDate: Date, amount: real, monthName: string,
                                    today: Date, ids: seq<int>)
    requires |ids| == 4
    ensures PrevMonthIncome(PersistAll(SweepDrafts(amount, monthName, today), ids) + txs, currentDate)
         == PrevMonthIncome(txs, currentDate)
  {
    var added := PersistAll(SweepDrafts(amount, monthName, today), ids);
    var prev := PrevMonth(currentDate);
    SweepNotBaseIncome(amount, monthName, today, ids);
    var inPrev := Filter(added, InMonthOf(prev));
    FilterMembers(added, InMonthOf(prev));
    FilterNone(inPrev, IsBaseIncome);
    FilterAppend(added, txs, InMonthOf(prev));
    FilterAppend(inPrev, Filter(txs, InMonthOf(prev)), IsBaseIncome);
    assert [] + Filter(Filter(txs, InMonthOf(prev)), IsBaseIncome) == Filter(Filter(txs, InMonthOf(prev)), IsBaseIncome);
  }

  /** No stored sweep record is base income: the outflow is an expense and
      the three inflows carry the sweep tag. */
  lemma SweepNotBaseIncome(amount: real, monthName: string, today: Date, ids: seq<int>)
    requires |ids| == 4
    ensures forall t :: t in PersistAll(SweepDrafts(amount, monthName, today), ids) ==> !IsBaseIncome(t)
  {
    var ds := SweepDrafts(amount, monthName, today);
    var added := PersistAll(ds, ids);
    SweepDescriptionsTagged(amount, monthName, today);
    forall t | t in added ensures !IsBaseIncome(t) {
      var i :| 0 <= i < |added| && added[i] == t;
      assert ds[i] in ds;
    }
  }

  // ------------------------------------------------------------ the engine's input

  /** Lines 37 and 61 as written: the engine is given the month view of the
      working set, and the working set itself only ever holds the displayed
      month (the store fetches one month's window). */
  function AsWrittenEngineInput(transactions: seq<Transaction>, currentDate: Date): seq<Transaction>
  {
    MonthTransactions(transactions, currentDate)
  }

  lemma MonthViewsDisjoint(s: seq<Transaction>, a: Date, b: Date)
    requires a.year != b.year || a.month != b.month
    ensures MonthTransactions(MonthTransactions(s, a), b) == []
  {
    FilterFilter(s, InMonthOf(a), InMonthOf(b));
    FilterMembers(s, And(InMonthOf(a), InMonthOf(b)));
    FilterNone(Filter(s, And(InMonthOf(a), InMonthOf(b))), InMonthOf(b));
    FilterFilter(s, InMonthOf(a), InMonthOf(b));
  }

  /** As written, the previous month is never in the engine's input, so the
      leftover is always 0 and the sweep is never offered, whatever was
      earned and spent the month before. */
  lemma PrevMonthLeftoverAlwaysZero(transactions: seq<Transaction>, currentDate: Date, mapping: CategoryMapping)
    ensures PrevMonthData(AsWrittenEngineInput(transactions, currentDate), currentDate, mapping).leftover == 0.0
    ensures !SweepOffered(PrevMonthData(AsWrittenEngineInput(transactions, currentDate), currentDate, mapping))
  {
    var input := AsWrittenEngineInput(transactions, currentDate);
    var prev := PrevMonth(currentDate);
    MonthMovesInverse(currentDate);
    MonthViewsDisjoint(transactions, currentDate, prev);
    assert MonthTransactions(input, prev) == [];
  }

  /** The discrepancy on one input: January's salary of 1000 and nothing
      else. Viewed in February, the true leftover is 6% of it, 60, and the
      sweep should be offered; as written the leftover is 0. */
  lemma SalaryMonthShowsNoLeftover()
    ensures var salary := Transaction(1, Date(2024, 0, 15), 1000.0, "income", Income, "Salary", false);
      var february := Date(2024, 1, 1);
      PrevMonthData(AsWrittenEngineInput([salary], february), february, CATEGORY_TO_JAR_MAPPING).leftover == 0.0
      && PrevMonthData([salary], february, CATEGORY_TO_JAR_MAPPING).leftover == 60.0
      && SweepOffered(PrevMonthData([salary], february, CATEGORY_TO_JAR_MAPPING))
  {
    var salary := Transaction(1, Date(2024, 0, 15), 1000.0, "income", Income, "Salary", false);
    var february := Date(2024, 1, 1);
    PrevMonthLeftoverAlwaysZero([salary], february, CATEGORY_TO_JAR_MAPPING);
    SalaryFigures(salary, february);
    LongerNotContained(salary.description, SweepProbe(february));
    assert !AnyDescriptionContains([salary], SweepProbe(february));
  }

  lemma SalaryFigures(salary: Transaction, february: Date)
    requires salary == Transaction(1, Date(2024, 0, 15), 1000.0, "income", Income, "Salary", false)
    requires february == Date(2024, 1, 1)
    ensures PrevMonthIncome([salary], february) == 1000.0
    ensures BufferSpent([salary], february, CATEGORY_TO_JAR_MAPPING) == 0.0
  {
    assert PrevMonth(february) == Date(2024, 0, 1);
    assert [salary] == [] + [salary];
    FilterSnoc([], salary, InMonthOf(Date(2024, 0, 1)));
    assert MonthTransactions([salary], Date(2024, 0, 1)) == [salary];
    LongerNotContained(salary.description, SWEEP_TAG);
    assert IsBaseIncome(salary);
    FilterSnoc([], salary, IsBaseIncome);
    FilterSnoc([], salary, BufferExpense(CATEGORY_TO_JAR_MAPPING));
    assert Filter([salary], BufferExpense(CATEGORY_TO_JAR_MAPPING)) == [];
  }

  /** The input the sweep needs: the displayed month's records followed by
      the previous month's, fetched with the previous month's window. */
  function CorrectedEngineInput(transactions: seq<Transaction>, prevMonthRecords: seq<Transaction>, currentDate: Date)
    : seq<Transaction>
  {
    MonthTransactions(transactions, currentDate) + MonthTransactions(prevMonthRecords, PrevMonth(currentDate))
  }

  lemma MonthViewIdempotent(s: seq<Transaction>, d: Date)
    ensures MonthTransactions(MonthTransactions(s, d), d) == MonthTransactions(s, d)
  {
    FilterMembers(s, InMonthOf(d));
    FilterCongruent(MonthTransactions(s, d), InMonthOf(d), Always());
    FilterAlways(MonthTransactions(s, d));
  }

  /** With the corrected input every figure of the displayed month is what
      it was, and the leftover is the previous month's true leftover; so a
      previous month with base income and no buffer spending offers its
      sweep until the sweep is stored. */
  lemma CorrectedInputSeesPrevMonth(transactions: seq<Transaction>, prevMonthRecords: seq<Transaction>,
                                    currentDate: Date, mapping: CategoryMapping)
    ensures var input := CorrectedEngineInput(transactions, prevMonthRecords, currentDate);
      MonthTransactions(input, currentDate) == AsWrittenEngineInput(transactions, currentDate)
    ensures var input := CorrectedEngineInput(transactions, prevMonthRecords, currentDate);
      PrevMonthIncome(input, currentDate) == PrevMonthIncome(prevMonthRecords, currentDate)
      && BufferSpent(input, currentDate, mapping) == BufferSpent(prevMonthRecords, currentDate, mapping)
    ensures var input := CorrectedEngineInput(transactions, prevMonthRecords, currentDate);
      (PrevMonthIncome(prevMonthRecords, currentDate) > 0.0 && BufferSpent(prevMonthRecords, currentDate, mapping) == 0.0)
        ==> PrevMonthData(input, currentDate, mapping).leftover > 0.0
  {
    var prev := PrevMonth(currentDate);
    var cur := MonthTransactions(transactions, currentDate);
    var earlier := MonthTransactions(prevMonthRecords, prev);
    var input := cur + earlier;
    MonthMovesInverse(currentDate);
    FilterAppend(cur, earlier, InMonthOf(currentDate));
    MonthViewIdempotent(transactions, currentDate);
    MonthViewsDisjoint(prevMonthRecords, prev, currentDate);
    assert MonthTransactions(input, currentDate) == cur + [];
    FilterAppend(cur, earlier, InMonthOf(prev));
    MonthViewsDisjoint(transactions, currentDate, prev);
    MonthViewIdempotent(prevMonthRecords, prev);
    assert MonthTransactions(input, prev) == [] + earlier;
    assert MonthTransactions(input, prev) == earlier;
  }
}
