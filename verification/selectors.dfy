/** The two list views over the working set, shared word for word by the
    store (src/store/useFinanceStore.ts:164-190) and the older hook
    (src/hooks/useTransactions.js:24-52): the filtered view, which shows one
    day when a day is selected and the whole month otherwise, newest first;
    and the month view, the month's records in list order. */
module Selectors {
  import opened Types
  import opened Ledger
  import opened Dates
  import opened Sorting

  /** `if (selectedDate)`: both `null` and the empty string count as no selection. */
  predicate DateSelected(selectedDate: Option<string>)
  {
    selectedDate.Some? && selectedDate.value != ""
  }

  /** `t => t.date === day`, reading the record's stored date string as the
      calendar's key `DateStr` of its date (the two agree for the years 1000 to 9999). */
  function OnDay(day: string): Transaction -> bool
  {
    (t: Transaction) => DateStr(t.date) == day
  }

  /** The filter callback: the selected day, or else the displayed month. */
  function MatchesSelection(selectedDate: Option<string>, currentDate: Date): Transaction -> bool
  {
    if DateSelected(selectedDate) then OnDay(selectedDate.value) else InMonthOf(currentDate)
  }

  /** Strictly later in the calendar. */
  predicate Later(a: Date, b: Date)
  {
    OnOrAfter(a, b) && a != b
  }

  /** The comparator of the filtered view: `b.date - a.date`, then
      `b.id > a.id ? 1 : -1`. It leaves `a` in front of `b` when `a` is
      later, or on the same day with an id that is not smaller. */
  function NewestFirst(): (Transaction, Transaction) -> bool
  {
    (a: Transaction, b: Transaction) => Later(a.date, b.date) || (a.date == b.date && a.id >= b.id)
  }

  /** The comparator of the delete rollback: `b.date - a.date` alone. */
  function DateDescending(): (Transaction, Transaction) -> bool
  {
    (a: Transaction, b: Transaction) => OnOrAfter(a.date, b.date)
  }

  lemma NewestFirstTotal()
    ensures TotalPreorder(NewestFirst())
  {
  }

  lemma DateDescendingTotal()
    ensures TotalPreorder(DateDescending())
  {
  }

  /** `selectFilteredTransactions`: filter, then sort. */
  function FilteredTransactions(s: seq<Transaction>, selectedDate: Option<string>, currentDate: Date): seq<Transaction>
  {
    Sort(Filter(s, MatchesSelection(selectedDate, currentDate)), NewestFirst())
  }

  /** The filtered view holds exactly the matching records, each as many
      times as the list holds it, newest day first and, within a day, the
      larger id first. */
  lemma FilteredTransactionsCorrect(s: seq<Transaction>, selectedDate: Option<string>, currentDate: Date)
    ensures multiset(FilteredTransactions(s, selectedDate, currentDate))
         == multiset(Filter(s, MatchesSelection(selectedDate, currentDate)))
    ensures forall t :: (t in FilteredTransactions(s, selectedDate, currentDate)
      <==> t in s && MatchesSelection(selectedDate, currentDate)(t))
    ensures var r := FilteredTransactions(s, selectedDate, currentDate);
      forall i, j :: 0 <= i < j < |r| ==>
        OnOrAfter(r[i].date, r[j].date) && (r[i].date == r[j].date ==> r[i].id >= r[j].id)
  {
    var f := Filter(s, MatchesSelection(selectedDate, currentDate));
    var r := FilteredTransactions(s, selectedDate, currentDate);
    NewestFirstTotal();
    SortSorted(f, NewestFirst());
    FilterMembers(s, MatchesSelection(selectedDate, currentDate));
    forall t ensures t in r <==> t in f {
      assert t in r <==> t in multiset(r);
      assert t in f <==> t in multiset(f);
    }
    forall i, j | 0 <= i < j < |r|
      ensures OnOrAfter(r[i].date, r[j].date) && (r[i].date == r[j].date ==> r[i].id >= r[j].id)
    {
      assert NewestFirst()(r[i], r[j]);
    }
  }

  /** With a day selected (as the calendar selects it), the view holds
      exactly the records dated that day. */
  lemma SelectedDayShowsThatDay(s: seq<Transaction>, day: Date, currentDate: Date)
    ensures forall t :: t in FilteredTransactions(s, Some(DateStr(day)), currentDate) <==> t in s && t.date == day
  {
    assert DateStr(day) != "" by { assert DateStr(day)[|DateStr(day)| - 3] == '-'; }
    FilteredTransactionsCorrect(s, Some(DateStr(day)), currentDate);
    forall t: Transaction | DateStr(t.date) == DateStr(day) ensures t.date == day {
      DateStrInjective(t.date, day);
    }
  }

  /** With no day selected, the filtered view is the month view, sorted. */
  lemma NoSelectionShowsMonth(s: seq<Transaction>, currentDate: Date)
    ensures FilteredTransactions(s, None, currentDate) == Sort(MonthTransactions(s, currentDate), NewestFirst())
    ensures FilteredTransactions(s, Some(""), currentDate) == Sort(MonthTransactions(s, currentDate), NewestFirst())
  {
  }

  /** `selectMonthTransactions` keeps list order: the month view of a list
      split in two is the month view of each part, in turn, and a list whose
      records are all in the month is its own month view. */
  lemma {:induction false} MonthViewKeepsOrder(a: seq<Transaction>, b: seq<Transaction>, currentDate: Date)
    ensures MonthTransactions(a + b, currentDate) == MonthTransactions(a, currentDate) + MonthTransactions(b, currentDate)
    ensures (forall t :: t in a ==> InMonth(t, currentDate)) ==> MonthTransactions(a, currentDate) == a
  {
    FilterAppend(a, b, InMonthOf(currentDate));
    if forall t :: t in a ==> InMonth(t, currentDate) {
      FilterCongruent(a, InMonthOf(currentDate), Always());
      FilterAlways(a);
    }
  }
}
