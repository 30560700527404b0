/** The application store (src/store/useFinanceStore.ts): the working set of
    transactions for the displayed month, the loading flag, the displayed
    month, the selected day and the configuration, with the actions that
    change them. Each asynchronous action is split at its `await`: a `Begin`
    method does what happens before the service call, and a `Complete`
    method receives what the call resolved to (`Ok` or `Err`) and does what
    happens after it, on the state as it is at that moment. */
module Store {
  import opened Types
  import opened Ledger
  import opened Dates
  import opened Sorting
  import opened Constants
  import opened Selectors

  // ------------------------------------------------------------ fetch window

  /** A local date and time to the second. */
  datatype DateTime = DateTime(date: Date, hour: int, minute: int, second: int)

  predicate ValidDateTime(x: DateTime)
  {
    ValidDate(x.date) && 0 <= x.hour < 24 && 0 <= x.minute < 60 && 0 <= x.second < 60
  }

  function SecondOfDay(x: DateTime): int
  {
    x.hour * 3600 + x.minute * 60 + x.second
  }

  /** `a` is the same instant as `b` or later. */
  predicate AtOrAfter(a: DateTime, b: DateTime)
  {
    if a.date != b.date then OnOrAfter(a.date, b.date) else SecondOfDay(a) >= SecondOfDay(b)
  }

  /** The closed range of instants handed to `fetchRange`. */
  datatype FetchWindow = FetchWindow(start: DateTime, end: DateTime)

  predicate Within(x: DateTime, w: FetchWindow)
  {
    AtOrAfter(x, w.start) && AtOrAfter(w.end, x)
  }

  /** `new Date(year, month, 1)` to `new Date(year, month + 1, 0, 23, 59, 59)`:
      the month's first day at midnight to its last day at 23:59:59. */
  function MonthWindow(d: Date): (w: FetchWindow)
    ensures w.start.date.day == 1 && SecondOfDay(w.start) == 0
    ensures w.end.date.day == DaysInMonth(d.year, d.month) && SecondOfDay(w.end) == 86399
  {
    FetchWindow(
      DateTime(Date(d.year, d.month, 1), 0, 0, 0),
      DateTime(Date(d.year, d.month, DaysInMonth(d.year, d.month)), 23, 59, 59))
  }

  /** The window holds exactly the instants of the displayed month. */
  lemma MonthWindowIsMonth(d: Date, x: DateTime)
    requires ValidDateTime(x)
    ensures Within(x, MonthWindow(d)) <==> x.date.year == d.year && x.date.month == d.month
  {
    var w := MonthWindow(d);
    if x.date.year == d.year && x.date.month == d.month {
      assert x.date.day <= DaysInMonth(d.year, d.month);
      assert SecondOfDay(x) <= 86399;
    }
  }

  // ------------------------------------------------------------- list steps

  /** `t => t.id !== id`. */
  function IdIsNot(id: int): Transaction -> bool
  {
    (t: Transaction) => t.id != id
  }

  /** `transactions.filter(t => t.id !== id)`. */
  function RemoveId(s: seq<Transaction>, id: int): seq<Transaction>
  {
    Filter(s, IdIsNot(id))
  }

  /** `transactions.map(t => t.id === id ? x : t)`. */
  function ReplaceId(s: seq<Transaction>, id: int, x: Transaction): seq<Transaction>
  {
    if s == [] then [] else [if s[0].id == id then x else s[0]] + ReplaceId(s[1..], id, x)
  }

  /** `transactions.find(t => t.id === id)`: the first record with that id. */
  function FindById(s: seq<Transaction>, id: int): (r: Option<Transaction>)
    ensures r.None? <==> forall t :: t in s ==> t.id != id
    ensures r.Some? ==> r.value.id == id && exists i :: (0 <= i < |s| && s[i] == r.value
      && forall j :: 0 <= j < i ==> s[j].id != id)
  {
    if s == [] then None
    else if s[0].id == id then Some(s[0])
    else
      var r := FindById(s[1..], id);
      assert forall t :: t in s[1..] ==> t in s;
      if r.Some? then
        var i :| 0 <= i < |s[1..]| && s[1..][i] == r.value && r.value.id == id
          && forall j :: 0 <= j < i ==> s[1..][j].id != id;
        assert s[i + 1] == r.value;
        r
      else r
  }

  /** `{ ...transaction, id: tempId, isOptimistic: true }`. */
  function Optimistic(d: TransactionDraft, tempId: int): Transaction
  {
    Transaction(tempId, d.date, d.amount, d.category, d.kind, d.description, true)
  }

  /** No id occurs twice. */
  predicate DistinctTxIds(s: seq<Transaction>)
  {
    forall i, j :: 0 <= i < j < |s| ==> s[i].id != s[j].id
  }

  predicate Fresh(s: seq<Transaction>, id: int)
  {
    forall t :: t in s ==> t.id != id
  }

  /** The `map` replaces every record carrying the id and keeps the length
      and every other position. */
  lemma {:induction false} ReplaceIdPositions(s: seq<Transaction>, id: int, x: Transaction)
    ensures |ReplaceId(s, id, x)| == |s|
    ensures forall i :: 0 <= i < |s| ==> ReplaceId(s, id, x)[i] == (if s[i].id == id then x else s[i])
    decreases |s|
  {
    if s != [] {
      ReplaceIdPositions(s[1..], id, x);
      var r := ReplaceId(s, id, x);
      forall i | 1 <= i < |s| ensures r[i] == (if s[i].id == id then x else s[i]) {
        assert r[i] == ReplaceId(s[1..], id, x)[i - 1];
        assert s[1..][i - 1] == s[i];
      }
    }
  }

  /** Removal keeps exactly the records with another id. */
  lemma RemoveIdMembers(s: seq<Transaction>, id: int)
    ensures forall t :: t in RemoveId(s, id) <==> t in s && t.id != id
    ensures |RemoveId(s, id)| <= |s|
  {
    FilterMembers(s, IdIsNot(id));
  }

  /** Removing an id that no record carries leaves the list as it is. */
  lemma RemoveAbsent(s: seq<Transaction>, id: int)
    requires Fresh(s, id)
    ensures RemoveId(s, id) == s
  {
    FilterCongruent(s, IdIsNot(id), Always());
    FilterAlways(s);
  }

  lemma {:induction false} ReplaceAbsent(s: seq<Transaction>, id: int, x: Transaction)
    requires Fresh(s, id)
    ensures ReplaceId(s, id, x) == s
    decreases |s|
  {
    if s != [] {
      assert s[1..] + [] == s[1..];
      assert forall t :: t in s[1..] ==> t in s;
      ReplaceAbsent(s[1..], id, x);
    }
  }

  /** Confirming an add whose temporary id was fresh leaves the confirmed
      record in front of the list the add started from. */
  lemma AddConfirmed(s: seq<Transaction>, d: TransactionDraft, tempId: int, newTx: Transaction)
    requires Fresh(s, tempId)
    ensures ReplaceId([Optimistic(d, tempId)] + s, tempId, newTx) == [newTx] + s
  {
    assert ([Optimistic(d, tempId)] + s)[1..] == s;
    ReplaceAbsent(s, tempId, newTx);
  }

  /** Rolling back an add whose temporary id was fresh restores the list the
      add started from. */
  lemma AddRolledBack(s: seq<Transaction>, d: TransactionDraft, tempId: int)
    requires Fresh(s, tempId)
    ensures RemoveId([Optimistic(d, tempId)] + s, tempId) == s
  {
    FilterAppend([Optimistic(d, tempId)], s, IdIsNot(tempId));
    FilterSnoc([], Optimistic(d, tempId), IdIsNot(tempId));
    RemoveAbsent(s, tempId);
  }

  /** A filter keeps an ordered list ordered. */
  lemma {:induction false} FilterSorted(s: seq<Transaction>, p: Transaction -> bool, first: (Transaction, Transaction) -> bool)
    requires Sorted(s, first)
    ensures Sorted(Filter(s, p), first)
    decreases |s|
  {
    if s != [] {
      var s', t := s[..|s| - 1], s[|s| - 1];
      assert s == s' + [t];
      FilterSnoc(s', t, p);
      FilterSorted(s', p, first);
      FilterMembers(s', p);
      forall u | u in Filter(s', p) ensures first(u, t) {
        var k :| 0 <= k < |s'| && s'[k] == u;
        assert s[k] == u;
      }
    }
  }

  /** Removing the one record carrying an id takes exactly that record out. */
  lemma {:induction false} RemoveUnique(s: seq<Transaction>, id: int, snap: Transaction)
    requires DistinctTxIds(s) && snap in s && snap.id == id
    ensures multiset(RemoveId(s, id)) + multiset{snap} == multiset(s)
    decreases |s|
  {
    var s', t := s[..|s| - 1], s[|s| - 1];
    assert s == s' + [t];
    FilterSnoc(s', t, IdIsNot(id));
    if t.id == id {
      LastHoldsId(s, id, snap);
      RemoveAbsent(s', id);
    } else {
      assert snap in s' by { assert snap != t; }
      assert DistinctTxIds(s');
      RemoveUnique(s', id, snap);
    }
  }

  /** With distinct ids, when the last record carries the id it is the one
      record that does, and the records before it are free of the id. */
  lemma LastHoldsId(s: seq<Transaction>, id: int, snap: Transaction)
    requires DistinctTxIds(s) && snap in s && snap.id == id
    requires s != [] && s[|s| - 1].id == id
    ensures snap == s[|s| - 1] && Fresh(s[..|s| - 1], id)
  {
    var k :| 0 <= k < |s| && s[k] == snap;
    assert s[k].id == s[|s| - 1].id;
    forall u | u in s[..|s| - 1] ensures u.id != id {
      var j :| 0 <= j < |s| - 1 && s[j] == u;
    }
  }

  /** A failed delete puts the record back: when ids are distinct the
      restored list holds exactly the records the delete started from, in
      date-descending order. */
  lemma DeleteRolledBack(s: seq<Transaction>, id: int, snap: Transaction)
    requires DistinctTxIds(s)
    requires FindById(s, id) == Some(snap)
    ensures var r := Sort([snap] + RemoveId(s, id), DateDescending());
      multiset(r) == multiset(s) && Sorted(r, DateDescending())
  {
    RemoveUnique(s, id, snap);
    DateDescendingTotal();
    SortSorted([snap] + RemoveId(s, id), DateDescending());
  }

  /** When the list was already in date-descending order, the re-sort puts
      the record back in front of the first record not later than it and
      leaves every other record where it was. */
  lemma DeleteRollbackOnSorted(s: seq<Transaction>, id: int, snap: Transaction)
    requires Sorted(s, DateDescending())
    ensures Sort([snap] + RemoveId(s, id), DateDescending()) == Insert(snap, RemoveId(s, id), DateDescending())
  {
    FilterSorted(s, IdIsNot(id), DateDescending());
    ResortAfterPrepend(snap, RemoveId(s, id), DateDescending());
  }

  // ------------------------------------------------------------------ store

  class FinanceStore {
    var transactions: seq<Transaction>
    var loading: bool
    var currentDate: Date
    var selectedDate: Option<string>
    var categories: seq<Category>
    var jarConfig: seq<Jar>
    var categoryToJarMapping: CategoryMapping

    /** The initial state (lines 38-46); `new Date()` is the parameter `today`. */
    constructor (today: Date)
      ensures transactions == [] && !loading && currentDate == today && selectedDate == None
      ensures categories == CATEGORIES && jarConfig == JAR_CONFIG && categoryToJarMapping == CATEGORY_TO_JAR_MAPPING
    {
      transactions := [];
      loading := false;
      currentDate := today;
      selectedDate := None;
      categories := CATEGORIES;
      jarConfig := JAR_CONFIG;
      categoryToJarMapping := CATEGORY_TO_JAR_MAPPING;
    }

    /** The configuration fields are left alone. */
    twostate predicate ConfigUnchanged()
      reads this
    {
      categories == old(categories) && jarConfig == old(jarConfig)
      && categoryToJarMapping == old(categoryToJarMapping)
    }

    method SetTransactions(s: seq<Transaction>)
      modifies this
      ensures transactions == s
      ensures loading == old(loading) && currentDate == old(currentDate) && selectedDate == old(selectedDate)
      ensures ConfigUnchanged()
    {
      transactions := s;
    }

    method SetLoading(b: bool)
      modifies this
      ensures loading == b
      ensures transactions == old(transactions) && currentDate == old(currentDate) && selectedDate == old(selectedDate)
      ensures ConfigUnchanged()
    {
      loading := b;
    }

    /** Moving to another date always drops the day selection. */
    method SetCurrentDate(d: Date)
      modifies this
      ensures currentDate == d && selectedDate == None
      ensures transactions == old(transactions) && loading == old(loading)
      ensures ConfigUnchanged()
    {
      currentDate := d;
      selectedDate := None;
    }

    method SetSelectedDate(sel: Option<string>)
      modifies this
      ensures selectedDate == sel
      ensures transactions == old(transactions) && loading == old(loading) && currentDate == old(currentDate)
      ensures ConfigUnchanged()
    {
      selectedDate := sel;
    }

    method SetCategories(c: seq<Category>)
      modifies this
      ensures categories == c
      ensures jarConfig == old(jarConfig) && categoryToJarMapping == old(categoryToJarMapping)
      ensures transactions == old(transactions) && loading == old(loading)
      ensures currentDate == old(currentDate) && selectedDate == old(selectedDate)
    {
      categories := c;
    }

    method SetJarConfig(c: seq<Jar>)
      modifies this
      ensures jarConfig == c
      ensures categories == old(categories) && categoryToJarMapping == old(categoryToJarMapping)
      ensures transactions == old(transactions) && loading == old(loading)
      ensures currentDate == old(currentDate) && selectedDate == old(selectedDate)
    {
      jarConfig := c;
    }

    /** Day 1 of the following month, rolling December over into January of
        the next year, with no day selected. */
    method NextMonth()
      modifies this
      ensures currentDate == Dates.NextMonth(old(currentDate)) && selectedDate == None
      ensures currentDate.day == 1
      ensures currentDate.year == old(currentDate.year) + (if old(currentDate.month) == 11 then 1 else 0)
      ensures transactions == old(transactions) && loading == old(loading)
      ensures ConfigUnchanged()
    {
      currentDate := Dates.NextMonth(currentDate);
      selectedDate := None;
    }

    /** Day 1 of the preceding month, rolling January back into December of
        the year before, with no day selected. */
    method PrevMonth()
      modifies this
      ensures currentDate == Dates.PrevMonth(old(currentDate)) && selectedDate == None
      ensures currentDate.day == 1
      ensures currentDate.year == old(currentDate.year) - (if old(currentDate.month) == 0 then 1 else 0)
      ensures transactions == old(transactions) && loading == old(loading)
      ensures ConfigUnchanged()
    {
      currentDate := Dates.PrevMonth(currentDate);
      selectedDate := None;
    }

    /** `goToday`: the clock's reading is the parameter `today`. */
    method GoToday(today: Date)
      modifies this
      ensures currentDate == today && selectedDate == None
      ensures transactions == old(transactions) && loading == old(loading)
      ensures ConfigUnchanged()
    {
      currentDate := today;
      selectedDate := None;
    }

    /** `fetchTransactions` up to its `await`: loading on, and the range to
        ask the service for. */
    method BeginFetch() returns (window: FetchWindow)
      modifies this
      ensures window == MonthWindow(old(currentDate))
      ensures loading
      ensures transactions == old(transactions) && currentDate == old(currentDate) && selectedDate == old(selectedDate)
      ensures ConfigUnchanged()
    {
      loading := true;
      window := MonthWindow(currentDate);
    }

    /** After the service answered: the data replaces the working set; a
        failure is swallowed and leaves it as it was; loading is off either way. */
    method CompleteFetch(outcome: Outcome<seq<Transaction>>)
      modifies this
      ensures transactions == (if outcome.Ok? then outcome.value else old(transactions))
      ensures !loading
      ensures currentDate == old(currentDate) && selectedDate == old(selectedDate)
      ensures ConfigUnchanged()
    {
      if outcome.Ok? {
        transactions := outcome.value;
      }
      loading := false;
    }

    /** `addTransaction` up to its `await`: the optimistic record, under the
        temporary id the clock supplied, goes in front. */
    method BeginAdd(d: TransactionDraft, tempId: int)
      modifies this
      ensures transactions == [Optimistic(d, tempId)] + old(transactions)
      ensures transactions[0].id == tempId && transactions[0].isOptimistic
      ensures transactions[1..] == old(transactions)
      ensures loading == old(loading) && currentDate == old(currentDate) && selectedDate == old(selectedDate)
      ensures ConfigUnchanged()
    {
      transactions := [Optimistic(d, tempId)] + transactions;
    }

    /** After the service answered: on success every record with the
        temporary id becomes the stored record, which is returned; on failure
        they are removed and the failure is passed on. */
    method CompleteAdd(tempId: int, outcome: Outcome<Transaction>) returns (r: Outcome<Transaction>)
      modifies this
      ensures r == outcome
      ensures outcome.Ok? ==> transactions == ReplaceId(old(transactions), tempId, outcome.value)
      ensures outcome.Err? ==> transactions == RemoveId(old(transactions), tempId)
      ensures loading == old(loading) && currentDate == old(currentDate) && selectedDate == old(selectedDate)
      ensures ConfigUnchanged()
    {
      if outcome.Ok? {
        transactions := ReplaceId(transactions, tempId, outcome.value);
      } else {
        transactions := RemoveId(transactions, tempId);
      }
      r := outcome;
    }

    /** `deleteTransaction` up to its `await`: the record found under the id
        is kept as the snapshot and every record with the id is removed; when
        no record has the id nothing happens and no call is made. */
    method BeginDelete(id: int) returns (snapshot: Option<Transaction>)
      modifies this
      ensures snapshot == FindById(old(transactions), id)
      ensures snapshot.None? ==> transactions == old(transactions)
      ensures snapshot.Some? ==> transactions == RemoveId(old(transactions), id)
      ensures loading == old(loading) && currentDate == old(currentDate) && selectedDate == old(selectedDate)
      ensures ConfigUnchanged()
    {
      snapshot := FindById(transactions, id);
      if snapshot.None? {
        return;
      }
      transactions := RemoveId(transactions, id);
    }

    /** After the service answered: success keeps the removal; failure puts
        the snapshot in front, re-sorts the whole list by date, newest first,
        and passes the failure on. */
    method CompleteDelete(snapshot: Transaction, outcome: Outcome<()>) returns (r: Outcome<()>)
      modifies this
      ensures r == outcome
      ensures outcome.Ok? ==> transactions == old(transactions)
      ensures outcome.Err? ==> transactions == Sort([snapshot] + old(transactions), DateDescending())
      ensures loading == old(loading) && currentDate == old(currentDate) && selectedDate == old(selectedDate)
      ensures ConfigUnchanged()
    {
      if outcome.Err? {
        transactions := Sort([snapshot] + transactions, DateDescending());
      }
      r := outcome;
    }

    /** `bulkAddTransactions` after its `await`: on success the stored records
        go in front, in the order the service returned them; on failure the
        list is left alone and the failure passed on. */
    method BulkAdd(outcome: Outcome<seq<Transaction>>) returns (r: Outcome<seq<Transaction>>)
      modifies this
      ensures r == outcome
      ensures transactions == (if outcome.Ok? then outcome.value + old(transactions) else old(transactions))
      ensures loading == old(loading) && currentDate == old(currentDate) && selectedDate == old(selectedDate)
      ensures ConfigUnchanged()
    {
      if outcome.Ok? {
        transactions := outcome.value + transactions;
      }
      r := outcome;
    }

    /** `selectFilteredTransactions` on the current state. */
    function Filtered(): seq<Transaction>
      reads this
    {
      FilteredTransactions(transactions, selectedDate, currentDate)
    }

    /** `selectMonthTransactions` on the current state. */
    function Month(): seq<Transaction>
      reads this
    {
      MonthTransactions(transactions, currentDate)
    }
  }
}
