/** The month calendar (src/components/Calendar.jsx:5-68): a seven-column
    grid that starts with one blank cell per weekday before the 1st, then
    one button per day of the month; a day with records is marked, the
    selected day is highlighted, and clicking a day selects it or, when it
    is already selected, clears the selection. */
module Calendar {
  import opened Types
  import opened Ledger
  import opened Dates
  import opened Selectors
  import opened Sorting

  /** `Array.from({ length: daysInMonth }, (_, i) => i + 1)`. */
  function Days(year: int, month: Month0): seq<int>
  {
    seq(DaysInMonth(year, month), i => i + 1)
  }

  /** The rendered days are 1 to the month's length, in order, each a real
      calendar day. */
  lemma DaysAreTheMonth(year: int, month: Month0)
    ensures |Days(year, month)| == DaysInMonth(year, month)
    ensures forall d :: d in Days(year, month) <==> 1 <= d <= DaysInMonth(year, month)
    ensures forall i, j :: 0 <= i < j < |Days(year, month)| ==> Days(year, month)[i] < Days(year, month)[j]
  {
    var r := Days(year, month);
    forall d | 1 <= d <= DaysInMonth(year, month) ensures d in r {
      assert r[d - 1] == d;
    }
  }

  // ------------------------------------------------------------ weekdays

  /** Days from 1 January of year 1 (proleptic Gregorian) to 1 January of `y`;
      negative before year 1. Floor division counts the leap years. */
  function DaysBeforeYear(y: int): int
  {
    var p := y - 1;
    365 * p + p / 4 - p / 100 + p / 400
  }

  function DaysBeforeMonth(y: int, m: Month0): int
  {
    if m == 0 then 0 else DaysBeforeMonth(y, m - 1) + DaysInMonth(y, m - 1)
  }

  /** Days from 1 January of year 1, a Monday, to `d`. */
  function DayNumber(d: Date): int
  {
    DaysBeforeYear(d.year) + DaysBeforeMonth(d.year, d.month) + d.day - 1
  }

  /** `getDay()`: 0 is Sunday. */
  function Weekday(d: Date): (w: int)
    ensures 0 <= w < 7
  {
    (DayNumber(d) + 1) % 7
  }

  /** `new Date(year, month, 1).getDay()`: the number of blank cells. */
  function FirstDayOfMonth(year: int, month: Month0): int
  {
    Weekday(Date(year, month, 1))
  }

  /** One more multiple of `k` is passed exactly when `y` is one; `k` is one
      of the three leap-year periods, so that the division is by a constant. */
  lemma FloorStep(y: int, k: int)
    requires k == 4 || k == 100 || k == 400
    ensures y / k - (y - 1) / k == if y % k == 0 then 1 else 0
  {
    if k == 4 {
      assert y / 4 - (y - 1) / 4 == if y % 4 == 0 then 1 else 0;
    } else if k == 100 {
      assert y / 100 - (y - 1) / 100 == if y % 100 == 0 then 1 else 0;
    } else {
      assert y / 400 - (y - 1) / 400 == if y % 400 == 0 then 1 else 0;
    }
  }

  /** A year has 365 days, one more when it is a leap year. */
  lemma YearLength(y: int)
    ensures DaysBeforeYear(y + 1) - DaysBeforeYear(y) == if IsLeapYear(y) then 366 else 365
  {
    assert DaysBeforeYear(y + 1) == 365 * y + y / 4 - y / 100 + y / 400;
    FloorStep(y, 4);
    FloorStep(y, 100);
    FloorStep(y, 400);
    DivisibilityChain(y);
  }

  lemma DivisibilityChain(y: int)
    ensures y % 400 == 0 ==> y % 100 == 0
    ensures y % 100 == 0 ==> y % 4 == 0
  {
    if y % 400 == 0 {
      var q := y / 400;
      assert y == 100 * (4 * q);
    }
    if y % 100 == 0 {
      var q := y / 100;
      assert y == 4 * (25 * q);
    }
  }

  /** January to November, then December's 31 days, make the year. */
  lemma DaysBeforeDecember(y: int)
    ensures DaysBeforeMonth(y, 11) + 31 == if IsLeapYear(y) then 366 else 365
  {
    var feb := DaysInMonth(y, 1);
    assert DaysBeforeMonth(y, 1) == 31;
    assert DaysBeforeMonth(y, 2) == 31 + feb;
    assert DaysBeforeMonth(y, 3) == 62 + feb;
    assert DaysBeforeMonth(y, 4) == 92 + feb;
    assert DaysBeforeMonth(y, 5) == 123 + feb;
    assert DaysBeforeMonth(y, 6) == 153 + feb;
    assert DaysBeforeMonth(y, 7) == 184 + feb;
    assert DaysBeforeMonth(y, 8) == 215 + feb;
    assert DaysBeforeMonth(y, 9) == 245 + feb;
    assert DaysBeforeMonth(y, 10) == 276 + feb;
    assert DaysBeforeMonth(y, 11) == 306 + feb;
  }

  /** Each month's first weekday follows from the one before: the grid of a
      month ends where the next one begins. */
  lemma FirstDayAdvances(year: int, month: Month0)
    ensures var next := NextMonth(Date(year, month, 1));
      FirstDayOfMonth(next.year, next.month) == (FirstDayOfMonth(year, month) + DaysInMonth(year, month)) % 7
  {
    var next := NextMonth(Date(year, month, 1));
    if month == 11 {
      YearLength(year);
      DaysBeforeDecember(year);
      assert DayNumber(next) == DayNumber(Date(year, month, 1)) + DaysInMonth(year, month);
    } else {
      assert DayNumber(next) == DayNumber(Date(year, month, 1)) + DaysInMonth(year, month);
    }
  }

  /** The day count is anchored on the calendar: 1 January 1970 was a
      Thursday and 1 January 2024 a Monday. */
  lemma WeekdayAnchors()
    ensures Weekday(Date(1970, 0, 1)) == 4
    ensures Weekday(Date(2024, 0, 1)) == 1
  {
    assert DaysBeforeYear(1970) == 719162;
    assert DaysBeforeYear(2024) == 738885;
  }

  // ------------------------------------------------------------ the grid

  /** The days of the displayed month that carry at least one record:
      `new Set(transactions.filter(in month).map(t => day of t))`. */
  function ActiveDates(txs: seq<Transaction>, currentDate: Date): set<int>
  {
    set t | t in MonthTransactions(txs, currentDate) :: t.date.day as int
  }

  /** A day is active exactly when some record falls on it. */
  lemma ActiveDatesAreRecordDays(txs: seq<Transaction>, currentDate: Date, day: int)
    ensures day in ActiveDates(txs, currentDate)
      <==> exists t :: t in txs && t.date.year == currentDate.year && t.date.month == currentDate.month
                    && t.date.day == day
  {
    FilterMembers(txs, InMonthOf(currentDate));
  }

  /** One day button. */
  datatype DayCell = DayCell(day: int, dateStr: string, isSelected: bool, hasActivity: bool)

  /** The grid: the blank cells in front, then the day buttons. */
  datatype Grid = Grid(leadingBlanks: int, cells: seq<DayCell>)

  function Cell(txs: seq<Transaction>, selectedDate: Option<string>, currentDate: Date, day: int): (c: DayCell)
    requires 1 <= day <= 31
    ensures c.day == day
  {
    var dateStr := DateStr(Date(currentDate.year, currentDate.month, day));
    DayCell(day, dateStr, selectedDate == Some(dateStr), day in ActiveDates(txs, currentDate))
  }

  function CalendarGrid(txs: seq<Transaction>, selectedDate: Option<string>, currentDate: Date): Grid
  {
    var n := DaysInMonth(currentDate.year, currentDate.month);
    Grid(FirstDayOfMonth(currentDate.year, currentDate.month),
      seq(n, i requires 0 <= i < n => Cell(txs, selectedDate, currentDate, i + 1)))
  }

  /** Within a month each day is one weekday after the day before. */
  lemma DayColumn(y: int, m: Month0, d: int)
    requires 1 <= d <= 31
    ensures (FirstDayOfMonth(y, m) + d - 1) % 7 == Weekday(Date(y, m, d))
  {
    assert DayNumber(Date(y, m, d)) == DayNumber(Date(y, m, 1)) + d - 1;
    ModShift(DayNumber(Date(y, m, 1)), d);
  }

  lemma ModShift(a: int, d: int)
    ensures ((a + 1) % 7 + d - 1) % 7 == (a + d) % 7
  {
  }

  /** Day `d` sits in the column of its weekday: the blank cells push the
      1st under its weekday and each later day one column on. */
  lemma GridColumns(txs: seq<Transaction>, selectedDate: Option<string>, currentDate: Date, i: int)
    requires 0 <= i < DaysInMonth(currentDate.year, currentDate.month)
    ensures var g := CalendarGrid(txs, selectedDate, currentDate);
      |g.cells| == DaysInMonth(currentDate.year, currentDate.month) && g.cells[i].day == i + 1
    ensures var g := CalendarGrid(txs, selectedDate, currentDate);
      g.leadingBlanks == FirstDayOfMonth(currentDate.year, currentDate.month)
    ensures var g := CalendarGrid(txs, selectedDate, currentDate);
      (g.leadingBlanks + g.cells[i].day - 1) % 7 == Weekday(Date(currentDate.year, currentDate.month, i + 1))
  {
    GridCellAt(txs, selectedDate, currentDate, i);
    DayColumn(currentDate.year, currentDate.month, i + 1);
  }

  /** The grid opens with as many blanks as the weekday of the 1st, then one
      cell per day of the month in order. */
  lemma GridCellAt(txs: seq<Transaction>, selectedDate: Option<string>, currentDate: Date, i: int)
    requires 0 <= i < DaysInMonth(currentDate.year, currentDate.month)
    ensures var g := CalendarGrid(txs, selectedDate, currentDate);
      |g.cells| == DaysInMonth(currentDate.year, currentDate.month)
      && g.cells[i].day == i + 1
      && g.leadingBlanks == FirstDayOfMonth(currentDate.year, currentDate.month)
  {
  }

  /** A day is marked exactly when a record falls on it. */
  lemma GridActivity(txs: seq<Transaction>, selectedDate: Option<string>, currentDate: Date)
    ensures var g := CalendarGrid(txs, selectedDate, currentDate);
      forall i :: 0 <= i < |g.cells| ==>
        (g.cells[i].hasActivity <==> exists t :: t in txs && t.date == Date(currentDate.year, currentDate.month, g.cells[i].day))
  {
    var g := CalendarGrid(txs, selectedDate, currentDate);
    forall i | 0 <= i < |g.cells|
      ensures g.cells[i].hasActivity <==> exists t :: t in txs && t.date == Date(currentDate.year, currentDate.month, g.cells[i].day)
    {
      ActiveDatesAreRecordDays(txs, currentDate, i + 1);
    }
  }

  lemma SameMonthDays(currentDate: Date, d1: int, d2: int)
    requires 1 <= d1 <= 31 && 1 <= d2 <= 31
    requires DateStr(Date(currentDate.year, currentDate.month, d1)) == DateStr(Date(currentDate.year, currentDate.month, d2))
    ensures d1 == d2
  {
    DateStrInjective(Date(currentDate.year, currentDate.month, d1), Date(currentDate.year, currentDate.month, d2));
  }

  /** No two days are ever highlighted at once, and a highlighted day is the
      selected one. */
  lemma GridSingleSelection(txs: seq<Transaction>, selectedDate: Option<string>, currentDate: Date)
    ensures var g := CalendarGrid(txs, selectedDate, currentDate);
      forall i, j :: 0 <= i < |g.cells| && 0 <= j < |g.cells| && g.cells[i].isSelected && g.cells[j].isSelected ==> i == j
    ensures var g := CalendarGrid(txs, selectedDate, currentDate);
      forall i :: 0 <= i < |g.cells| && g.cells[i].isSelected ==> selectedDate == Some(g.cells[i].dateStr)
  {
    var g := CalendarGrid(txs, selectedDate, currentDate);
    forall i, j | 0 <= i < |g.cells| && 0 <= j < |g.cells| && g.cells[i].isSelected && g.cells[j].isSelected
      ensures i == j
    {
      CellSelection(txs, selectedDate, currentDate, i);
      CellSelection(txs, selectedDate, currentDate, j);
      SameMonthDays(currentDate, i + 1, j + 1);
    }
    forall i | 0 <= i < |g.cells| && g.cells[i].isSelected
      ensures selectedDate == Some(g.cells[i].dateStr)
    {
      CellSelection(txs, selectedDate, currentDate, i);
    }
  }

  lemma CellSelection(txs: seq<Transaction>, selectedDate: Option<string>, currentDate: Date, i: int)
    requires 0 <= i < |CalendarGrid(txs, selectedDate, currentDate).cells|
    ensures var c := CalendarGrid(txs, selectedDate, currentDate).cells[i];
      && 1 <= i + 1 <= 31
      && c.dateStr == DateStr(Date(currentDate.year, currentDate.month, i + 1))
      && (c.isSelected <==> selectedDate == Some(c.dateStr))
  {
  }

  // ------------------------------------------------------------ selection

  /** `onSelectDate(isSelected ? null : dateStr)`. */
  function ClickDay(selectedDate: Option<string>, dateStr: string): Option<string>
  {
    if selectedDate == Some(dateStr) then None else Some(dateStr)
  }

  /** "Clear Filter": `onSelectDate(null)`. */
  function ClearFilter(): Option<string>
  {
    None
  }

  /** Clicking a day that is not selected makes the list show exactly that
      day's records; clicking the selected day again, or clearing the filter,
      brings back the whole month. */
  lemma ClickShowsDayOrMonth(txs: seq<Transaction>, selectedDate: Option<string>, currentDate: Date, day: int)
    requires 1 <= day <= DaysInMonth(currentDate.year, currentDate.month)
    ensures var d := Date(currentDate.year, currentDate.month, day);
      selectedDate != Some(DateStr(d)) ==>
        forall t :: t in FilteredTransactions(txs, ClickDay(selectedDate, DateStr(d)), currentDate) <==> t in txs && t.date == d
    ensures var d := Date(currentDate.year, currentDate.month, day);
      selectedDate == Some(DateStr(d)) ==>
        FilteredTransactions(txs, ClickDay(selectedDate, DateStr(d)), currentDate)
          == Sort(MonthTransactions(txs, currentDate), NewestFirst())
    ensures FilteredTransactions(txs, ClearFilter(), currentDate) == Sort(MonthTransactions(txs, currentDate), NewestFirst())
  {
    var d := Date(currentDate.year, currentDate.month, day);
    SelectedDayShowsThatDay(txs, d, currentDate);
    NoSelectionShowsMonth(txs, currentDate);
  }
}
