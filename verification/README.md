# Finance tracker core, modelled in Dafny

The tracker keeps a list of income and expense transactions for one displayed month. It derives the following figures from that list:

- monthly totals, the balance and a 54% "dynamic budget";
- seven budget "jars" with a target, a current amount, a capped progress value and a per-category breakdown;
- the "consumption" spend;
- the previous month's unspent buffer, which a "buffer sweep" moves out of the buffer jar and into three saving jars.

This project models that core, file by file:

| file | models |
|---|---|
| `types.dfy` | the record types (transactions, drafts, categories, jars, allocations) |
| `constants.dfy` | the category, jar and category-to-jar tables, with their invariants |
| `ledger.dfy` | order-preserving filtering and summing, which every view is built from |
| `dates.dfy` | month stepping with year rollover, month lengths, English month names and the `YYYY-MM-DD` day string |
| `strings.dfy` | `includes`, `substring(0, n)`, integer formatting and `padStart(2, '0')` |
| `sorting.dfy` | a stable sort with a comparator, as `Array.prototype.sort` is |
| `grouping.dfy` | the "add to this category's running total" dictionary, filled in place |
| `engine.dfy` | `useFinanceCalculations` (TypeScript); its reduce and forEach loops are methods with loop invariants |
| `legacy_engine.dfy` | the JavaScript twin of the engine, bound to the default tables |
| `selectors.dfy` | the filtered-and-sorted list and the month list |
| `store.dfy` | the application store, as a class whose methods change its fields |
| `transactions_hook.dfy` | the older, non-optimistic working set, as a class |
| `category_chart.dfy` | the "Spending by Category" chart |
| `progress.dfy` | the progress bar's percentage, remaining amount and status text |
| `calendar.dfy` | the month grid: days, leading blanks, activity dots, the selection toggle |
| `app.dfy` | the page's add-form payload rule, the sweep drafts, the sweep button's guard and the engine's input |

Amounts are exact `real`s. Dates are already-parsed `(year, month, day)` triples with a 0-based month, as `getMonth` returns them.

Each asynchronous store action is split at its `await` into two methods:

- a `Begin` method does what happens before the service call;
- a `Complete` method receives the call's outcome (`Ok(value)` or `Err`) and does what happens after it.

A `Complete` method returns that outcome, which models the rethrow.

## Model

| member | source | states |
|---|---|---|
| Engine.ComputeTotals | src/hooks/useFinanceCalculations.ts:35-52 | income and expenses are the sums of the reference month's `income` records and of all its other records |
| Engine.TotalsOf | src/hooks/useFinanceCalculations.ts:44-51 | the reduce loop ends holding the income and expense sums of the whole list |
| Engine.TotalsSnoc | src/hooks/useFinanceCalculations.ts:45-49 | each record adds its amount to exactly one of the two totals |
| Engine.TotalsPartition | src/hooks/useFinanceCalculations.ts:44-54 | income plus expenses is the sum of all records; income minus expenses is the signed sum; both are non-negative for non-negative amounts |
| Engine.UseFinanceCalculations | src/hooks/useFinanceCalculations.ts:24-152 | every output the hook returns: totals, balance as the signed sum of the month, dynamic budget of 0.54 × income, the jar allocations, consumption and the previous-month status |
| Engine.AccumulateJars | src/hooks/useFinanceCalculations.ts:59-76 | the jar dictionary built by the two loops is the per-jar accumulation of the month's expenses |
| Engine.EmptyJarData | src/hooks/useFinanceCalculations.ts:60-63 | one empty entry per configured jar id |
| Engine.JarDataFor | src/hooks/useFinanceCalculations.ts:65-76 | the forEach over the month's expenses ends with the accumulation of all of them |
| Engine.AddExpense | src/hooks/useFinanceCalculations.ts:70-75 | one forEach step: adds to the total and category of the mapped jar if that jar exists; otherwise changes nothing |
| Engine.JarDataAdd | src/hooks/useFinanceCalculations.ts:71-75 | an expense mapped to a configured jar updates that jar's entry alone, by its amount under its category |
| Engine.JarDataSkip | src/hooks/useFinanceCalculations.ts:72 | an unmapped expense, or one mapped to an unconfigured jar, is dropped |
| Engine.JarDataStepAt | src/hooks/useFinanceCalculations.ts:70-76 | after one step, each jar's entry grows exactly when the record resolves to it |
| Engine.JarAccumSnoc | src/hooks/useFinanceCalculations.ts:73-74 | the total and the category dictionary grow together by one record's amount |
| Engine.JarDataOfEntry | src/hooks/useFinanceCalculations.ts:65-80 | each configured jar's entry is the total and grouping of exactly the month's expenses mapped to it |
| Engine.CategoryName | src/hooks/useFinanceCalculations.ts:86 | the raw id when no row has the id; otherwise the name of the first row with the id, or the raw id when that name is empty |
| Engine.Breakdown | src/hooks/useFinanceCalculations.ts:84-88 | one breakdown line per grouped category, with the same id and amount |
| Engine.JarAllocations | src/hooks/useFinanceCalculations.ts:78-98 | exactly one allocation per configured jar, in configuration order, keeping its id, name and color |
| Engine.SharesTotalIsGroupTotal | src/hooks/useFinanceCalculations.ts:84-88 | the breakdown's amounts add up to the grouped total |
| Engine.JarAllocationFigures | src/hooks/useFinanceCalculations.ts:78-98 | target is income × share; current is the sum of the jar's expenses; progress is CappedPercent(current, target), i.e. min(current / target × 100, 100) for a positive target and 0 otherwise, so it lies in [0, 100] for non-negative amounts and is 100 exactly when current reaches target; `isOver` ⟺ current > target |
| Engine.JarSumNonNegative | src/hooks/useFinanceCalculations.ts:80 | a jar's current amount is non-negative for non-negative amounts |
| Engine.JarBreakdownCorrect | src/hooks/useFinanceCalculations.ts:73-88 | the breakdown lines have distinct ids and are exactly the categories of the jar's expenses, each line holds its category's expense sum, and the lines add up to `current` |
| Engine.MonthExpensesAreExpenses | src/hooks/useFinanceCalculations.ts:65-69 | the month's non-income total equals the sum of the month's `expense` records |
| Engine.JarsPartitionMappedExpenses | src/hooks/useFinanceCalculations.ts:65-76 | the current amounts of distinct jars add up to the month's expenses mapped into any of them, so no expense is counted twice |
| Engine.ConsumptionIsSpendingJars | src/hooks/useFinanceCalculations.ts:101-114 | consumption equals the sum of the necessities, play, give and buffer jars' current amounts |
| Engine.ConsumptionExpenses | src/hooks/useFinanceCalculations.ts:101-114 | the month's expenses whose category maps to necessities, play, give or buffer, summed; Engine.ConsumptionIsSpendingJars and ConsumptionWithinExpenses state its value |
| Engine.ConsumptionWithinExpenses | src/hooks/useFinanceCalculations.ts:101-114 | 0 ≤ consumption ≤ the month's expenses for non-negative amounts |
| Engine.AllJarsWithinExpenses | src/hooks/useFinanceCalculations.ts:78-98 | the jars' current amounts together never exceed the month's expenses for non-negative amounts |
| Engine.AnyDescriptionContains | src/hooks/useFinanceCalculations.ts:137-139 | `some` holds exactly when some record's description contains the probe |
| Engine.PrevMonthData | src/hooks/useFinanceCalculations.ts:116-141 | leftover = max(0, 0.06 × previous month's non-sweep income − its buffer spending); swept ⟺ some record of any month contains "Buffer Sweep from" + the previous month's short name; the month name is the previous month's long name |
| Engine.PrevMonthIncome | src/hooks/useFinanceCalculations.ts:126-128 | the previous month's income records without the sweep tag, summed; Engine.PrevMonthData and App.SweepIncomeExcludedFromBase state what it counts |
| Engine.BufferSpent | src/hooks/useFinanceCalculations.ts:131-133 | the previous month's expenses whose category maps to buffer, summed; Engine.PrevMonthData and LeftoverWithinTarget state its use |
| Engine.LeftoverWithinTarget | src/hooks/useFinanceCalculations.ts:130-135 | the leftover never exceeds the buffer target for non-negative amounts |
| Engine.LiteralsMatchDefaultConfig | src/hooks/useFinanceCalculations.ts:55 | the 0.54 literal is the sum of the four consumption jars' shares, 0.06 is the buffer jar's share, and the consumption ids are all configured |
| LegacyEngine.LegacyAddExpense | src/hooks/useFinanceCalculations.js:38-44 | the unguarded forEach step does what the guarded one does, provided every mapped jar id is configured |
| LegacyEngine.LegacyJarDataFor | src/hooks/useFinanceCalculations.js:33-44 | the unguarded loop builds the same dictionary as the guarded one under that proviso |
| LegacyEngine.LegacyJarData | src/hooks/useFinanceCalculations.js:27-44 | with the default tables the legacy jar dictionary equals the TypeScript engine's |
| LegacyEngine.LegacyConsumptionAgrees | src/hooks/useFinanceCalculations.js:69-82 | the legacy consumption, which tests an undefined jar id against the list, equals the guarded one |
| LegacyEngine.LegacyUseFinanceCalculations | src/hooks/useFinanceCalculations.js:4-120 | every legacy output equals the TypeScript engine's on the default configuration |
| Constants.JarIds | src/constants/index.ts:17-25 | the id set holds exactly the jars' ids |
| Constants.PercentagesSumToOne | src/constants/index.ts:17-25 | the seven jar shares sum to exactly 1 |
| Constants.IdsDistinct | src/constants/index.ts:3-25 | jar ids are distinct and category ids are distinct |
| Constants.MappingTargetsConfigured | src/constants/index.ts:27-38 | every mapping value is a configured jar id |
| Constants.EveryCategoryButIncomeMapped | src/constants/index.ts:3-38 | a category has a mapping entry exactly when it is not `income` |
| Constants.EveryJarReceivesACategory | src/constants/index.ts:17-38 | every jar is the target of at least one category |
| Dates.NextMonth | src/store/useFinanceStore.ts:58 | day 1 of the following month, moving into the next year after December |
| Dates.PrevMonth | src/store/useFinanceStore.ts:64 | day 1 of the preceding month, moving into the previous year before January |
| Dates.MonthMovesInverse | src/store/useFinanceStore.ts:56-66 | next and previous undo each other, and the previous month is never the current one |
| Dates.DaysInMonth | src/components/Calendar.jsx:8 | the Gregorian month length: February has 29 days in a leap year and 28 otherwise; April, June, September and November have 30; the other seven months have 31 |
| Dates.ShortNameIsFirstThree | src/FinanceApp.jsx:102 | the first three letters of the long month name are the short name |
| Dates.DateStrInjective | src/components/Calendar.jsx:61 | distinct days give distinct `YYYY-MM-DD` strings |
| Dates.DateStr | src/components/Calendar.jsx:61 | the `YYYY-MM-DD` key of a day; Dates.DateStrInjective states that it tells days apart |
| Strings.ContainsAt | src/hooks/useFinanceCalculations.ts:127 | `includes` holds exactly when the substring occurs at some position |
| Strings.Take | src/FinanceApp.jsx:102 | `substring(0, n)` is a prefix of length min(n, length) |
| Strings.NatToString | src/components/Calendar.jsx:61 | the decimal string is non-empty, all digits, one digit exactly below 10 |
| Strings.PadStart2 | src/components/Calendar.jsx:61 | a short string is padded to two characters; a longer one is kept |
| Strings.Pad2Injective | src/components/Calendar.jsx:61 | distinct day or month numbers give distinct padded strings |
| Sorting.Sort | src/store/useFinanceStore.ts:175-179 | the sorted list is a permutation of the input |
| Sorting.SortSorted | src/store/useFinanceStore.ts:175-179 | under a total preorder comparator the result is ordered |
| Sorting.SortOfSorted | src/store/useFinanceStore.ts:123-125 | a stable sort leaves an ordered list as it is |
| Sorting.ResortAfterPrepend | src/store/useFinanceStore.ts:123-125 | re-sorting an ordered list with one record in front inserts that record |
| Ledger.FilterMembers | src/store/useFinanceStore.ts:186-189 | a record is kept exactly when it is in the list and passes the test |
| Ledger.FilterAppend | src/store/useFinanceStore.ts:186-189 | filtering keeps the original order: it distributes over concatenation |
| Ledger.SumPartition | src/hooks/useFinanceCalculations.ts:44-51 | the records passing a test and those failing it sum to the whole |
| Grouping.AddTo | src/components/CategoryChart.jsx:9 | the keys gain the category; a new key adds one entry |
| Grouping.AddToAmount | src/components/CategoryChart.jsx:9 | `acc[c] = (acc[c] \|\| 0) + amount` changes the amount under `c` alone |
| Grouping.GroupIdsDistinct | src/components/CategoryChart.jsx:8-11 | the grouping has one entry per distinct category of the input |
| Grouping.GroupAmounts | src/components/CategoryChart.jsx:8-11 | each category's entry is the sum of its records |
| Grouping.GroupTotal | src/components/CategoryChart.jsx:13 | the grouped amounts add up to the input's total |
| Progress.CappedPercent | src/components/ProgressBar.jsx:4 | 0 when max ≤ 0; in [0, 100] for non-negative current; 100 exactly when current reaches max; the exact ratio below it |
| Progress.Round | src/components/ProgressBar.jsx:13 | `Math.round` lands within a half of its argument |
| Progress.ProgressBar | src/components/ProgressBar.jsx:4-24 | remaining = max − current; over-budget ⟺ current > max; 'No Budget' ⟺ max ≤ 0; 'Over Budget' ⟺ max > 0 and over; the status number is the percentage rounded half up (Math.round) and lies in [0, 100]; the footer shows \|remaining\| labelled 'over' or 'left' |
| CategoryChart.FindCategory | src/components/CategoryChart.jsx:17 | `find` returns a table row with the id, or nothing exactly when no row has it |
| CategoryChart.Entries | src/components/CategoryChart.jsx:15-20 | one entry per grouped category |
| CategoryChart.EntryAt | src/components/CategoryChart.jsx:15-19 | entry i carries the table row found for the i-th grouped category (or none), that category's amount, and its percentage of the total |
| CategoryChart.ComputeExpensesByCategory | src/components/CategoryChart.jsx:6-22 | the memo computed with the in-place grouping equals the chart's specification |
| CategoryChart.GroupExpenses | src/components/CategoryChart.jsx:8-11 | the reduce over the expenses ends with their grouping by category |
| CategoryChart.ChartTotalIsExpenses | src/components/CategoryChart.jsx:13 | the chart's total equals the engine's expense total of the same records |
| CategoryChart.ChartEntryPerCategory | src/components/CategoryChart.jsx:7-17 | exactly one entry per category that has an expense, each holding that category's expense sum and its table row |
| CategoryChart.ChartOrdered | src/components/CategoryChart.jsx:21 | the shown entries are a permutation of the computed ones, largest amount first |
| CategoryChart.ChartTotals | src/components/CategoryChart.jsx:13-19 | the entries add up to the expense total and, when it is not zero, the percentages add up to 100 |
| CategoryChart.ExpensesByCategory | src/components/CategoryChart.jsx:6-22 | the chart's entries; CategoryChart.ChartEntryPerCategory, ChartOrdered and ChartTotals state their contents, order and totals |
| CategoryChart.EntriesPercents | src/components/CategoryChart.jsx:19 | the percentages add up to the grouped total over the chart total, times 100 |
| CategoryChart.EntriesAmounts | src/components/CategoryChart.jsx:15-20 | the entries' amounts add up to the grouped total |
| CategoryChart.SortTotals | src/components/CategoryChart.jsx:21 | sorting neither adds nor loses an amount or a percentage |
| Calendar.DaysAreTheMonth | src/components/Calendar.jsx:11 | the rendered days are exactly 1 … days-in-month, in increasing order |
| Calendar.Weekday | src/components/Calendar.jsx:9 | `getDay` is a weekday number in 0 … 6 |
| Calendar.FirstDayOfMonth | src/components/Calendar.jsx:9 | the weekday of day 1, the number of leading blanks; Calendar.FirstDayAdvances and DayColumn state its meaning |
| Calendar.WeekdayAnchors | src/components/Calendar.jsx:9 | 1 January 1970 is a Thursday and 1 January 2024 a Monday, with 0 = Sunday |
| Calendar.YearLength | src/components/Calendar.jsx:9 | the day count advances 366 days over a leap year and 365 over any other |
| Calendar.FirstDayAdvances | src/components/Calendar.jsx:9 | the next month starts days-in-month weekdays later |
| Calendar.DayColumn | src/components/Calendar.jsx:58 | after the leading blanks, day d falls in the column of its weekday |
| Calendar.GridColumns | src/components/Calendar.jsx:53-63 | the grid has one cell per day of the month; the leading blanks number the weekday of the 1st; day i + 1 is in position i, under its weekday's column |
| Calendar.GridCellAt | src/components/Calendar.jsx:58-63 | the number of leading blanks is the weekday of day 1, there is one cell per day of the month, and cell i holds day i + 1 |
| Calendar.ActiveDatesAreRecordDays | src/components/Calendar.jsx:13-22 | a day is active exactly when some record of the displayed month falls on it |
| Calendar.ActiveDates | src/components/Calendar.jsx:13-22 | the days of the displayed month that carry a record; Calendar.ActiveDatesAreRecordDays states it |
| Calendar.CalendarGrid | src/components/Calendar.jsx:53-63 | the blanks and the day cells; Calendar.GridCellAt (blank count = weekday of the 1st, cell i = day i + 1), GridColumns, GridActivity and GridSingleSelection state their layout and flags |
| Calendar.GridActivity | src/components/Calendar.jsx:63 | a cell shows activity exactly when some record falls on that day |
| Calendar.GridSingleSelection | src/components/Calendar.jsx:62 | at most one cell is selected, and it is the one whose day string is the selection |
| Calendar.ClickShowsDayOrMonth | src/components/Calendar.jsx:46-68 | clicking another day lists exactly that day's records; clicking the selected day, or "Clear Filter", lists the month |
| Calendar.ClickDay | src/components/Calendar.jsx:68 | a click toggles the clicked day's selection; Calendar.ClickShowsDayOrMonth states what is then listed |
| Calendar.ClearFilter | src/components/Calendar.jsx:46 | "Clear Filter" clears the selection; Calendar.ClickShowsDayOrMonth states that the month is then listed |
| Selectors.FilteredTransactionsCorrect | src/store/useFinanceStore.ts:164-180 | the list is a permutation of the matching records, date-descending with id-descending ties |
| Selectors.SelectedDayShowsThatDay | src/store/useFinanceStore.ts:170 | with a day selected, exactly the records on that day are listed |
| Selectors.NoSelectionShowsMonth | src/store/useFinanceStore.ts:169-173 | with no selection, or an empty one, the listed records are the month's, sorted |
| Selectors.MonthViewKeepsOrder | src/store/useFinanceStore.ts:182-190 | the month list keeps the original order and is the identity on a list of that month alone |
| Selectors.FilteredTransactions | src/store/useFinanceStore.ts:164-180 | the selected day's records, or the displayed month's, newest first; Selectors.FilteredTransactionsCorrect, SelectedDayShowsThatDay and NoSelectionShowsMonth state it |
| Store.MonthWindow | src/store/useFinanceStore.ts:78-79 | the window runs from day 1 at 00:00:00 to the last day at 23:59:59 |
| Store.MonthWindowIsMonth | src/store/useFinanceStore.ts:76-81 | a valid time falls in the window exactly when it is in the displayed year and month |
| Store.FindById | src/store/useFinanceStore.ts:112 | `find` returns the first record with the id, or nothing exactly when none has it |
| Store.ReplaceIdPositions | src/store/useFinanceStore.ts:98-100 | confirming keeps the length and replaces exactly the positions holding the temporary id |
| Store.RemoveIdMembers | src/store/useFinanceStore.ts:103-105 | removal keeps exactly the records without the id |
| Store.AddConfirmed | src/store/useFinanceStore.ts:90-101 | with a fresh temporary id, add-then-confirm gives the stored record in front of the earlier list |
| Store.AddRolledBack | src/store/useFinanceStore.ts:90-107 | with a fresh temporary id, add-then-fail restores the earlier list |
| Store.RemoveUnique | src/store/useFinanceStore.ts:115-117 | with distinct ids, deleting removes exactly the one snapshot record |
| Store.DeleteRolledBack | src/store/useFinanceStore.ts:110-128 | a failed delete restores the same records, ordered by date descending |
| Store.DeleteRollbackOnSorted | src/store/useFinanceStore.ts:122-126 | on a list already ordered by date, the rollback inserts the snapshot in its place |
| Store.FinanceStore.constructor | src/store/useFinanceStore.ts:37-46 | the initial state: no records, not loading, today, no selection, the default tables |
| Store.FinanceStore.SetTransactions | src/store/useFinanceStore.ts:48 | replaces the list and nothing else |
| Store.FinanceStore.SetLoading | src/store/useFinanceStore.ts:49 | sets the flag and nothing else |
| Store.FinanceStore.SetCurrentDate | src/store/useFinanceStore.ts:50 | sets the month and clears the selection |
| Store.FinanceStore.SetSelectedDate | src/store/useFinanceStore.ts:51 | sets the selection and nothing else |
| Store.FinanceStore.SetCategories | src/store/useFinanceStore.ts:53 | replaces the category table and nothing else |
| Store.FinanceStore.SetJarConfig | src/store/useFinanceStore.ts:54 | replaces the jar table and nothing else |
| Store.FinanceStore.NextMonth | src/store/useFinanceStore.ts:56-60 | moves to day 1 of the next month, rolling the year over after December, and clears the selection |
| Store.FinanceStore.PrevMonth | src/store/useFinanceStore.ts:62-66 | moves to day 1 of the previous month, rolling the year back before January, and clears the selection |
| Store.FinanceStore.GoToday | src/store/useFinanceStore.ts:68-70 | moves to today and clears the selection |
| Store.FinanceStore.BeginFetch | src/store/useFinanceStore.ts:72-81 | turns loading on and asks for the displayed month's window |
| Store.FinanceStore.CompleteFetch | src/store/useFinanceStore.ts:81-88 | success replaces the list, failure keeps it, and loading is off either way |
| Store.FinanceStore.BeginAdd | src/store/useFinanceStore.ts:90-94 | prepends one optimistic record with the temporary id and leaves the rest as it was |
| Store.FinanceStore.CompleteAdd | src/store/useFinanceStore.ts:96-107 | success replaces every record with the temporary id; failure removes them and rethrows |
| Store.FinanceStore.BeginDelete | src/store/useFinanceStore.ts:110-117 | an absent id changes nothing; otherwise every record with the id goes and the first is kept as the snapshot |
| Store.FinanceStore.CompleteDelete | src/store/useFinanceStore.ts:119-128 | success keeps the list; failure re-sorts the snapshot and the current list by date descending and rethrows |
| Store.FinanceStore.BulkAdd | src/store/useFinanceStore.ts:131-140 | success prepends the stored records in order; failure keeps the list and rethrows |
| Store.FinanceStore.Filtered | src/store/useFinanceStore.ts:164-180 | `selectFilteredTransactions` on the store's state; Selectors.FilteredTransactionsCorrect states it |
| Store.FinanceStore.Month | src/store/useFinanceStore.ts:182-190 | `selectMonthTransactions` on the store's state; Ledger.FilterMembers and Selectors.MonthViewKeepsOrder state it |
| TransactionsHook.TransactionsHook.constructor | src/hooks/useTransactions.js:5-6 | starts empty and loading |
| TransactionsHook.TransactionsHook.BeginFetchAll | src/hooks/useTransactions.js:8-11 | turns loading on |
| TransactionsHook.TransactionsHook.CompleteFetchAll | src/hooks/useTransactions.js:8-18 | success replaces the list, failure keeps it, loading is off either way |
| TransactionsHook.TransactionsHook.Add | src/hooks/useTransactions.js:54-58 | only success prepends the stored record; failure leaves the list and propagates |
| TransactionsHook.TransactionsHook.Delete | src/hooks/useTransactions.js:60-63 | only success removes every record with the id |
| TransactionsHook.TransactionsHook.BulkAdd | src/hooks/useTransactions.js:65-69 | only success prepends the stored records, in order |
| TransactionsHook.OptimisticAddAgrees | src/hooks/useTransactions.js:54-58 | the store's optimistic add ends where this add ends, on success and on failure |
| TransactionsHook.TransactionsHook.Filtered | src/hooks/useTransactions.js:24-43 | the `filteredTransactions` memo, the store's selector on the hook's list; Selectors.FilteredTransactionsCorrect states it |
| TransactionsHook.TransactionsHook.Month | src/hooks/useTransactions.js:45-52 | the `monthTransactions` memo; Ledger.FilterMembers and Selectors.MonthViewKeepsOrder state it |
| App.SubmitPayload | src/FinanceApp.jsx:72-83 | nothing is sent exactly when the amount or description is empty; an income entry is filed under `income`, an expense under the chosen category |
| App.SubmittedCategoriesResolve | src/FinanceApp.jsx:80 | a submitted income lands in no jar; the form's initial category lands in necessities |
| App.InitialForm | src/FinanceApp.jsx:41-47 | the form's fields on opening and after each add: empty amount and description, category food, type expense, today; App.SubmittedCategoriesResolve states where food lands |
| App.PersistAll | src/FinanceApp.jsx:109 | the bulk call stores one record per draft, in order |
| App.SweepDrafts | src/FinanceApp.jsx:100-106 | the sweep's four drafts; App.SweepConserves, SweepDescriptionsTagged and SweepNotBaseIncome state their amounts, descriptions and kinds |
| App.SweepConserves | src/FinanceApp.jsx:101-106 | the sweep's incomes add up to its outflow: income and expenses both grow by the leftover and the balance is unchanged |
| App.SweepDescriptionsTagged | src/FinanceApp.jsx:102-105 | every sweep description starts "Buffer Sweep from " + the first three letters of the month name and contains "Buffer Sweep" |
| App.SweepNotBaseIncome | src/FinanceApp.jsx:102-105 | no sweep record counts as base income |
| App.SweepIncomeExcludedFromBase | src/FinanceApp.jsx:103-105 | storing the sweep changes no later previous-month income base |
| App.SweepMarksMonthSwept | src/FinanceApp.jsx:154 | once the offered sweep is stored, the month counts as swept and the button is not offered again |
| App.SweepOffered | src/FinanceApp.jsx:154 | the sweep button's guard; App.SweepMarksMonthSwept and PrevMonthLeftoverAlwaysZero state when it holds |
| App.MonthViewIdempotent | src/FinanceApp.jsx:37 | the month view of a month view is itself |
| App.MonthViewsDisjoint | src/FinanceApp.jsx:37 | the month view holds no record of any other month |
| App.PrevMonthLeftoverAlwaysZero | src/FinanceApp.jsx:61 | as written, the engine's leftover is always 0 and the sweep is never offered |
| App.SalaryMonthShowsNoLeftover | src/FinanceApp.jsx:61 | a January salary of 1000 should leave 60 to sweep in February, but as written it leaves 0 |
| App.CorrectedInputSeesPrevMonth | src/FinanceApp.jsx:61-65 | with the previous month added to the input, the month's figures are unchanged and the leftover is the previous month's own; base income with no buffer spending gives a positive leftover |

## Left out

- The transaction service (Supabase): network I/O. Its answer is the `Outcome` parameter of each `Complete` method, and `PersistAll` stands for the records it stores.
- Concurrency: two actions in flight at once, and two `Date.now()` temporary ids colliding. Actions are modelled one at a time; a `Complete` method acts on the state as it finds it.
- IEEE floating point: sub-cent drift in the 0.5/0.3/0.2 split, `toFixed` and `toLocaleString` formatting. Amounts are exact reals.
- JavaScript `Date` parsing and time zones. `new Date('YYYY-MM-DD')` is read as UTC, `toISOString` shifts the fetch window into UTC, and invalid date strings are possible. Records hold already-parsed dates, and a record's stored date string is taken to be the calendar's key `DateStr` of its date.
- Selectors.SelectedDayShowsThatDay: a record's stored date string is read as the calendar's key `DateStr`, whose year has no leading zeros (src/components/Calendar.jsx:61). The stored string, from `toISOString` or the date input, always has a four-digit year, so the two agree only for the years 1000 to 9999. For a year such as 999 the store's `t.date === selectedDate` test (src/store/useFinanceStore.ts:170) compares "0999-01-05" with "999-01-05" and lists nothing, while the model lists that day's records.
- Calendar.ClickShowsDayOrMonth: for the same reason, a click on a day of a year outside 1000 to 9999 lists no records in the source, while the model lists that day's records.
- Store.MonthWindow: the window's end is at 23:59:59 to the second; the milliseconds are not modelled.
- Locale month names: a fixed English table, whose short name is the first three letters of the long name.
- `parseFloat` of the form's amount: the parsed value is a parameter of `App.SubmitPayload`.
- Clocks: `new Date()` in `goToday`, in the store's initial state and in the form's default date is a `today` parameter.
- CategoryChart.Entries: a percentage of a zero total is `NaN` or an infinity in JavaScript, and here it is the `NotFinite` value.
- Selectors.FilteredTransactionsCorrect: the comparator answers −1 both ways for two records with the same date and id, which is not a consistent comparator. The model's sort keeps their original order, which is one of the orders an engine may produce.
- Sorting.Sort: a stable insertion sort stands for the engine's `sort`. With a consistent comparator every stable sort gives this same result.
- LegacyEngine.LegacyAddExpense: this member requires every mapped jar id to be configured. Otherwise the JavaScript throws a `TypeError`, which is not modelled. The default tables meet the requirement (`Constants.MappingTargetsConfigured`).
- Grouping.AddTo: JavaScript objects list integer-like keys such as "12" before the other keys, whatever their insertion order; the model keeps every key in insertion order. The same holds for Engine.Breakdown and CategoryChart.Entries, which read the grouping's keys. A lookup such as `mapping["toString"]` would find the object prototype's member; the model's maps hold only their own keys.
- Dates.DaysInMonth: `new Date(y, m, d)` reads the years 0 to 99 as 1900 to 1999; the model uses the proleptic Gregorian year as given. The same holds for Calendar.FirstDayOfMonth.
- Presentation and framework plumbing:
  - the `console.error` logging in the store's fetch and bulk add (src/store/useFinanceStore.ts:84, 137) and in the older hook's fetch (src/hooks/useTransactions.js:14);
  - the header, summary cards, transaction list, jar cards and form components;
  - `window.confirm` and `alert`;
  - `useMemo`, `useState` and `useEffect`, including the hook's fetch on mount;
  - zustand's `set`/`get`.
- `setLoading` as returned by the older hook is a plain setter, so it is not modelled separately.

## Findings

| source | as written | input that shows it | evidently intended | confidence | as-written member | corrected member |
|---|---|---|---|---|---|---|
| src/FinanceApp.jsx:61 | The engine is given the displayed month's records only, and the store fetches only that month's window. Its previous-month figures therefore see no records, the leftover is always 0, and the sweep button never appears. | A salary of 1000 on 15 January 2024, with no buffer spending, viewed in February 2024. | A leftover of 6% of 1000, that is 60, and the sweep offered until it is stored. | not executed | App.PrevMonthLeftoverAlwaysZero | App.CorrectedInputSeesPrevMonth |
