# Balance PRO: a verified model of the finance store and the chart aggregations

Balance PRO is a personal income and expense tracker. This project models its
two pieces of logic in Dafny and proves what they promise:

- **The finance store** (`hooks/useFinance.ts`):
  - the list of transactions, with its two mutators: `addTransaction`
    prepends a new transaction, `deleteTransaction` removes an id;
  - the period filter (`week`, `month`, `year`, `all`, relative to "now"),
    followed by a stable newest-first sort by date;
  - the totals of the filtered view: income, expense, and balance = income − expense.
- **The chart aggregations** (`components/ChartsView.tsx`):
  - the monthly cash-flow series: the input sorted oldest first, bucketed by calendar month, last six buckets kept;
  - the top five expense categories by summed amount.

Files:

| file | module | contents |
|---|---|---|
| `calendar.dfy` | `Calendar` | parsed ISO dates, the day number that stands for `getTime()`, the calendar-month key and its monotonicity |
| `sequences.dfy` | `Sequences` | `Array.prototype.filter` and `reduce`-style sums, distinct keys in first-occurrence order, `slice` |
| `stable_sort.dfy` | `StableSort` | `Array.prototype.sort` with a numeric comparator, as a stable insertion sort |
| `types.dfy` | `FinanceTypes` | `Transaction`, the draft of a new one, `Period`, `FinanceState`, the chart data points |
| `use_finance.dfy` | `UseFinance` | the period filter, the totals, and the store as a class |
| `charts_view.dfy` | `ChartsView` | the two aggregations, each as a loop over a dictionary, plus the functions that specify them |

How the source's entities are modelled:

- **Store.** A class `FinanceStore`. The fields `transactions` and `filterPeriod` are the hook's two pieces of state. The mutators are methods that reassign `transactions`.
- **Derived views.** `filteredTransactions` and `stats` are pure pipelines in the source. They are modelled as functions of the store's contents, the period and an explicit `now`.
- **Chart loops.** The two `forEach` loops that fill a dictionary in place are methods with a `for` loop over a `map`. Each method is proved equal to a specification function, and the chart properties are proved about that function.
- **Amounts** are integers in minor currency units.
- **Dates.** A date is the parsed `YYYY-MM-DD` record. It is compared through its day number: days since 1970-01-01 in the proleptic Gregorian calendar, which is `getTime()` counted in whole days.
- **The field `type`** is called `kind`, because `type` is a Dafny keyword.

The chart view gets the period-filtered list the store computes (`App.tsx:239`), not the whole history. The chart functions here take an arbitrary sequence, so either reading is covered.

## Model

| member | source | states |
|---|---|---|
| Calendar.DayNumber | hooks/useFinance.ts:27 | the day number that stands for `new Date(t.date).getTime()` counted in whole days; no contract of its own; specified by Calendar.EpochDays, Calendar.NextDay, Calendar.DayNumberInjective and Calendar.MonthBeforeDayNumber |
| Calendar.MonthKeyOf | components/ChartsView.tsx:25 | the (`getFullYear()`, `getMonth()`) pair of a date; no contract of its own; specified by Calendar.MonthBeforeDayNumber and Calendar.DayNumberMonotone |
| Calendar.MonthBeforeDayNumber | components/ChartsView.tsx:21-25 | a valid date in an earlier calendar month (year, then month) has a strictly smaller day number, so a date-sorted list meets its months in calendar order |
| Calendar.DayNumberMonotone | components/ChartsView.tsx:21-25 | a valid date that is not later than another is not in a later month |
| Calendar.DayNumberInjective | hooks/useFinance.ts:37 | distinct valid dates have distinct day numbers: comparing `getTime()` is comparing the dates |
| Calendar.EpochDays | hooks/useFinance.ts:37 | the day number counts days from 1970-01-01, which is day 0; stated for dates on either side of the epoch and of a leap day |
| Calendar.NextDay | hooks/useFinance.ts:33 | the day after a valid date is valid and has the next day number: within a month, across a month end and across a year end |
| Calendar.PrevDay | hooks/useFinance.ts:33 | the day before a valid date is valid, has the previous day number, and `NextDay` of it gives the date back |
| Calendar.DaysEarlier | hooks/useFinance.ts:32-33 | the date `n` calendar days before a valid date, as `setDate(getDate() - n)` moves to, is valid and has a day number exactly `n` smaller |
| Sequences.Sum | hooks/useFinance.ts:43 | `reduce((acc, curr) => acc + f(curr), 0)`; no contract of its own; specified by Sequences.SumPermutation and the total lemmas below |
| Sequences.Filter | hooks/useFinance.ts:26 | the result is no longer than the input, and every element it holds is in the input and satisfies the predicate |
| Sequences.FilterCount | hooks/useFinance.ts:26 | filtering keeps every element that satisfies the predicate exactly as often as the input holds it, and drops all others |
| Sequences.FilterPermutation | hooks/useFinance.ts:41-46 | filtering two permutations of each other gives permutations of each other |
| Sequences.SumPermutation | hooks/useFinance.ts:43 | a `reduce` sum does not depend on the order of the elements |
| Sequences.DistinctKeys | components/ChartsView.tsx:28-30 | the dictionary's key order: each key that occurs in the input, once, and only keys that occur; the first-occurrence order is stated by Sequences.DistinctKeysFirstOccurrence |
| Sequences.DistinctKeysFirstOccurrence | components/ChartsView.tsx:28-30 | of two keys in the list, the earlier one first occurs in the input at a position before the later one has occurred at all: keys are listed in the order a dictionary first receives them |
| Sequences.LastN | components/ChartsView.tsx:36 | `slice(-n)` for a positive `n` (the source uses 6): the last `n` elements, or all when there are fewer; its contract repeats the slice, and ChartsView.MonthlySeriesLastSix states the property |
| Sequences.Take | components/ChartsView.tsx:51 | `slice(0, n)`: the first `n` elements, or all when there are fewer; its contract repeats the slice, and ChartsView.TopCategoriesShape states the property |
| StableSort.SortDesc | hooks/useFinance.ts:37 | `sort` with the comparator `key(b) - key(a)`; no contract of its own; specified by StableSort.SortDescPermutation, SortDescSorted and SortDescStable |
| StableSort.SortDescPermutation | hooks/useFinance.ts:37 | sorting returns a permutation of its input |
| StableSort.SortDescSorted | hooks/useFinance.ts:37 | the sorted result has non-increasing keys |
| StableSort.SortDescStable | hooks/useFinance.ts:37 | elements with equal keys keep their input order |
| StableSort.SortDescIdempotent | hooks/useFinance.ts:37 | sorting a sorted result changes nothing |
| StableSort.SortDescDistinctBy | components/ChartsView.tsx:50 | sorting keeps a field distinct if it was distinct in the input |
| FinanceTypes.WithId | hooks/useFinance.ts:58-61 | the new transaction carries the given id and all of the draft's fields unchanged |
| UseFinance.InPeriod | hooks/useFinance.ts:26-36 | the period predicate; no contract of its own; specified by UseFinance.PeriodRules, UseFinance.WeekBound, UseFinance.FilterTransactionsAll and UseFinance.MonthIsCalendarMonth |
| UseFinance.FilterTransactions | hooks/useFinance.ts:24-38 | `filteredTransactions`; no contract of its own; specified by UseFinance.FilterTransactionsExact, FilterTransactionsMembers, FilterTransactionsSorted and FilterTransactionsStable |
| UseFinance.FilterTransactionsExact | hooks/useFinance.ts:26-37 | the view holds each transaction of the period exactly as many times as the store does, and no other transaction |
| UseFinance.FilterTransactionsMembers | hooks/useFinance.ts:26-37 | a transaction is in the view if and only if it is in the store and its date is in the period; the view is no longer than the store |
| UseFinance.PeriodRules | hooks/useFinance.ts:29-35 | 'year' keeps exactly now's calendar year; 'month' keeps exactly now's calendar month of now's year; 'week' keeps exactly the dates from seven days before now on, future dates included |
| UseFinance.WeekBound | hooks/useFinance.ts:31-35 | 'week' keeps a date exactly when it is not before the calendar date seven days before now; that date is kept and the one eight days before is not |
| UseFinance.MonthIsCalendarMonth | hooks/useFinance.ts:30-35 | 'month' is a calendar month, not a rolling window: on 2024-03-01 the previous day is outside 'month' but inside 'week' and 'year' |
| UseFinance.FilterTransactionsAll | hooks/useFinance.ts:28-36 | 'all', and any period value that is not one of the four, keeps every stored transaction (only sorted) |
| UseFinance.FilterTransactionsSorted | hooks/useFinance.ts:37 | the view is newest first: dates never increase along it |
| UseFinance.FilterTransactionsStable | hooks/useFinance.ts:37 | transactions with the same date appear in the view in store order |
| UseFinance.FilterTransactionsIdempotent | hooks/useFinance.ts:37 | sorting the view again leaves it as it is |
| UseFinance.ComputeStats | hooks/useFinance.ts:40-54 | `stats`; no contract of its own; specified by UseFinance.StatsBalance, UseFinance.StatsOfStore and UseFinance.StatsAfterAdd |
| UseFinance.Total | hooks/useFinance.ts:41-46 | `filter(t => t.type === kind).reduce((acc, curr) => acc + curr.amount, 0)`; no contract of its own; specified by UseFinance.TotalCons, UseFinance.TotalPermutation, UseFinance.StatsBalance and UseFinance.StatsOfStore |
| UseFinance.TotalCons | hooks/useFinance.ts:41-46 | prepending a transaction adds its amount to the total of its own kind and nothing to the other |
| UseFinance.StatsBalance | hooks/useFinance.ts:40-54 | balance = totalIncome − totalExpense, and it equals the net signed sum of the view (incomes up, expenses down); an empty view gives 0, 0, 0 |
| UseFinance.TotalPermutation | hooks/useFinance.ts:41-46 | the totals do not depend on the order of the view |
| UseFinance.StatsOfStore | hooks/useFinance.ts:24-54 | the totals shown for a period are the sums, over the whole store, of the amounts of that kind whose date is in the period |
| UseFinance.StatsAfterAdd | hooks/useFinance.ts:41-62 | adding a transaction changes the totals of its own kind by its amount if its date is in the period, and otherwise changes nothing |
| UseFinance.WithoutId | hooks/useFinance.ts:66 | `prev.filter(t => t.id !== id)`; no contract of its own; specified by UseFinance.DeleteSpec, DeleteAbsent, DeletePresent and WithoutIdUnique |
| UseFinance.DeleteSpec | hooks/useFinance.ts:66 | after deletion no transaction has the id; every transaction with another id is kept with its multiplicity, in the original order |
| UseFinance.DeleteAbsent | hooks/useFinance.ts:66 | deleting an id that is not stored leaves the list unchanged |
| UseFinance.DeletePresent | hooks/useFinance.ts:66 | with unique ids, deleting a stored id removes exactly one transaction |
| UseFinance.WithoutIdUnique | hooks/useFinance.ts:66 | deletion keeps ids unique |
| UseFinance.PrependUnique | hooks/useFinance.ts:62 | prepending a transaction with a fresh id keeps ids unique |
| UseFinance.FinanceStore.constructor | hooks/useFinance.ts:7-16 | the store starts with the restored list and the period 'month' |
| UseFinance.FinanceStore.SetFilterPeriod | hooks/useFinance.ts:16 | sets the period and leaves the transactions alone |
| UseFinance.FinanceStore.AddTransaction | hooks/useFinance.ts:57-63 | the new list is the new transaction (the draft's fields plus the id) followed by the old list unchanged; one longer; the period is unchanged; unique ids stay unique |
| UseFinance.FinanceStore.DeleteTransaction | hooks/useFinance.ts:65-67 | the new list is the old one without the id's transactions, in order; the id is gone; an absent id changes nothing; unique ids stay unique; the period is unchanged |
| ChartsView.SortByDateAsc | components/ChartsView.tsx:21 | the oldest-first stable sort of a copy; no contract of its own; specified by ChartsView.SortByDateAscElements and, through StableSort.SortDescSorted, by ChartsView.MonthlySeriesChronological |
| ChartsView.AddTo | components/ChartsView.tsx:32-33 | adds the amount to the bucket's income for an income and to its expense otherwise; no contract of its own; specified by ChartsView.BucketStep |
| ChartsView.MonthlySeries | components/ChartsView.tsx:18-37 | `monthlyData`; no contract of its own; specified by ChartsView.MonthlySeriesLastSix, AllMonthBucketsSpec and MonthlySeriesChronological, and computed by ChartsView.MonthlyData |
| ChartsView.Buckets | components/ChartsView.tsx:23-36 | one bucket per month key, in the key order of Sequences.DistinctKeys (first occurrence, by Sequences.DistinctKeysFirstOccurrence), each with that month's sums |
| ChartsView.KeyOf | components/ChartsView.tsx:24-25 | the month key `${getMonth()}-${getFullYear()}` of a transaction's date; no contract of its own; specified by ChartsView.AllMonthBucketsKeys and ChartsView.NewMonthIsLater |
| ChartsView.BucketFor | components/ChartsView.tsx:28-33 | the finished `data[key]`: the month's income and expense sums; no contract of its own; specified by ChartsView.BucketStep, NoKeyNoSum, BucketForPermutation and AllMonthBucketsSums |
| ChartsView.MonthlyStepPreserves | components/ChartsView.tsx:23-34 | one `forEach` step (a missing bucket created empty, then the amount added) keeps the dictionary equal to the buckets of the transactions seen so far, and the key order equal to their months in first-occurrence order |
| ChartsView.MonthlyValuesStep | components/ChartsView.tsx:28-33 | after one step every bucket still holds its month's income and expense sums over the transactions seen so far |
| ChartsView.BucketByMonth | components/ChartsView.tsx:23-34 | the loop leaves one bucket per month of its input, keyed in first-occurrence order, each holding that month's sums |
| ChartsView.BucketsOfLoop | components/ChartsView.tsx:36 | `Object.values` of the finished dictionary, in key order, is the bucket sequence of the input |
| ChartsView.MonthlyData | components/ChartsView.tsx:18-37 | the loop's result is the specified series: the last six buckets of the oldest-first input |
| ChartsView.BucketStep | components/ChartsView.tsx:32-33 | a transaction adds its amount to its own month's income if it is an income, to its expense otherwise, and changes no other month |
| ChartsView.NoKeyNoSum | components/ChartsView.tsx:28-30 | a month with no transaction has the empty bucket the loop starts from |
| ChartsView.BucketForPermutation | components/ChartsView.tsx:21 | a month's bucket does not depend on the order of the input |
| ChartsView.SortByDateAscElements | components/ChartsView.tsx:21 | the sorted copy holds exactly the input's transactions |
| ChartsView.AllMonthBucketsKeys | components/ChartsView.tsx:25-30 | there are as many buckets as distinct months in the input, and their keys are exactly those months |
| ChartsView.AllMonthBucketsSums | components/ChartsView.tsx:32-33 | a bucket's income is the sum of the income amounts of its month, and its expense is the sum over every other transaction of its month |
| ChartsView.AllMonthBucketsOnePerMonth | components/ChartsView.tsx:25-30 | no two buckets share a month, and every month of the input has a bucket |
| ChartsView.AllMonthBucketsSpec | components/ChartsView.tsx:21-34 | exactly one bucket per month of the input, with that month's income and expense sums |
| ChartsView.MonthlySeriesLastSix | components/ChartsView.tsx:36 | at most six buckets: all of them when there are fewer than six months, otherwise exactly six, and they are the final ones |
| ChartsView.NewMonthIsLater | components/ChartsView.tsx:21-30 | in date order, a month first met at a later valid date is after every month met before |
| ChartsView.DistinctKeysChronological | components/ChartsView.tsx:21-30 | the months of an oldest-first list of valid dates come out in strictly increasing calendar order |
| ChartsView.LastSixChronological | components/ChartsView.tsx:36 | keeping the last six of a chronological series keeps it chronological, and every bucket dropped is older than every bucket kept |
| ChartsView.MonthlySeriesChronological | components/ChartsView.tsx:21-36 | with valid dates the buckets are in strictly increasing calendar order, and every month of the input that is not shown is older than every month shown |
| ChartsView.CategoryTotals | components/ChartsView.tsx:48-49 | one entry per expense category, in the key order of Sequences.DistinctKeys (first occurrence, by ChartsView.CategoryTotalsFirstOccurrence), each with the summed amount of the expenses in that category |
| ChartsView.CategoryTotalsFirstOccurrence | components/ChartsView.tsx:41-49 | the entries list the expense categories in the order in which each category first occurs among the expenses |
| ChartsView.Expenses | components/ChartsView.tsx:41-42 | `filter(t => t.type === 'expense')`; no contract of its own; specified by ChartsView.CategoryTotalOfExpenses and ChartsView.TopCategoriesIgnoreIncome |
| ChartsView.CategoryTotal | components/ChartsView.tsx:44-45 | the finished `data[t.category]`: the summed amount of a category; no contract of its own; specified by ChartsView.CategoryTotalStep, CategoryTotalFresh and CategoryTotalsValues |
| ChartsView.CategoryRanking | components/ChartsView.tsx:50 | the entries sorted by value, largest first, stable; no contract of its own; specified by ChartsView.CategoryRankingElements and CategoryRankingStable |
| ChartsView.TopCategories | components/ChartsView.tsx:39-52 | `categoryData`; no contract of its own; specified by ChartsView.TopCategoriesShape, TopCategoriesValues, TopCategoriesLeftOut and TopCategoriesBounded, and computed by ChartsView.CategoryData |
| ChartsView.CategoryStepPreserves | components/ChartsView.tsx:43-46 | one `forEach` step, including the reset of a falsy entry to 0, keeps the dictionary equal to the per-category sums seen so far and the key order equal to first occurrence |
| ChartsView.CategoryValuesStep | components/ChartsView.tsx:44-45 | after one step every entry still holds its category's summed amount over the expenses seen so far |
| ChartsView.CategoryTotalStep | components/ChartsView.tsx:45 | an expense adds its amount to its own category's total and to no other |
| ChartsView.CategoryTotalFresh | components/ChartsView.tsx:44 | a category not yet seen has total 0, the value a new entry starts from |
| ChartsView.SumByCategory | components/ChartsView.tsx:43-46 | the loop leaves one entry per category of its input, keyed in first-occurrence order, each holding that category's summed amount |
| ChartsView.CategoryEntriesOfLoop | components/ChartsView.tsx:48-49 | mapping the finished dictionary's keys to `{name, value}` gives the category totals of the expenses |
| ChartsView.CategoryData | components/ChartsView.tsx:39-52 | the loop's result is the specified top five: the per-category totals of the expenses, ranked by value, first five |
| ChartsView.CategoryTotalOfExpenses | components/ChartsView.tsx:41-45 | a category's total over the filtered expenses is the sum over the input of the expenses in that category |
| ChartsView.CategoryNames | components/ChartsView.tsx:41-48 | the dictionary's keys are exactly the categories of the input's expenses |
| ChartsView.CategoryTotalsNames | components/ChartsView.tsx:41-49 | the entries' names are distinct and there is exactly one entry per expense category |
| ChartsView.CategoryTotalsValues | components/ChartsView.tsx:41-45 | each entry's value is the summed amount of the input's expenses in exactly that category |
| ChartsView.CategoryTotalsSpec | components/ChartsView.tsx:41-49 | entry names are distinct; there is one per expense category; each value is the sum of the expense amounts of that category exactly |
| ChartsView.CategoryRankingElements | components/ChartsView.tsx:50 | ranking reorders the entries and neither adds nor drops one |
| ChartsView.TopCategoriesShape | components/ChartsView.tsx:48-51 | at most five entries (all categories when fewer than five), with distinct names and non-increasing values |
| ChartsView.TopCategoriesValues | components/ChartsView.tsx:41-45 | each entry names a category of some expense, and its value is the sum of the amounts of the expenses in exactly that category; incomes never count |
| ChartsView.TopCategoriesLeftOut | components/ChartsView.tsx:50-51 | if an expense category is left out, five are shown, and its total is no greater than any value shown |
| ChartsView.RankingLeftOut | components/ChartsView.tsx:50-51 | in a ranking sorted by value, an entry beyond the first five is not above any of them, and then five are kept |
| ChartsView.SumOfEntries | components/ChartsView.tsx:48-49 | entries carrying the totals of a list of categories add up to the sum of those totals |
| ChartsView.SumOfTotalsStep | components/ChartsView.tsx:43-45 | over distinct categories, one more expense raises the sum of their totals by its amount once, if its category is among them |
| ChartsView.SumOfTotalsSnoc | components/ChartsView.tsx:44 | a new category appended to the list adds its own total to the sum |
| ChartsView.SumOfTotalsPartition | components/ChartsView.tsx:43-46 | the totals of the categories that occur add up to the sum of all amounts: every expense is counted in exactly one category |
| ChartsView.CategoryTotalsSum | components/ChartsView.tsx:41-50 | the values of all category entries, before and after ranking, add up to the total of the expenses |
| ChartsView.PrefixSumBound | components/ChartsView.tsx:51 | with non-negative values, the first entries add up to no more than all of them |
| ChartsView.TopCategoriesBounded | components/ChartsView.tsx:41-51 | with non-negative amounts, every value shown lies between 0 and the sum of all expenses, and the values shown add up to at most that sum |
| ChartsView.CategoryRankingStable | components/ChartsView.tsx:50 | categories with equal totals keep their order in the entry list, which is first-occurrence order by ChartsView.CategoryTotalsFirstOccurrence |
| ChartsView.TopCategoriesIgnoreIncome | components/ChartsView.tsx:41-42 | inserting an income anywhere in the input leaves the category data unchanged |
| ChartsView.ChartsOfEmpty | components/ChartsView.tsx:19-51 | an empty input gives an empty monthly series and empty category data |

## Left out

- Persistence: the `localStorage` read with its JSON parse and its fallback to an empty list (hooks/useFinance.ts:7-14), and the write after every change (hooks/useFinance.ts:19-21). These are I/O. The store's constructor takes the restored list as a parameter.
- `crypto.randomUUID()` (hooks/useFinance.ts:60) is a foreign source of randomness. The id is a parameter of `FinanceStore.AddTransaction`, which requires it not to be stored already. That stands in for a random UUID's uniqueness.
- React machinery: `useState`, `useMemo`, `useCallback`, `useEffect`, `React.memo`. The memoised views are plain functions of the store's fields, the period and `now`.
- The clock: `new Date()` is the explicit parameter `now`, a calendar date.
- UseFinance.PeriodRules: the week rule is stated as "day number at least the day number of the calendar date seven days before now" (see UseFinance.WeekBound). The source compares instants instead. A date string parses to 00:00 UTC, and `oneWeekAgo` is now minus seven days, keeping the current time of day (hooks/useFinance.ts:32-34). Two effects follow, and the model captures neither:
  - In UTC, the date exactly seven days back is dropped at every moment except midnight. The model keeps it.
  - West of UTC, the local calendar date of `oneWeekAgo` can lag the UTC date by one day. For example, in Lima at 20:00 on 2024-01-20, `oneWeekAgo` is 2024-01-14 01:00 UTC, so "2024-01-14", six local days back, is dropped. The model keeps it.
- Time zones in general: `getMonth()` and `getFullYear()` read local time, while an ISO date string parses as UTC. The model reads the month and the year straight from the date.
- Date parsing: a date is its parsed `YYYY-MM-DD` fields, so an unparsable string (an invalid `Date`, whose `getTime()` is NaN) is not modelled. A month outside 1..12 still gets a definite day number; the chronology lemmas require valid dates.
- Floating-point amounts: amounts are integers in minor units, so rounding and NaN are not modelled.
- The locale month label `toLocaleDateString('es-PE', …)` (components/ChartsView.tsx:26). A bucket carries its calendar month instead of the label.
- Object key order: `Object.keys` and `Object.values` list integer-like keys first, in numeric order. The model assumes insertion order. That is exact for the month keys, which contain a `-`, but not for a category named like an integer (components/ChartsView.tsx:48).
- Inherited object keys: a category called `constructor` or `__proto__` hits a property of the plain object `data` rather than a fresh entry (components/ChartsView.tsx:44-45). The model treats every category string as an ordinary key.
- In-place sorting of the copy `[...transactions]` (components/ChartsView.tsx:21) and of the filtered array (hooks/useFinance.ts:37). Both are modelled as a pure stable sort that returns a new sequence. The copy means no caller-visible array is changed, so no aliasing is lost.
- Presentation: `App.tsx` layout and tab state, the transaction form in `components/TransactionModal.tsx`, `components/StatCard.tsx`, `components/TransactionItem.tsx`, the catalog in `constants.ts`, and all number formatting.
