# Student expense tracker: the record store and the derived figures

The system is a web application in which a student records expenses,
incomes, budgets and savings goals. The server keeps every record in an
in-memory store with five tables. Each table is keyed by id, and each has
its own counter that hands out ids. The client pages and dashboard cards
fetch one user's lists and compute figures from them: totals per category,
per day and per month, budget progress and what remains, a merged feed of
recent transactions, the five largest categories, the savings-goal
percentage, a semester summary, and the end date a new budget gets.

This Dafny project models the following:

- The store (`Storage.MemStorage`) is a class. Its five tables are
  `map<int, Record>` fields and it has five counter fields. Its create,
  update and delete methods are proved against the old state, and it keeps
  the invariant `Valid`: each record sits under its own id, and each id is
  positive and below its table's counter. The getters are functions that
  filter the table listed in key order.
- The record shapes, the insert payloads and the update patches are
  datatypes (`Schema`).
- Each page or card computation is a function, and lemmas prove what the
  page promises about it. Where the source builds a value with a loop
  (`forEach` into a record, `for` loops that push or add, the form effect),
  that loop is also a method whose contract ties its result to the
  function.

Shared modelling choices:

- Instants are integer milliseconds (`Calendar.Instant`) and amounts are
  `real`.
- The date-fns and `Date` helpers are function fields of a
  `Calendar.Calendar` value, and `now` is a parameter. These helpers are
  `startOfMonth`, `endOfMonth`, `startOfYear`, `endOfYear`, `addMonths`,
  `addDays`, `getMonth`, `getDate`, `getFullYear`, the parse of a
  `yyyy-MM-dd` text and the format to it.
- A `'MMM dd'` label is a (month, day) pair.
- A JavaScript record built by the `if (!rec[k]) rec[k] = 0; rec[k] += x`
  idiom is an association list in insertion order (`Tally`).
- `Array.prototype.sort` with a `b - a` comparator is a stable insertion
  sort (`Seqs.SortDesc`). An ascending sort uses the negated key.
- A list that is not loaded yet (`undefined`) is `Option.None`.

## Model

| member | source | states |
|---|---|---|
| Storage.MemStorage.constructor | server/storage.ts:66-77 | All five tables start empty, every counter starts at 1, and the store invariant holds. |
| Storage.MemStorage.GetUser | server/storage.ts:85-87 | A user is returned exactly when the id is a key, and it is the user stored under that id. |
| Storage.MemStorage.GetUserByUsername | server/storage.ts:89-93 | A user is found exactly when some stored user has that username. The one found is stored under its own id, has that username, and has the least id of all such users, because the map iterates in insertion order. |
| Storage.MemStorage.CreateUser | server/storage.ts:95-101 | The new id is the old counter and was not a key. The user is the payload plus that id and `createdAt`, and it is stored under the id. The counter goes up by one. The other four tables and their counters are unchanged, and the invariant is kept. |
| Storage.MemStorage.GetExpenses | server/storage.ts:104-108 | Every returned expense is stored under its own id and belongs to the user. Every stored expense of the user is returned. The list is in ascending id order. |
| Storage.MemStorage.GetExpensesByCategory | server/storage.ts:110-114 | As for `GetExpenses`, with the category also required to be equal. |
| Storage.MemStorage.GetExpensesByDateRange | server/storage.ts:116-122 | As for `GetExpenses`, with the date also required to lie within `startDate..endDate`, both ends included. |
| Storage.MemStorage.CreateExpense | server/storage.ts:124-130 | The new id is the old counter and was not a key. The record is the payload plus that id and `createdAt`, and it is stored under the id. The counter goes up by one, nothing else changes, and the invariant is kept. |
| Storage.MemStorage.UpdateExpense | server/storage.ts:132-139 | An unknown id gives `undefined` and leaves the table unchanged. A known id gives the stored record merged with the patch, and only that entry is replaced. The counters and the other tables are unchanged. |
| Storage.MemStorage.DeleteExpense | server/storage.ts:141-143 | The result is true exactly when the id was a key. Afterwards the id is gone and the other entries remain. The counter is not rewound and the other tables are unchanged. |
| Storage.MemStorage.GetIncomes | server/storage.ts:146-150 | The user's incomes, each stored under its own id, all of them, in ascending id order. |
| Storage.MemStorage.GetIncomesByDateRange | server/storage.ts:152-158 | As for `GetIncomes`, with the date also required to lie in the closed range. |
| Storage.MemStorage.CreateIncome | server/storage.ts:160-166 | The income is stored under a fresh id equal to the old counter. The counter goes up by one and nothing else changes. |
| Storage.MemStorage.UpdateIncome | server/storage.ts:168-175 | An unknown id gives `undefined` and no change. Otherwise the merged record replaces only that entry. |
| Storage.MemStorage.DeleteIncome | server/storage.ts:177-179 | The result is true exactly when the id was a key. The entry is removed and everything else is unchanged. |
| Storage.MemStorage.GetBudgets | server/storage.ts:182-186 | The user's budgets, each stored under its own id, all of them, in ascending id order. |
| Storage.MemStorage.GetBudgetsByPeriod | server/storage.ts:188-192 | As for `GetBudgets`, with the period text also required to be equal. |
| Storage.MemStorage.CreateBudget | server/storage.ts:194-200 | The budget is stored under a fresh id equal to the old counter. The counter goes up by one and nothing else changes. |
| Storage.MemStorage.UpdateBudget | server/storage.ts:202-209 | An unknown id gives `undefined` and no change. Otherwise the merged record replaces only that entry. |
| Storage.MemStorage.DeleteBudget | server/storage.ts:211-213 | The result is true exactly when the id was a key. The entry is removed and everything else is unchanged. |
| Storage.MemStorage.GetSavingsGoals | server/storage.ts:216-220 | The user's goals, each stored under its own id, all of them, in ascending id order. |
| Storage.MemStorage.CreateSavingsGoal | server/storage.ts:222-228 | The goal is stored under a fresh id equal to the old counter, with an omitted `currentAmount` set to 0 (the corrected behaviour, see Findings). The counter goes up by one and nothing else changes. |
| Storage.MemStorage.UpdateSavingsGoal | server/storage.ts:230-237 | An unknown id gives `undefined` and no change. Otherwise the merged record replaces only that entry. |
| Storage.MemStorage.DeleteSavingsGoal | server/storage.ts:239-241 | The result is true exactly when the id was a key. The entry is removed and everything else is unchanged. |
| Storage.IdsAreNotReused | server/storage.ts:124-143 | In a fresh store, two creates get ids 1 and 2. After the second is deleted, deleting or updating it again finds nothing, and the next create gets id 3, not 2. |
| Storage.DuplicateUsernames | server/storage.ts:89-101 | Two users with the same username are both created (ids 1 and 2), and lookup by name returns the first. |
| Storage.ListingFacts | server/storage.ts:105 | Listing a keyed table in key order gives each record under its own key, in strictly increasing id order, and misses none. |
| Storage.SelectFacts | server/storage.ts:105-107 | A filtered listing holds exactly the stored records that satisfy the filter, in ascending id order. |
| Storage.FindFacts | server/storage.ts:90-92 | `find` over the listing succeeds exactly when some stored record satisfies the predicate, and it returns the one with the least id. |
| Schema.NewUser | shared/schema.ts:56-59 | The stored user has the given id and `createdAt`, and every other field equals the payload, so the payload is exactly the user without `id` and `createdAt`. |
| Schema.NewExpense | shared/schema.ts:61-64 | The same for an expense. `description` stays optional and `userId` is a required field. |
| Schema.NewIncome | shared/schema.ts:66-69 | The same for an income. |
| Schema.NewBudget | shared/schema.ts:71-74 | The same for a budget. `period` is kept as free text. |
| Schema.NewSavingsGoal | shared/schema.ts:50 | The same for a goal, and `currentAmount` is the payload's value or the column default 0 when omitted. |
| Schema.StoredGoalAsWritten | server/storage.ts:225 | The object the store builds by spreading the payload has `currentAmount` exactly when the payload has it. |
| Schema.GoalWithoutCurrentAmount | server/storage.ts:222-228 | For a payload without `currentAmount`, the stored object as written has none, while the column default gives 0. |
| Schema.MergeExpense | server/storage.ts:136 | The merge never changes `id` or `createdAt`, and an empty patch changes nothing. |
| Schema.MergeIncome | server/storage.ts:172 | The same for an income. |
| Schema.MergeBudget | server/storage.ts:206 | The same for a budget. |
| Schema.MergeSavingsGoal | server/storage.ts:234 | The same for a goal. |
| Schema.ExpenseMergeLaws | server/storage.ts:136-137 | Two updates in a row equal one update with the two patches spread together, in which the later keys win. Repeating an update changes nothing more. |
| Schema.CurrentAmountOnlyPatch | server/storage.ts:234 | A patch that holds only `currentAmount` changes that field and no other. |
| Categories.GetCategoryById | client/src/lib/expense-categories.ts:77-79 | `getCategoryById`: the table entry with that id, or the last entry ("other") when there is none. The contract is stated by `Categories.GetCategoryByIdFacts` and `Categories.UnknownIsOther` (its ensures are kept off the function so the eleven-entry table stays out of every caller's proof). |
| Categories.GetCategoryByIdFacts | client/src/lib/expense-categories.ts:77-79 | The result is always an entry of the table. It is the entry with that id when one exists, and the last entry otherwise. |
| Categories.CategoryIdsDistinct | client/src/lib/expense-categories.ts:8-75 | No two entries of the table share an id. |
| Categories.OtherIsLast | client/src/lib/expense-categories.ts:69-75 | Looking up "other" gives the last entry of the table. |
| Categories.UnknownIsOther | client/src/lib/expense-categories.ts:78 | Any unknown id gives the same entry as "other", which is named "Other". |
| Calendar.LabelOrder | client/src/pages/reports-page.tsx:142-146 | A day label parses to a position between 1 and 383 that orders labels by month, then by day. |
| Calendar.LabelOrderInjective | client/src/pages/reports-page.tsx:143-145 | Two labels that parse to the same position are equal. |
| Tally.TallyOf | client/src/pages/reports-page.tsx:99-105 | The record a `forEach` accumulation leaves: a left fold of `Tally.Add` over the items. `Tally.Accumulate` proves the loop computes it. `Tally.TallyKeysDistinct`, `Tally.TallyKeysPresent`, `Tally.TallyTotals` and `Tally.TallyGrand` state its keys, its values and its grand total. |
| Tally.Add | client/src/pages/reports-page.tsx:100-105 | One accumulation step. A present key keeps its place and a new key is appended. Only that key's total grows, by the amount, and the grand total grows by the amount. |
| Tally.Accumulate | client/src/pages/reports-page.tsx:99-105 | The `forEach` loop leaves behind the record that the fold `TallyOf` describes. |
| Tally.TallyKeysDistinct | client/src/pages/reports-page.tsx:99-105 | The record's keys are pairwise distinct. |
| Tally.TallyKeysPresent | client/src/pages/reports-page.tsx:99-105 | Every item's key is in the record, and every key of the record comes from some item. |
| Tally.TallyTotals | client/src/pages/reports-page.tsx:99-105 | Each key's total is the sum of the amounts of the items under that key, and an absent key reads 0. |
| Tally.TallyGrand | client/src/pages/reports-page.tsx:99-105 | The totals add up to the sum of all amounts. |
| Grouping.ExpensesIn | client/src/pages/reports-page.tsx:76-82 | A list that is not loaded gives nothing. Otherwise a loaded expense is kept exactly when its date lies in the closed window, and every kept one comes from the input. |
| Grouping.IncomesIn | client/src/pages/reports-page.tsx:84-90 | The same for incomes. |
| Grouping.ExpensesInAppend | client/src/pages/reports-page.tsx:76-82 | One more expense joins the filtered list, at its end, exactly when its date lies in the window. |
| Grouping.CategoryTotals | client/src/pages/reports-page.tsx:99-105 | `expensesByCategory`: the category record of the filtered expenses. `Grouping.CategoryTotalsFacts` states its contract: distinct keys, exactly the categories present, each the sum of its expenses, adding up to the filtered total. |
| Grouping.ExpensesByDate | client/src/pages/reports-page.tsx:117-123 | `expensesByDate`: the record of the filtered expenses keyed by their `'MMM dd'` day. Its keys and values are stated by `ReportsPage.AllDatesExact`, `ReportsPage.LineSeriesValues` and `SpendingAnalytics.DayPointsSums`, through the `Tally` lemmas. |
| Grouping.IncomesByDate | client/src/pages/reports-page.tsx:125-131 | `incomesByDate`: the same record for the filtered incomes. Its keys and values are stated by `ReportsPage.AllDatesExact` and `ReportsPage.LineSeriesValues`. |
| Grouping.CategoryTotalsFacts | client/src/pages/reports-page.tsx:99-105 | There is one key per category present and no other key, each key holds the sum of its category's expenses, and the values add up to `totalExpenses`. |
| Meter.Min | client/src/pages/budgets-page.tsx:71 | `Math.min`: the result is at most both arguments and equals one of them. |
| Meter.Percent | client/src/pages/budgets-page.tsx:71 | `Math.min(100, spent / total * 100)`: the result is at most 100 and at most the ratio, and it equals one of them, for a total of either sign. |
| Meter.PercentInRange | client/src/pages/budgets-page.tsx:71 | Against a positive total with nothing negative spent, the percentage lies in [0, 100]. |
| Meter.PercentFull | client/src/pages/budgets-page.tsx:71 | Against a positive total, the percentage is 100 exactly when spent is at least the total. |
| Meter.Note | client/src/pages/budgets-page.tsx:231-232 | The note's number is the absolute value of `total - spent`. The wording is "remaining" exactly when spent is below total, and "overbudget" otherwise, so spending the exact total reads "overbudget". |
| BudgetsPage.BudgetSpent | client/src/pages/budgets-page.tsx:75-89 | While the expenses are not loaded, the budget's spent amount is 0. |
| BudgetsPage.BudgetProgress | client/src/pages/budgets-page.tsx:53-72 | Progress is 0 while the expenses are not loaded. Otherwise it is `min(100, getBudgetSpent / amount * 100)`: at most 100, at most that ratio, and equal to one of them. So both helpers select the same expenses. |
| BudgetsPage.SpentStep | client/src/pages/budgets-page.tsx:78-88 | One more expense raises the spent amount by its amount exactly when its category matches and its date lies in the closed period, boundary days included. |
| BudgetsPage.SpentIgnoresUncharged | client/src/pages/budgets-page.tsx:57-65 | Expenses of another category, or dated outside the period, never change the spent amount. |
| BudgetsPage.ProgressInRange | client/src/pages/budgets-page.tsx:71 | With a positive amount and no negative expenses, progress lies in [0, 100]. |
| BudgetsPage.ProgressFull | client/src/pages/budgets-page.tsx:71 | With a positive amount, progress is 100 exactly when spent is at least the amount. |
| BudgetsPage.CurrentBudgets | client/src/pages/budgets-page.tsx:92-97 | `currentBudgets`: the loaded budgets whose closed period contains now. `BudgetsPage.BudgetSplit` states it: a budget is current exactly when `startDate <= now <= endDate`. |
| BudgetsPage.PastBudgets | client/src/pages/budgets-page.tsx:261-262 | The past budgets card: budgets ended before now, latest end first. `BudgetsPage.BudgetSplit` states membership (exactly `endDate < now`, never also current), and `BudgetsPage.PastBudgetsOrdered` states the order and that it is a permutation of the ended budgets. |
| BudgetsPage.BudgetSplit | client/src/pages/budgets-page.tsx:92-97 | A budget is current exactly when `start <= now <= end`, and past exactly when `end < now`. No budget is both, and a budget that has not started yet is neither. |
| BudgetsPage.PastBudgetsOrdered | client/src/pages/budgets-page.tsx:261-262 | The past-budget list holds exactly the ended budgets, each once, ordered by end date with the latest first. |
| ReportsPage.DateRange | client/src/pages/reports-page.tsx:52-73 | `dateRanges[timeRange]`: this month, last month, the last three months, or this year, from the date-fns bounds. `ReportsPage.RangeContainsNow` states that each window contains now (last month's contains the instant one month back). |
| ReportsPage.RangeContainsNow | client/src/pages/reports-page.tsx:52-73 | The this-month, three-month and year windows contain `now`. Last month's window contains the instant one month back. |
| ReportsPage.Summarize | client/src/pages/reports-page.tsx:93-96 | The totals are the sums of the filtered amounts, and `netSavings` is income minus expenses. With positive income, the rate times income is `netSavings * 100`. Without positive income, the rate is 0. With positive income the rate is at most 100, and it is at least 0 when expenses do not exceed income. |
| ReportsPage.TopCategories | client/src/pages/reports-page.tsx:149-151 | `topCategories`: the category record sorted by amount, largest first, cut to five. `ReportsPage.TopCategoriesFacts` states its contract: five entries, or all of them when there are fewer categories, in non-increasing order, each an entry of the record, none left out larger than one kept. |
| ReportsPage.TopCategoriesFacts | client/src/pages/reports-page.tsx:149-151 | There are five entries, or as many as there are categories when fewer, all taken from the category totals, with the largest first. A category left out is not larger than any shown. With five or fewer categories all are shown. Equal totals keep their first-occurrence order. |
| ReportsPage.LineSeries | client/src/pages/reports-page.tsx:114-146 | `lineChartData`: one point per day with data, sorted by day. `ReportsPage.BuildLineSeries` proves the page's steps compute it. `ReportsPage.LineSeriesLabels`, `ReportsPage.LineSeriesValues`, `ReportsPage.LineSeriesOrdered` and `ReportsPage.LineSeriesConserves` state its days, its values, its order and its sums. |
| ReportsPage.UnionLabels | client/src/pages/reports-page.tsx:134 | The `Set` of labels, iterated, is the list de-duplicated with first occurrences kept in order. |
| ReportsPage.MakePoints | client/src/pages/reports-page.tsx:135-139 | One point per label, with a side that has no data reading 0. |
| ReportsPage.BuildLineSeries | client/src/pages/reports-page.tsx:114-146 | The two accumulations, the label union, the map and the sort compute `LineSeries`. |
| ReportsPage.SeriesFromPoints | client/src/pages/reports-page.tsx:142-146 | Sorting keeps exactly the points built for the labels. |
| ReportsPage.AllDatesExact | client/src/pages/reports-page.tsx:134 | A label is in `allDates` exactly when some filtered expense or income falls on that day. |
| ReportsPage.LineSeriesLabels | client/src/pages/reports-page.tsx:114-139 | The series has a point for a day exactly when some filtered expense or income falls on it. |
| ReportsPage.LineSeriesValues | client/src/pages/reports-page.tsx:117-139 | Each point carries the sum of that day's expenses and the sum of that day's incomes. |
| ReportsPage.LineSeriesOrdered | client/src/pages/reports-page.tsx:142-146 | The series runs strictly forward in time, so no label appears twice. |
| ReportsPage.LineSeriesConserves | client/src/pages/reports-page.tsx:114-139 | The expense and income sides of the series add up to `totalExpenses` and `totalIncome`. |
| ReportsPage.MonthBuckets | client/src/pages/reports-page.tsx:385-402 | The year view's twelve month bars. `ReportsPage.MonthlyTotals` proves the loop computes them. `ReportsPage.BucketsIndex` states that bar m is the sum of the expenses dated in month m, and `ReportsPage.MonthBucketsConserve` that the bars add up to the filtered total. |
| ReportsPage.BucketsIndex | client/src/pages/reports-page.tsx:394-400 | Bucket `m` holds the sum of the filtered expenses dated in month `m`. |
| ReportsPage.BucketsStep | client/src/pages/reports-page.tsx:394-400 | One more expense adds its amount to the buckets' sum exactly when its month is in range. Every month is in range for all twelve buckets. |
| ReportsPage.ZeroBuckets | client/src/pages/reports-page.tsx:386-392 | Before any expense is added, the twelve buckets add up to 0. |
| ReportsPage.MonthBucketsConserve | client/src/pages/reports-page.tsx:385-402 | The twelve buckets add up to `totalExpenses`, because each filtered expense lands in exactly one month. |
| ReportsPage.MonthlyTotals | client/src/pages/reports-page.tsx:385-402 | The two loops (twelve zeroed buckets, then an add per expense) compute `MonthBuckets`: twelve values, January to December. |
| SpendingAnalytics.RangeWindow | client/src/components/dashboard/spending-analytics.tsx:32-51 | This month's window contains `now`, and last month's window starts no later than `now`. The semester range is the fixed closed window from 2025-08-21 to 2025-12-18. |
| SpendingAnalytics.RangeExpenses | client/src/components/dashboard/spending-analytics.tsx:40-51 | `filteredExpenses`: `Grouping.ExpensesIn` over the window `SpendingAnalytics.RangeWindow` picks. Its contract is `Grouping.ExpensesIn`'s: nothing while not loaded, otherwise exactly the loaded expenses dated in that window. |
| SpendingAnalytics.PieData | client/src/components/dashboard/spending-analytics.tsx:62-66 | One slice per entry of the category record. |
| SpendingAnalytics.PieDataAt | client/src/components/dashboard/spending-analytics.tsx:62-66 | Slice `i` shows entry `i`: its category, its total, and the category table's name for it. |
| SpendingAnalytics.PieDataSum | client/src/components/dashboard/spending-analytics.tsx:69 | The slice values add up to the record's grand total. |
| SpendingAnalytics.BuildPie | client/src/components/dashboard/spending-analytics.tsx:54-69 | The loop and map give `PieData` of the category totals, and `totalExpenses` is the sum of the filtered amounts. |
| SpendingAnalytics.PieFacts | client/src/components/dashboard/spending-analytics.tsx:54-69 | There is one slice per category present and none twice. Each slice holds its category's sum, and the total is the sum of all filtered expenses. |
| SpendingAnalytics.Candidates | client/src/components/dashboard/spending-analytics.tsx:90-91 | The candidate days are the 5th, 10th, 15th, 20th and 25th of the month. |
| SpendingAnalytics.PushPlaceholders | client/src/components/dashboard/spending-analytics.tsx:90-95 | A padding loop appends a zero point for each candidate whose total is missing or 0. |
| SpendingAnalytics.PlaceholderStep | client/src/components/dashboard/spending-analytics.tsx:91-94 | Candidate `i` adds its zero point exactly when the record's total for it is 0. |
| SpendingAnalytics.BuildChartSeries | client/src/components/dashboard/spending-analytics.tsx:71-111 | The accumulation, the padding branch and the sort compute `ChartSeries`. |
| SpendingAnalytics.ChartSeries | client/src/components/dashboard/spending-analytics.tsx:71-111 | `lineChartData`: one point per day with data, padded in the month views with zero points for days 5, 10, 15, 20 and 25 while there are fewer than five. `SpendingAnalytics.BuildChartSeries` proves the component's steps compute it. `SpendingAnalytics.ChartAtLeastFive`, `SpendingAnalytics.ChartContents`, `SpendingAnalytics.ChartOrdered` and `SpendingAnalytics.ChartConserves` state its length, contents, order and sum. |
| SpendingAnalytics.DayPointsKeys | client/src/components/dashboard/spending-analytics.tsx:81-84 | Point `i` is entry `i` of the day record. |
| SpendingAnalytics.DayPointsSums | client/src/components/dashboard/spending-analytics.tsx:72-84 | The unpadded points have distinct days, and each holds that day's summed amount. |
| SpendingAnalytics.DayPointsDays | client/src/components/dashboard/spending-analytics.tsx:72-84 | The unpadded points are exactly the days on which some filtered expense falls. |
| SpendingAnalytics.CandidatesDistinct | client/src/components/dashboard/spending-analytics.tsx:90-91 | The five candidate days are distinct. |
| SpendingAnalytics.PlaceholdersCount | client/src/components/dashboard/spending-analytics.tsx:87-104 | Padding points plus real points number at least five, because each real label blocks at most one candidate. |
| SpendingAnalytics.ChartAtLeastFive | client/src/components/dashboard/spending-analytics.tsx:87-104 | In the this-month and last-month views the chart has at least five points. |
| SpendingAnalytics.ChartContents | client/src/components/dashboard/spending-analytics.tsx:87-111 | Every real point is kept. An extra point appears only when there were fewer than five real points and a month view is selected, and it has amount 0, a candidate day and a total of 0 in the record. With five or more points the series is the unpadded list in first-occurrence order. The semester view adds no points. |
| SpendingAnalytics.ChartOrdered | client/src/components/dashboard/spending-analytics.tsx:105-110 | When there were fewer than five points, the chart runs from the earliest day to the latest. |
| SpendingAnalytics.ChartConserves | client/src/components/dashboard/spending-analytics.tsx:72-104 | The chart's points add up to the sum of the filtered expenses, because padding adds only zeros. |
| RecentTransactions.DescriptionOr | client/src/components/dashboard/recent-transactions.tsx:34 | A missing or empty description gives way to the fallback. Any other description is kept. |
| RecentTransactions.ExpenseTransactions | client/src/components/dashboard/recent-transactions.tsx:29-36 | Each expense, in order, becomes a transaction tagged as an expense. |
| RecentTransactions.IncomeTransactions | client/src/components/dashboard/recent-transactions.tsx:37-44 | Each income, in order, becomes a transaction tagged as an income, with its source as the category. |
| RecentTransactions.Combined | client/src/components/dashboard/recent-transactions.tsx:28-45 | The feed has length `|E| + |I|`: every expense in order, then every income in order. A list that is not loaded contributes nothing. |
| RecentTransactions.Recent | client/src/components/dashboard/recent-transactions.tsx:48-51 | `recentTransactions`: the combined list, newest first (stable), cut to four. `RecentTransactions.RecentFacts` and `RecentTransactions.RecentStable` state its contract. |
| RecentTransactions.RecentFacts | client/src/components/dashboard/recent-transactions.tsx:48-51 | The card shows `min(4, n)` transactions, newest first, each one from the feed. None left out is newer than one shown, and the sorted feed is a permutation of the feed. |
| RecentTransactions.RecentStable | client/src/components/dashboard/recent-transactions.tsx:48 | Transactions of the same instant keep their feed order, so on a tie expenses come before incomes. |
| RecentTransactions.Icon | client/src/components/dashboard/recent-transactions.tsx:54-59 | Every income shows the "work" icon. |
| RecentTransactions.ExpenseIcon | client/src/components/dashboard/recent-transactions.tsx:58 | An expense shows the icon of a table entry: its own category's, or the last entry's for an unknown id. |
| RecentTransactions.FormatRelativeDate | client/src/components/dashboard/recent-transactions.tsx:62-74 | Which of the four forms `formatRelativeDate` shows, from the whole days elapsed. `RecentTransactions.RelativeDateBands` states the form for each band of elapsed milliseconds. |
| RecentTransactions.RelativeDateBands | client/src/components/dashboard/recent-transactions.tsx:62-74 | Measured in elapsed milliseconds: "Today" covers the last 24 hours and "Yesterday" the 24 hours before. The relative form covers the rest of the last week and every future date. The calendar form covers a week or more. |
| SemesterCard.TotalOr | client/src/components/dashboard/semester-expenses-card.tsx:30-32 | `rec[k] || fallback`: a nonzero total is shown, and an absent or zero total shows the fallback. |
| SemesterCard.Figures | client/src/components/dashboard/semester-expenses-card.tsx:15-32 | The three figures the card shows. `SemesterCard.ComputeFigures` proves the component's steps compute it. `SemesterCard.FiguresFacts`, `SemesterCard.FiguresUnloaded` and `SemesterCard.FiguresIgnoreOthers` state what each figure is. |
| SemesterCard.ComputeFigures | client/src/components/dashboard/semester-expenses-card.tsx:15-32 | The filter, the accumulation loop and the three reads compute `Figures`. |
| SemesterCard.FiguresFacts | client/src/components/dashboard/semester-expenses-card.tsx:15-32 | Tuition, books and lab fees are the sums of the "tuition", "books" and "education" expenses dated within the semester (both ends included), or 3800, 350 and 150 when that sum is 0. |
| SemesterCard.FiguresUnloaded | client/src/components/dashboard/semester-expenses-card.tsx:15-32 | Before the expenses load, the card shows 3800, 350 and 150. |
| SemesterCard.FiguresIgnoreOthers | client/src/components/dashboard/semester-expenses-card.tsx:15-27 | An expense outside the semester, or of another category, never moves a figure. |
| BudgetSummary.MonthSpent | client/src/components/dashboard/budget-summary-card.tsx:16-26 | This month's total is 0 while the expenses are not loaded. |
| BudgetSummary.MonthSpentStep | client/src/components/dashboard/budget-summary-card.tsx:16-26 | One more expense adds its amount exactly when its month and full year equal those of `now`. Its category does not matter. |
| BudgetSummary.PercentSpent | client/src/components/dashboard/budget-summary-card.tsx:29 | `min(100, totalExpenses / 2000 * 100)`: at most 100, at most that ratio, and equal to one of them. It is 0 while the expenses are not loaded. |
| BudgetSummary.PercentSpentFull | client/src/components/dashboard/budget-summary-card.tsx:29 | The bar is full exactly when this month's total is at least 2000. |
| BudgetSummary.SummaryNote | client/src/components/dashboard/budget-summary-card.tsx:50-51 | The note says "remaining" exactly when this month's total is below 2000. Before the expenses load it reads 2000 remaining. |
| SavingsGoalCard.DisplayedGoal | client/src/components/dashboard/savings-goal-card.tsx:58-68 | The first goal of a loaded, non-empty list is shown. Otherwise the demo goal is shown (id 0, target 1200, saved 480). |
| SavingsGoalCard.PercentComplete | client/src/components/dashboard/savings-goal-card.tsx:70 | `min(100, currentAmount / targetAmount * 100)`: at most 100, at most that ratio, and equal to one of them. |
| SavingsGoalCard.DemoPercent | client/src/components/dashboard/savings-goal-card.tsx:58-70 | The demo goal is 40% complete. |
| SavingsGoalCard.PercentCompleteFull | client/src/components/dashboard/savings-goal-card.tsx:70 | With a positive target, the bar is full exactly when the goal is reached. |
| SavingsGoalCard.AddToSavings | client/src/components/dashboard/savings-goal-card.tsx:29-37 | `handleAddToSavings` and the mutation it starts, as the outcome of pressing "Add". `SavingsGoalCard.RefusedAmounts`, `SavingsGoalCard.ContributionToFirstGoal`, `SavingsGoalCard.DemoGoalNotFound` and `SavingsGoalCard.ContributionApplied` state each outcome. The handler lines 72-80 are cited on `SavingsGoalCard.RefusedAmounts`. |
| SavingsGoalCard.RefusedAmounts | client/src/components/dashboard/savings-goal-card.tsx:72-80 | A contribution is refused with no request exactly when the text is empty, is not a number, or is not positive. |
| SavingsGoalCard.ContributionToFirstGoal | client/src/components/dashboard/savings-goal-card.tsx:29-37 | A valid amount with loaded goals sends a request to the first goal's id. The request carries only `currentAmount`, set to the old amount plus the contribution. |
| SavingsGoalCard.DemoGoalNotFound | client/src/components/dashboard/savings-goal-card.tsx:31-32 | While only the demo goal is shown, a valid amount fails with "not found" and sends nothing. |
| SavingsGoalCard.ContributionApplied | client/src/components/dashboard/savings-goal-card.tsx:34-37 | Once the store applies the request, the goal's current amount rises by the contribution and nothing else of the goal changes. |
| AddBudgetForm.PeriodTable | client/src/components/budgets/add-budget-form.tsx:31-35 | The durations are monthly 1, semester 4 and yearly 12 months. Any other id is unknown. |
| AddBudgetForm.UpdateEndDate | client/src/components/budgets/add-budget-form.tsx:66-83 | `updateEndDate`'s rule for the end date. `AddBudgetForm.UpdateEndDateFacts` and `AddBudgetForm.UpdateEndDateIdempotent` state its contract: the early returns, the end date for any known period, and that applying it again changes nothing. |
| AddBudgetForm.UpdateEndDateFacts | client/src/components/budgets/add-budget-form.tsx:66-83 | An empty start date or an unknown period leaves the end date as it was. Otherwise the end date is the start plus the period's months, less one day, formatted. The semester branch equals this generic rule, and the result does not depend on the previous end date. |
| AddBudgetForm.UpdateEndDateIdempotent | client/src/components/budgets/add-budget-form.tsx:66-83 | Running the rule a second time changes nothing. |
| AddBudgetForm.BudgetForm.constructor | client/src/components/budgets/add-budget-form.tsx:56-62 | The defaults are amount 0, no category, a monthly period, a start of today and an end of today plus one month. |
| AddBudgetForm.BudgetForm.RunEffect | client/src/components/budgets/add-budget-form.tsx:66-83 | The effect rewrites only the end date, to `updateEndDate` of the current period and start. |
| AddBudgetForm.BudgetForm.SetPeriod | client/src/components/budgets/add-budget-form.tsx:86-92 | A new period is stored and the end date is recomputed from it. The other fields are unchanged. |
| AddBudgetForm.BudgetForm.SetStartDate | client/src/components/budgets/add-budget-form.tsx:86-92 | A new start date is stored and the end date is recomputed from it. The other fields are unchanged. |
| AddBudgetForm.EndDateFollowsInputs | client/src/components/budgets/add-budget-form.tsx:90-92 | After editing the start date and the period, the end date is the one the rule derives from them, whenever both are usable. |
| PendingDelete.PendingDelete.constructor | client/src/pages/expenses-page.tsx:41 | No id is pending at first. |
| PendingDelete.PendingDelete.Choose | client/src/pages/expenses-page.tsx:68-70 | Choosing a row makes its id the pending one. |
| PendingDelete.PendingDelete.Confirm | client/src/pages/expenses-page.tsx:72-76 | A delete request is sent exactly when the pending id is truthy (present and not 0), and it carries that id. |
| PendingDelete.PendingDelete.Succeeded | client/src/pages/expenses-page.tsx:57 | A successful delete clears the pending id. |
| PendingDelete.PendingDelete.Failed | client/src/pages/expenses-page.tsx:59-65 | `onError` only shows a toast: the pending id is left as it was. |
| PendingDelete.PendingDelete.OpenChange | client/src/pages/expenses-page.tsx:178 | Closing the dialog clears the pending id, and opening it changes nothing. |
| PendingDelete.PendingDelete.PressDelete | client/src/pages/expenses-page.tsx:178-191 | The Delete button (`AlertDialogAction`) runs `confirmDeleteExpense` and then closes the dialog. A request goes out exactly when the picked id is non-null and nonzero, and it carries that id. Afterwards nothing is pending, whatever the request's outcome. |
| PendingDelete.ZeroIdIsNeverDeleted | client/src/pages/income-page.tsx:82-86 | Choosing the row with id 0 opens the dialog, but confirming never sends a request. |
| PendingDelete.ConfirmThenSucceed | client/src/pages/income-page.tsx:61-86 | A chosen nonzero id is what confirming sends, and a success then closes the dialog. |
| PendingDelete.PressDeleteThenFail | client/src/pages/income-page.tsx:69-86 | Pressing Delete on a chosen nonzero id sends that id, and a failure afterwards finds the dialog already closed. |
| IncomePage.TotalIncome | client/src/pages/income-page.tsx:89 | The total is 0 while the incomes are not loaded. |
| IncomePage.TotalIncomeAppend | client/src/pages/income-page.tsx:89 | The total of two lists joined is the sum of their totals. |
| IncomePage.SortedIncomes | client/src/pages/income-page.tsx:92-94 | `sortedIncomes`: a copy of the incomes, newest first. `IncomePage.SortedIncomesFacts` states its contract. |
| IncomePage.SortedIncomesFacts | client/src/pages/income-page.tsx:92-94 | The sorted list is a permutation of the loaded one, newest first, with ties in their original order. It adds up to the same total, and it is empty while the incomes are not loaded. |
| IncomePage.GetSourceInfo | client/src/pages/income-page.tsx:97-99 | `getSourceInfo`: the table entry for a known source, else the source text with the "more_horiz" icon. `IncomePage.GetSourceInfoFacts` states its contract. |
| IncomePage.GetSourceInfoFacts | client/src/pages/income-page.tsx:97-99 | A key of the table gives its entry. Any other source shows under its own name with the "more_horiz" icon. |
| IncomePage.IncomeSourceKeysDistinct | client/src/pages/income-page.tsx:37-45 | The table's keys are distinct. |
| ExpensesPage.SortedExpenses | client/src/pages/expenses-page.tsx:79-81 | `sortedExpenses`: a copy of the expenses, newest first. `ExpensesPage.SortedExpensesFacts` states its contract. |
| ExpensesPage.SortedExpensesFacts | client/src/pages/expenses-page.tsx:79-81 | The sorted copy has the same length and is a permutation of the loaded list, newest first, with ties in their original order. It is empty while the expenses are not loaded. |

## Left out

- Meter.Percent: requires a nonzero total. The source divides without a guard, so a zero budget amount gives `Infinity` or `NaN` in JavaScript, and reals have neither.
- BudgetsPage.BudgetProgress: requires a nonzero budget amount once the expenses are loaded, for the same reason.
- SavingsGoalCard.PercentComplete: requires a nonzero target amount, for the same reason.
- Storage.CreateSavingsGoal: states the corrected behaviour (an omitted `currentAmount` is 0), not the spread as written; the as-written object is `Schema.StoredGoalAsWritten` (see Findings).
- IncomePage.TotalIncome: does not model the `|| 0` turning a `NaN` sum into 0, because reals have no `NaN`.
- Floating point: amounts are exact reals, so rounding in sums and percentages, `toFixed` and `parseFloat` are not modelled. `parseFloat` is a parameter of `SavingsGoalCard.AddToSavings`.
- The date-fns internals (month-end clamping in `addMonths`, time zones, `format` text) are functions passed in. Only the laws in `Calendar.Lawful` are assumed of them.
- Parsing a `'MMM dd'` label with `new Date(label)` is taken as ordering by (month, day) within one fixed year. JavaScript engines pick that year themselves, so a label such as "Feb 29" may parse differently there.
- Object keys that look like array indices are iterated first in JavaScript. The records are modelled in insertion order; category ids and month-day labels are never index-like, but a numeric category text would be.
- `getSourceInfo` on a source text that names an `Object.prototype` member, such as "constructor", finds that member in JavaScript. The model treats such a text as unknown.
- The `Map`-based store is modelled as maps listed in key order. This is the insertion order the source gets, because ids only grow.
- Username uniqueness is declared in the schema, but the in-memory store does not enforce it, and neither does the model (`Storage.DuplicateUsernames`).
- A patch key present with the value `undefined` would overwrite a field with `undefined`. Patches are modelled as absent-or-value per field. The routes that build the patches are not part of this model.
- The Express routes, zod validation, the authentication middleware, the session store and the async wrappers, because they are I/O around the store. Store methods are synchronous.
- React Query fetches, mutations, toasts and cache invalidation, because they are network and cache I/O. The loaded lists are parameters (`None` while loading), and the savings-goal request is a result value (`SavingsGoalCard.Contribution`).
- Rendering, charts, colours, the Tailwind colour map, the budgets page's pie chart and the reports page's pie and top-category name and icon mapping, because they are presentation. These are `map`s that attach names from the category table.
- The text of relative dates (the `'h:mm a'` times and `formatDistanceToNow` wording), because it is formatting. Only which of the four forms is chosen is modelled (`RecentTransactions.FormatRelativeDate`).
- The budget form's zod schema and submission, and an invalid start-date text (parsing to an invalid `Date`). The parse is a function passed in.
- BudgetsPage.CurrentBudgets and BudgetsPage.PastBudgets: the page reads the clock three times (client/src/pages/budgets-page.tsx:93, 255 and 261). The model gives both functions one instant `now`, so `BudgetsPage.BudgetSplit` shows the two lists disjoint for a single instant; a budget ending between two of those reads is not covered.
- PendingDelete.PendingDelete.Confirm and PendingDelete.PendingDelete.OpenChange: the dialog's Delete button runs both, one after the other (client/src/pages/expenses-page.tsx:189, client/src/pages/income-page.tsx:223). They stay two events in the model, and `PendingDelete.PendingDelete.PressDelete` is that pair. The alert-dialog component's own closing behaviour is a library detail, and the model assumes it runs straight after the click handler.
- BudgetSummary.MonthSpent: the card reads the clock once per expense inside the `reduce` (client/src/components/dashboard/budget-summary-card.tsx:18). The model uses one instant `now` for every step, so a reduce that crosses a month boundary is not covered.
- Tally.Add: a category text that names an `Object.prototype` member breaks the `if (!rec[k]) rec[k] = 0; rec[k] += amount` idiom in JavaScript. "constructor" makes `!rec[k]` false, so the `+=` concatenates onto the inherited function and the total becomes a string. "__proto__" makes the amount disappear. The model counts such keys as ordinary numbers. This affects the category records of client/src/pages/reports-page.tsx:99-105, client/src/components/dashboard/spending-analytics.tsx:54-60 and client/src/components/dashboard/semester-expenses-card.tsx:21-27.
- The income page's own pending-delete state is the same as the expenses page's (client/src/pages/income-page.tsx:51, 67, 78-86, 212), so one class models both.

## Findings

| source | as written | input that shows it | evidently intended | confidence | as-written member | corrected member |
|---|---|---|---|---|---|---|
| server/storage.ts:222-228 | `createSavingsGoal` stores `{ ...insertSavingsGoal, id, createdAt }`, so an omitted `currentAmount` stays missing in memory | a payload without `currentAmount` (the insert schema allows this because the column has `.default(0)`, shared/schema.ts:50) | the stored goal has `currentAmount` 0, as the column default promises | not executed | Schema.GoalWithoutCurrentAmount | Schema.NewSavingsGoal |
