# Personal-finance aggregation and screen state, modelled in Dafny

This project models the client-side logic of a small personal-finance web
application (an Angular app whose data lives in a cloud document database).
The user records income and expense transactions; the app then shows:

- the transactions of one month, newest first, with the month's income,
  expense and balance;
- a per-category breakdown of those transactions (computed by the
  transaction service over all of them);
- a second breakdown of expenses only, restricted to the fixed 12-entry
  category catalog, with one-decimal percentages and a pie chart whose
  slices chain from angle 0;
- a month/year picker that wraps at January and December and refuses
  future months;
- a transaction list with an `all` / `income` / `expense` filter and its
  own icon, name and color tables;
- an add-transaction form that picks the first catalog category of the
  chosen type and refuses to submit an invalid form.

Modules, one per concern of the source:

| module | file | models |
|---|---|---|
| `Model` | Model.dfy | the records of `models/transaction.model.ts`; filtering by type and summing amounts |
| `Lists` | Lists.dfy | `reduce` sums and the stable `Array.prototype.sort` with a larger-key-first comparator |
| `Dates` | Dates.dfy | `new Date(y, m, d, h, mi, s)` as local-clock milliseconds, and the month window |
| `Catalog` | Catalog.dfy | `defaultCategories`, `getCategories`, `getCategoryById` |
| `Grouping` | Grouping.dfy | the `Map` keyed by category id that both breakdowns fill in one walk |
| `TransactionService` | TransactionService.dfy | the month filter and sort, the monthly totals, `calculateCategoryBreakdown`, the current balance, the recent slice |
| `Analysis` | Analysis.dfy | the monthly-analysis component: its expense breakdown, pie segments, navigation, percentages and messages |
| `TransactionList` | TransactionList.dfy | the transaction-list component: filter and lookup tables |
| `AddTransaction` | AddTransaction.dfy | the add-transaction component: type and category choice, submit guard and payload |

Amounts are `real` (exact rationals, no floating-point rounding). A date is
an `int` count of milliseconds on the local clock. "Now" (today's month and
year), the form's validity and parsed values, and the outcome of a database
save are parameters of the operations that need them.

Two behaviours are easy to misread:

- the service's `calculateCategoryBreakdown` groups every transaction,
  income included, and never drops a category. It shows an unknown id under
  its own name. Only the analysis component's breakdown is expense-only and
  drops unknown ids;
- the pie chart is empty exactly when the component's breakdown is empty,
  not when the expense total is zero. With a positive expense total made up
  only of unknown categories the breakdown, and so the chart, is empty too.

Components are classes whose fields the methods assign, as the source does.
Their methods' contracts state the whole new state and what did not change.
The algorithms that loop in the source (`calculateCategoryBreakdown`,
`processExpensesByCategory`, `generatePieSegments`) are methods with loops.
Each is proved equal to a specification function, and the lemmas state what
the source promises about those functions.

## Model

| member | source | states |
|---|---|---|
| `Model.OfTypeCounts` | src/app/services/transaction.service.ts:154-160 | filtering by type keeps every copy of each transaction of that type and no other |
| `Model.OfTypeAppend` | src/app/services/transaction.service.ts:154-160 | filtering by type keeps the input order (it distributes over concatenation) |
| `Model.OfTypeMembers` | src/app/services/transaction.service.ts:154-160 | a transaction is in the filtered list iff it is in the input and has that type |
| `Model.IncomeExpensePartition` | src/app/models/transaction.model.ts:1-11 | every transaction is income or expense: the two filters split the list's length and its total |
| `Lists.SortDescSorted` | src/app/services/transaction.service.ts:196 | the `b - a` comparator sort is non-increasing by its key |
| `Lists.SortDescStable` | src/app/services/transaction.service.ts:196 | elements with equal keys keep their input order |
| `Lists.SortDescSum` | src/app/services/transaction.service.ts:196 | sorting keeps the sum of any field |
| `Lists.SortDescDistinct` | src/app/services/transaction.service.ts:196 | sorting keeps the one-entry-per-key property |
| `Lists.SumByAppend` | src/app/services/transaction.service.ts:156 | a `reduce` sum adds up over concatenation |
| `Dates.StartOfMonth` | src/app/services/transaction.service.ts:104 | definition: `new Date(year, month - 1, 1)`, midnight of day 1 (its properties: `Dates.MonthLength`, `Dates.MonthWindowsOrdered`) |
| `Dates.EndOfMonth` | src/app/services/transaction.service.ts:105 | definition: `new Date(year, month, 0, 23, 59, 59)` (its properties: `Dates.EndIsLastSecondOfMonth`) |
| `Dates.EndIsLastSecondOfMonth` | src/app/services/transaction.service.ts:104-105 | the month's end is 23:59:59 on day 0 of the next month, one second before the next month starts |
| `Dates.MonthLength` | src/app/services/transaction.service.ts:104-105 | the month's start and the next month's start are `DaysInMonth` days apart (leap years included) |
| `Dates.YearLength` | src/app/services/transaction.service.ts:104-105 | a year has 366 days iff it is a Gregorian leap year, else 365 |
| `Dates.MonthWindowsOrdered` | src/app/services/transaction.service.ts:104-105 | month windows are ordered; the last 999 ms of a month belong to no window |
| `Catalog.DefaultCategories` | src/app/services/transaction.service.ts:18-34 | definition: the four income then the eight expense literals, in source order |
| `Catalog.GetCategories` | src/app/services/transaction.service.ts:140-145 | definition: the whole catalog without a type, else its entries of that type (properties in the next three rows) |
| `Catalog.GetCategoryById` | src/app/services/transaction.service.ts:147-149 | definition: `find` over the catalog (properties: `Catalog.FindById`, `Catalog.GetCategoryByIdExact`) |
| `Catalog.CategoriesOfTypeMembers` | src/app/services/transaction.service.ts:140-145 | `getCategories(type)` yields exactly the catalog entries of that type |
| `Catalog.IncomeCategories` | src/app/services/transaction.service.ts:18-34 | `getCategories('income')` is the four income entries in catalog order, `salary` first |
| `Catalog.ExpenseCategories` | src/app/services/transaction.service.ts:18-34 | `getCategories('expense')` is the eight expense entries in catalog order, `food` first |
| `Catalog.FindById` | src/app/services/transaction.service.ts:147-149 | `find` returns nothing iff no entry has the id, else the first entry with it |
| `Catalog.GetCategoryByIdExact` | src/app/services/transaction.service.ts:147-149 | catalog ids are unique, so `getCategoryById` returns the one entry with the id, if any |
| `Grouping.KeysExact` | src/app/services/transaction.service.ts:178-183 | the map's keys are distinct and are exactly the categories that occur; each has at least one transaction |
| `Grouping.GroupSumsReconcile` | src/app/services/transaction.service.ts:178-185 | the per-category sums add up to the sum of all amounts |
| `Grouping.SumForBounds` | src/app/components/analytics/monthly-analysis/monthly-analysis.component.ts:130-136 | with no negative amount, one category's sum lies between 0 and the total |
| `TransactionService.MonthlyTransactions` | src/app/services/transaction.service.ts:103-114 | definition: the month-window filter, then the sort newest first (properties: `TransactionService.MonthlyTransactionsSpec`) |
| `TransactionService.MonthlyTransactionsSpec` | src/app/services/transaction.service.ts:103-114 | keeps a transaction iff dated from midnight of day 1 to 23:59:59 of the last day; a permutation of those, newest first, ties in input order |
| `TransactionService.CategoryBreakdownOf` | src/app/services/transaction.service.ts:177-197 | definition: the value `calculateCategoryBreakdown` returns (properties: the breakdown rows below) |
| `TransactionService.BreakdownEntry` | src/app/services/transaction.service.ts:187-194 | definition: one entry with the `name || id`, `color || #64748b`, `icon || category` fallbacks (properties: `TransactionService.BreakdownEntryNames`) |
| `TransactionService.CalculateCategoryBreakdown` | src/app/services/transaction.service.ts:177-197 | the `Map` walk, entry mapping and sort compute the breakdown function |
| `TransactionService.BreakdownOnePerCategory` | src/app/services/transaction.service.ts:178-192 | one entry per distinct category among all transactions, income included, carrying that category's sum and its share of the total |
| `TransactionService.BreakdownSortedAndReconciled` | src/app/services/transaction.service.ts:185-196 | the breakdown is non-increasing by amount and its amounts add up to the sum of all amounts |
| `TransactionService.BreakdownPercentages` | src/app/services/transaction.service.ts:192 | with a positive total the percentages add up to 100; otherwise every percentage is 0 |
| `TransactionService.BreakdownEntryNames` | src/app/services/transaction.service.ts:188-195 | a catalog id shows the catalog's name, color and icon; an unknown id shows itself, `#64748b` and `category` |
| `TransactionService.MonthlyAnalysisOf` | src/app/services/transaction.service.ts:151-175 | definition: the value `getMonthlyAnalysis` emits (properties: `TransactionService.MonthlyTotals`) |
| `TransactionService.GetMonthlyAnalysis` | src/app/services/transaction.service.ts:151-175 | the `map` body computes the monthly analysis of the month's transactions |
| `TransactionService.MonthlyTotals` | src/app/services/transaction.service.ts:154-171 | month and year are echoed; income and expense are their type's sums; balance is their difference; together they and the breakdown account for every amount |
| `TransactionService.CurrentBalance` | src/app/services/transaction.service.ts:199-219 | definition: 0 for no transactions, else income minus expense (properties: `TransactionService.CurrentBalanceIsNet`) |
| `TransactionService.CurrentBalanceIsNet` | src/app/services/transaction.service.ts:199-219 | the current balance is income minus expense (0 for no transactions) and adds up over lists |
| `TransactionService.RecentTransactions` | src/app/services/transaction.service.ts:221-223 | `slice(0, limit)` is a prefix of length `min(limit, n)`; a negative limit counts back from the end |
| `TransactionService.RecentOfRecent` | src/app/services/transaction.service.ts:221-223 | slicing twice is slicing to the smaller limit; the default limit 5 gives at most five |
| `TransactionService.RecentMonotone` | src/app/services/transaction.service.ts:221-223 | a larger limit of the same sign gives a longer prefix |
| `Analysis.Round` | src/app/components/analytics/monthly-analysis/monthly-analysis.component.ts:149 | `Math.round` gives the integer within half of its argument, halves rounded up |
| `Analysis.ExpensePercentage` | src/app/components/analytics/monthly-analysis/monthly-analysis.component.ts:149 | definition: `Math.round(share * 100 * 10) / 10`, 0 with no positive total (properties: `Analysis.ExpensePercentageRounds`) |
| `Analysis.ExpensePercentageRounds` | src/app/components/analytics/monthly-analysis/monthly-analysis.component.ts:149 | the shown percentage is within 0.05 of the exact share, and within 0..100 for a part of the total |
| `Analysis.MonthlyAnalysisComponent.TallyExpenses` | src/app/components/analytics/monthly-analysis/monthly-analysis.component.ts:125-136 | the walk leaves the keys in first-seen order and, per key, the sum and count of its expenses |
| `Analysis.MonthlyAnalysisComponent.PushKnown` | src/app/components/analytics/monthly-analysis/monthly-analysis.component.ts:139-153 | the push loop builds one entry per key the catalog knows, in the map's order |
| `Analysis.MonthlyAnalysisComponent.ProcessExpensesByCategory` | src/app/components/analytics/monthly-analysis/monthly-analysis.component.ts:124-157 | the method computes the expense breakdown function |
| `Analysis.ExpensesByCategoryOf` | src/app/components/analytics/monthly-analysis/monthly-analysis.component.ts:124-157 | definition: the value `processExpensesByCategory` leaves (properties: the rows below) |
| `Analysis.ExpensesByCategoryEntries` | src/app/components/analytics/monthly-analysis/monthly-analysis.component.ts:128-153 | one entry per distinct expense category in the catalog, none for income or unknown ids; each with the catalog's fields, its sum, its count (at least 1) and its rounded share |
| `Analysis.ExpensesByCategorySorted` | src/app/components/analytics/monthly-analysis/monthly-analysis.component.ts:156 | non-increasing by amount; with every expense category known, the amounts add up to the expense total |
| `Analysis.ExpensesByCategoryPercentages` | src/app/components/analytics/monthly-analysis/monthly-analysis.component.ts:149 | each percentage is within 0..100 and within 0.05 of the exact share; 0 with no positive expense total |
| `Analysis.ServiceAnalysisPercentages` | src/app/components/analytics/monthly-analysis/monthly-analysis.component.ts:81-87 | for an analysis the service computed from non-negative amounts, every shown percentage is within 0..100 |
| `Analysis.TopExpense` | src/app/components/analytics/monthly-analysis/monthly-analysis.component.ts:120 | definition: the first entry, or none for an empty breakdown (properties: `Analysis.TopExpenseIsLargest`) |
| `Analysis.TopExpenseIsLargest` | src/app/components/analytics/monthly-analysis/monthly-analysis.component.ts:120 | the top category is absent iff the breakdown is empty, and otherwise no entry has a larger amount |
| `Analysis.MonthlyAnalysisComponent.GeneratePieSegments` | src/app/components/analytics/monthly-analysis/monthly-analysis.component.ts:159-205 | the running-angle loop computes the pie chain function; no categories give no segments |
| `Analysis.PieSegmentsOf` | src/app/components/analytics/monthly-analysis/monthly-analysis.component.ts:159-205 | definition: no segments for no categories, else the chain from angle 0 (properties: `Analysis.PieChain`, `Analysis.FullCircle`, `Analysis.FullCircleWithinRounding`) |
| `Analysis.PieChain` | src/app/components/analytics/monthly-analysis/monthly-analysis.component.ts:168-201 | one segment per category in order and color; each starts where the previous ends; span is `percentage / 100 * 360`; `largeArc` is 1 iff the span exceeds 180 |
| `Analysis.PieSpanTotal` | src/app/components/analytics/monthly-analysis/monthly-analysis.component.ts:169 | the spans add up to 3.6 times the percentages' sum |
| `Analysis.FullCircle` | src/app/components/analytics/monthly-analysis/monthly-analysis.component.ts:160-171 | the first segment starts at 0; with percentages adding up to 100 the last ends at 360 |
| `Analysis.FullCircleWithinRounding` | src/app/components/analytics/monthly-analysis/monthly-analysis.component.ts:124-171 | for an analysis whose positive expense total is the sum of its expenses, all in the catalog: the rounded percentages add up to 100 within 0.05 per entry, and the pie starts at 0 and ends within 0.18 degrees per slice of 360 |
| `Analysis.SharesNearHundred` | src/app/components/analytics/monthly-analysis/monthly-analysis.component.ts:149-171 | entries whose amounts make up the whole total and show their rounded shares: the shares add up to 100 within 0.05 per entry; the last slice ends within 0.18 degrees per entry of 360 |
| `Analysis.PreviousOf` | src/app/components/analytics/monthly-analysis/monthly-analysis.component.ts:211-218 | definition: the month before, December of the year before for January (properties: `Analysis.NavigationSteps`) |
| `Analysis.NextOf` | src/app/components/analytics/monthly-analysis/monthly-analysis.component.ts:220-227 | definition: the month after, January of the year after for December (properties: `Analysis.NavigationSteps`) |
| `Analysis.NavigationSteps` | src/app/components/analytics/monthly-analysis/monthly-analysis.component.ts:211-227 | both steps stay in 1..12 and move one month in time; January goes back to December of the year before, December forward to January of the next; the steps undo each other |
| `Analysis.MonthlyAnalysisComponent.PreviousMonth` | src/app/components/analytics/monthly-analysis/monthly-analysis.component.ts:211-218 | the displayed month steps back with wrap-around, stays valid, and the screen reloads |
| `Analysis.MonthlyAnalysisComponent.NextMonth` | src/app/components/analytics/monthly-analysis/monthly-analysis.component.ts:220-227 | the displayed month steps forward with wrap-around, stays valid, and the screen reloads |
| `Analysis.MonthlyAnalysisComponent.IsMonthDisabled` | src/app/components/analytics/monthly-analysis/monthly-analysis.component.ts:255-261 | definition: the displayed year is today's and the month is after today's (properties: `Analysis.MonthDisabledRange`) |
| `Analysis.MonthlyAnalysisComponent.IsCurrentMonth` | src/app/components/analytics/monthly-analysis/monthly-analysis.component.ts:229-232 | definition: the displayed month and year are today's (properties: `Analysis.MonthDisabledRange`) |
| `Analysis.MonthDisabledRange` | src/app/components/analytics/monthly-analysis/monthly-analysis.component.ts:229-261 | a month is disabled iff the current year is shown and the month is after today's; on the current month it stays selectable and exactly the later months are disabled |
| `Analysis.MonthlyAnalysisComponent.SelectMonth` | src/app/components/analytics/monthly-analysis/monthly-analysis.component.ts:239-245 | a disabled month changes nothing; any other becomes the displayed month, closes the dropdown and reloads |
| `Analysis.MonthlyAnalysisComponent.ChangeYear` | src/app/components/analytics/monthly-analysis/monthly-analysis.component.ts:247-253 | the year changes only when the new year is at most today's; nothing else changes, in particular not the pending request, since nothing is reloaded |
| `Analysis.MonthlyAnalysisComponent.ToggleMonthDropdown` | src/app/components/analytics/monthly-analysis/monthly-analysis.component.ts:235-237 | only the dropdown flag flips |
| `Analysis.MonthlyAnalysisComponent.constructor` | src/app/components/analytics/monthly-analysis/monthly-analysis.component.ts:42-52 | today's month and year, for display and as the first request, nothing loaded, skeleton on |
| `Analysis.MonthlyAnalysisComponent.LoadMonthlyAnalysis` | src/app/components/analytics/monthly-analysis/monthly-analysis.component.ts:71-80 | loading flags on, derived data cleared, the request recorded for the displayed month and year, which are kept, as is the last analysis |
| `Analysis.MonthlyAnalysisComponent.OnAnalysisLoaded` | src/app/components/analytics/monthly-analysis/monthly-analysis.component.ts:80-91 | the delivered analysis is the service's for the month and year requested when the load subscribed (even if `changeYear` has since changed the displayed year), and every derived field follows from it; the request stays as it was |
| `Analysis.MonthlyAnalysisComponent.OnAnalysisError` | src/app/components/analytics/monthly-analysis/monthly-analysis.component.ts:101-106 | loading flags off, data not ready, nothing else changes |
| `Analysis.MonthlyAnalysisComponent.ProcessMonthlyData` | src/app/components/analytics/monthly-analysis/monthly-analysis.component.ts:110-122 | the monthly data, expense breakdown, top category and pie segments are computed from the analysis |
| `Analysis.MonthName` | src/app/components/analytics/monthly-analysis/monthly-analysis.component.ts:207-209 | a name exists iff the month is in 1..12 |
| `Analysis.MonthNamesDistinct` | src/app/components/analytics/monthly-analysis/monthly-analysis.component.ts:54-57 | twelve distinct names, from Janeiro to Dezembro |
| `Analysis.ToFixed1` | src/app/components/analytics/monthly-analysis/monthly-analysis.component.ts:304 | definition: `toFixed(1)` read back as a number, the value rounded to a tenth (properties: `Analysis.ToFixed1Near`, `Analysis.ToFixed1Threshold`) |
| `Analysis.ToFixed1Near` | src/app/components/analytics/monthly-analysis/monthly-analysis.component.ts:304 | the one-decimal value is within 0.05 of the value |
| `Analysis.ToFixed1Threshold` | src/app/components/analytics/monthly-analysis/monthly-analysis.component.ts:327-329 | the printed value reaches a threshold of 1 or more iff the value reaches it minus 0.05 |
| `Analysis.ExpensePercentageOfIncome` | src/app/components/analytics/monthly-analysis/monthly-analysis.component.ts:301-305 | definition: 0 without data or income, else expense over income in percent, to a tenth (properties: `Analysis.SavingsMessageThresholds`) |
| `Analysis.SavingsPercentage` | src/app/components/analytics/monthly-analysis/monthly-analysis.component.ts:307-311 | definition: 0 without data or income, else the absolute balance over income in percent, to a tenth (properties: `Analysis.SavingsMessageThresholds`) |
| `Analysis.SavingsMessage` | src/app/components/analytics/monthly-analysis/monthly-analysis.component.ts:323-334 | definition: empty without data, "Reduza os gastos!" for a negative balance, else by the 20 and 10 thresholds (properties: `Analysis.SavingsMessageThresholds`) |
| `Analysis.SavingsMessageThresholds` | src/app/components/analytics/monthly-analysis/monthly-analysis.component.ts:301-333 | both percentages are 0 with no income; a negative balance gives "Reduza os gastos!"; otherwise the 20 and 10 thresholds on the printed rate choose the message |
| `Analysis.IncomeTransactionCount` | src/app/components/analytics/monthly-analysis/monthly-analysis.component.ts:313-316 | definition: 0 without data, else the number of income transactions (properties: `Analysis.TransactionCountsSplit`) |
| `Analysis.ExpenseTransactionCount` | src/app/components/analytics/monthly-analysis/monthly-analysis.component.ts:318-321 | definition: 0 without data, else the number of expense transactions (properties: `Analysis.TransactionCountsSplit`) |
| `Analysis.TransactionCountsSplit` | src/app/components/analytics/monthly-analysis/monthly-analysis.component.ts:313-321 | the income and expense counters add up to the month's transactions; both are 0 with no data |
| `TransactionList.ApplyFilter` | src/app/components/transactions/transaction-list/transaction-list.component.ts:45-50 | `all` gives the list itself; a type filter gives only transactions of that type |
| `TransactionList.FilterExact` | src/app/components/transactions/transaction-list/transaction-list.component.ts:49 | a type filter keeps every copy of each transaction of its type and nothing else, in the original relative order; it is idempotent |
| `TransactionList.FiltersSplit` | src/app/components/transactions/transaction-list/transaction-list.component.ts:46-49 | the income and expense views together are as long as the `all` view |
| `TransactionList.CategoryIcon` | src/app/components/transactions/transaction-list/transaction-list.component.ts:94-110 | definition: the icon table's value, or `category` (properties: `TransactionList.LookupsTotal`) |
| `TransactionList.CategoryName` | src/app/components/transactions/transaction-list/transaction-list.component.ts:112-128 | definition: the name table's value, or `Outros` (properties: `TransactionList.LookupsTotal`, `TransactionList.ListNamesAgainstCatalog`) |
| `TransactionList.CategoryColor` | src/app/components/transactions/transaction-list/transaction-list.component.ts:130-146 | definition: the color table's value, or `#636E72` (properties: `TransactionList.LookupsTotal`) |
| `TransactionList.LookupsTotal` | src/app/components/transactions/transaction-list/transaction-list.component.ts:94-146 | icon, name and color are total and never empty: the table value for the 12 listed ids, else `category`, `Outros`, `#636E72` |
| `TransactionList.ListNamesAgainstCatalog` | src/app/components/transactions/transaction-list/transaction-list.component.ts:112-128 | the list shows the catalog's name for every catalog category except `investment` and `entertainment` |
| `TransactionList.TransactionListComponent.constructor` | src/app/components/transactions/transaction-list/transaction-list.component.ts:25-29 | the filter field and the subject start at `all`, so the view is the whole list |
| `TransactionList.TransactionListComponent.SetFilter` | src/app/components/transactions/transaction-list/transaction-list.component.ts:70-73 | the field and the subject take the new filter; nothing else changes; the view is the new filter over the same list |
| `TransactionList.TransactionListComponent.LoadTransactions` | src/app/components/transactions/transaction-list/transaction-list.component.ts:35-37 | loading on, data not loaded, list and filter kept |
| `TransactionList.TransactionListComponent.OnTransactions` | src/app/components/transactions/transaction-list/transaction-list.component.ts:54-56 | the view becomes the current filter over the delivered list |
| `TransactionList.TransactionListComponent.OnTransactionsError` | src/app/components/transactions/transaction-list/transaction-list.component.ts:62-66 | loading ends, the last list and the filter stay |
| `AddTransaction.EveryTypeHasCategories` | src/app/components/transactions/add-transaction/add-transaction.component.ts:43-48 | both types offer categories; the first is of that type: `salary` or `food` |
| `AddTransaction.AddTransactionComponent.constructor` | src/app/components/transactions/add-transaction/add-transaction.component.ts:21-35 | starts on expenses with the expense catalog offered and `food` chosen |
| `AddTransaction.AddTransactionComponent.UpdateCategories` | src/app/components/transactions/add-transaction/add-transaction.component.ts:43-48 | offers the catalog entries of the chosen type and chooses the first; with none the choice stays |
| `AddTransaction.AddTransactionComponent.SelectType` | src/app/components/transactions/add-transaction/add-transaction.component.ts:37-41 | the type is set, its categories offered and the first of them chosen |
| `AddTransaction.AddTransactionComponent.SelectCategory` | src/app/components/transactions/add-transaction/add-transaction.component.ts:50-52 | only the chosen category changes; the offered list still matches the chosen type |
| `AddTransaction.AddTransactionComponent.OnSubmit` | src/app/components/transactions/add-transaction/add-transaction.component.ts:54-83 | an invalid form or no category only sets the error; otherwise the payload carries the chosen type and category, loading is off at the end and the error tells whether the save failed |
| `AddTransaction.SubmitRefused` | src/app/components/transactions/add-transaction/add-transaction.component.ts:55 | definition: an invalid form or no chosen category refuses the submit (properties: `AddTransaction.AddTransactionComponent.OnSubmit`, `AddTransaction.ChosenCategoryFitsType`) |
| `AddTransaction.ChosenCategoryFitsType` | src/app/components/transactions/add-transaction/add-transaction.component.ts:55 | after a type is chosen only an invalid form is refused, and the chosen category is a catalog entry of that type |

## Left out

- The database and authentication calls (`createTransaction`, `updateTransaction`, `deleteTransaction`, the query in `getUserTransactions`, `AuthService`) are I/O; the model takes the user's transaction list as input and the save's outcome as a parameter.
- The reactive wiring (`switchMap`, `startWith`, `catchError`, `combineLatest`, the `BehaviorSubject`) is not modelled: the empty list or 0 that the streams emit first and on error, and the order in which emissions arrive, are outside the model. The list screen keeps the last delivered list and the subject's current value as fields.
- The skeleton timers (`setTimeout`) that clear `isLoading` / `isLoadingAnalysis` after a delay, and the document click listener that closes the month dropdown, are timing and DOM events.
- The SVG `path` string of a pie segment uses `Math.cos`, `Math.sin` and `Math.PI`; only the angles, the color and the `largeArc` flag are modelled.
- Currency and date formatting (`Intl.NumberFormat`, `Intl.DateTimeFormat`, `toLocaleDateString`) and the list's `formatDate` are locale formatting.
- `getExpensePercentageOfIncome` and `getSavingsPercentage` return strings; the model returns the number the string shows (`toFixed(1)` as rounding to a tenth) and `getSavingsMessage` reads it back, so `parseFloat` is the identity here.
- Time-zone offset and daylight saving: `new Date(year, month, day, …)` reads its fields on the local clock and stores UTC milliseconds; the model counts milliseconds on the local clock with a zero offset. Under a real zone with daylight saving, the hour a fall-back transition repeats at a month boundary would fall in no month's window, which the model cannot show.
- Overlapping requests: when a second `loadMonthlyAnalysis()` starts before the first one's analysis arrives, both subscriptions stay open and each delivers its own month; `requestedMonth` / `requestedYear` hold only the latest request, so `Analysis.MonthlyAnalysisComponent.OnAnalysisLoaded` models a delivery that answers the latest request.
- Amounts are exact reals: floating-point rounding of the sums and of the running pie angle is not modelled.
- Parsing the form's date (`formValue.date + 'T12:00:00'`) and amount (`parseFloat`), the form's validators, and `new Date()` for "now" are inputs of the operations.
- `TransactionList.CategoryIcon`, `TransactionList.CategoryName`, `TransactionList.CategoryColor`: an id that names a property every JavaScript object inherits (such as `constructor`) would read that inherited value from the table literal; the model treats such ids like any other unknown id.
- `getTransactionsThisMonth` repeats the month filter for today's month; it is not modelled separately.
- `getBalanceColor`, `getBalanceIcon`, `getIncomeGrowthPercentage` (a constant placeholder), `getCurrentYear` and the navigation to other screens are display helpers and routing.
- The dashboard, registration, theme, footer, routing and configuration files are not part of this model.
