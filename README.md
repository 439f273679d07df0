# Frog-Budget in Dafny

This project models the logic behind Frog-Budget, a personal budgeting web app. The user has:

- a profile giving an income and how often it is paid;
- spending categories, each taking a percentage of that income;
- purchases, each in one category and on one day;
- in the newer client, a wishlist of planned purchases.

From these the app does the following:

- It computes each category's budget and how much of it is spent per window: today, this week, this month, this year and all time.
- It summarises the months, shows the recent days and raises alerts.
- It extrapolates the month's spending.
- It imports purchases from bank or Amazon CSV exports.
- It keeps the client's UI state in a persisted store.

The model covers:

- the analytics engine;
- the two analytics hooks;
- the UI store;
- the utility functions;
- the two CSV import dialogs (the newer client's and the first client's);
- the newer client's purchase list;
- the newer client's purchase, category and wishlist form submits.

Dates are calendar days (`Calendar.Date`):

- Every use of the clock becomes an explicit parameter: `today` for the current day and `now` for the current timestamp.
- JavaScript's `new Date(y, m, d)` is `Calendar.NewDate`, which carries an overflowing month or day into the next month or year.
- `parseFloat` is an input function `string -> Option<real>`, where `None` stands for `NaN`.
- The service call that creates a purchase is an input function `Draft -> bool`, which says whether the insert succeeds.

Modules, one per file:

- `Common` (common.dfy): filtering, mapping, summing, counting and a key-ordered insertion sort, each stated as a property of its result.
- `Text` (text.dfy): the JavaScript string operations the code relies on: `split` and `join`, `trim`, `toLowerCase`, `includes`, `padStart`, and printing and reading of decimal numbers.
- `Calendar` (calendar.dfy): the Gregorian calendar, day numbers, the days before and after a date, month arithmetic, and `YYYY-MM` / `YYYY-MM-DD` formatting.
- `Records` (records.dfy): the stored rows (`Profile`, `Category`, `Purchase`, `WishlistItem`, `Alert`) and the derived records (`CategoryBudget`, `MonthlySnapshot`, `DailySpending`).
- `Analytics` (analytics.dfy): `frog-budget/src/services/analytics.ts`.
- `Hooks` (hooks.dfy): `useAnalytics` in both clients, and the validation of the category percentages.
- `Store` (store.dfy): the zustand store of `frog-budget/src/stores/index.ts`, as a class `BudgetStore` whose fields are the store's state. Each action is a method that moves the state by a pure transition `Step`, and `Partialize` is what is persisted.
- `Utils` (utils.dfy): `frog-budget/src/utils/index.ts`.
- `CsvImport` (csv_import.dfy): the import dialog of the newer client in `src/App.tsx`, covering the line scanner, column detection, preview, duplicate detection, the date patterns and the import loop.
- `LegacyImport` (legacy_import.dfy): the import dialog of the first client in `frog-budget/src/App.tsx`.
- `PurchaseList` (purchase_list.dfy): the search, filter and sort of the purchase list.
- `Forms` (forms.dfy): the submit handlers of the three forms.

## Model

| member | source | states |
|---|---|---|
| Analytics.MonthlyIncome | frog-budget/src/services/analytics.ts:30-41 | A weekly income counts 4.33 times a month, a monthly one once, and anything else (bi-weekly) 2.17 times |
| Analytics.MonthlyIncomeBounds | frog-budget/src/services/analytics.ts:30-41 | For a non-negative income, the monthly figure lies between the amount and 4.33 times it |
| Analytics.StatusOf | frog-budget/src/services/analytics.ts:94-101 | Overspent above 100 %, danger in (80, 100], warning in (60, 80], ok at 60 % or less; the four cases partition the percentages |
| Analytics.CalculateCategoryBudgets | frog-budget/src/services/analytics.ts:56-129 | One budget per category, in category order, each belonging to its own category |
| Analytics.BudgetFigures | frog-budget/src/services/analytics.ts:59-92 | The monthly budget is the category's share of monthly income. The yearly budget is 12 months, the daily budget 1/30, the weekly 1/4.33 and the bi-weekly 1/2.17 of a month. What remains is the budget minus what was spent over the same window |
| Analytics.ZeroBudgetIsOk | frog-budget/src/services/analytics.ts:91-101 | A category with no monthly budget reports 0 % used and status ok |
| Analytics.PercentAbove | frog-budget/src/services/analytics.ts:91 | With a positive budget, the percentage used exceeds t exactly when spending exceeds t/100 of the budget |
| Analytics.StatusIffSpend | frog-budget/src/services/analytics.ts:89-101 | With a positive budget: overspent exactly when the month's spending exceeds the budget, danger exactly when it is in (80 %, 100 %] of it, ok exactly when it is at most 60 % |
| Analytics.SpentWindowsNest | frog-budget/src/services/analytics.ts:68-87 | For non-negative amounts: today ≤ this month ≤ this year ≤ all time, and this week ≤ all time |
| Analytics.OwnPurchasesOnly | frog-budget/src/services/analytics.ts:60-62 | Purchases of other categories do not change a category's budget record |
| Analytics.CategoryBudgetOf | frog-budget/src/services/analytics.ts:59-128 | No contract of its own: the record `calculateCategoryBudgets` builds for one category from that category's purchases. Its figures are stated by `BudgetFigures`, `StatusIffSpend`, `ZeroBudgetIsOk`, `SpentWindowsNest` and `OwnPurchasesOnly` |
| Analytics.InWeekOf | frog-budget/src/services/analytics.ts:72-74 | No contract of its own: a purchase on or after the Sunday that starts today's week (a date that is not a real day is outside). `SpentWindowsNest` bounds the week's spending by the all-time spending |
| Analytics.InMonthOf | frog-budget/src/services/analytics.ts:76-81 | No contract of its own: a purchase in today's calendar month, both ends included. `SpentWindowsNest`, `SnapshotEntry` and `ProjectionFormula` use it as the month window |
| Analytics.InYearFrom | frog-budget/src/services/analytics.ts:83-85 | No contract of its own: a purchase on or after 1 January of the year. `SpentWindowsNest` places the year's spending between the month's and all time |
| Analytics.SumOfShares | frog-budget/src/services/analytics.ts:64-66 | The monthly budgets of the categories add up to income times the total percentage over 100 |
| Analytics.ByCategory | frog-budget/src/services/analytics.ts:153-158 | The map has exactly the category ids as keys, and each maps to the sum of that category's purchases in the month |
| Analytics.MonthlySnapshots | frog-budget/src/services/analytics.ts:132-169 | The series has as many entries as months were asked for (none for a non-positive count) |
| Analytics.GetMonthlySnapshots | frog-budget/src/services/analytics.ts:132-169 | The loop that pushes a snapshot per month and then reverses the list returns exactly the series `MonthlySnapshots` |
| Analytics.SnapshotAt | frog-budget/src/services/analytics.ts:142-168 | After the reversal, the j-th entry is the month monthsBack-1-j months before today |
| Analytics.SnapshotsBackwards | frog-budget/src/services/analytics.ts:142-168 | Pushing months 0, 1, … back and then reversing equals listing them oldest first |
| Analytics.SnapshotEntry | frog-budget/src/services/analytics.ts:142-165 | Entry j is labelled with the `YYYY-MM` key of the month monthsBack-1-j months back. Its total is the sum of that month's purchases, its budget is the monthly income, and its per-category map has every category id, each summing that category's purchases in the month |
| Analytics.LastSnapshotIsCurrentMonth | frog-budget/src/services/analytics.ts:143-144 | The last snapshot is the current month |
| Analytics.CurrentMonthSnapshot | frog-budget/src/services/analytics.ts:143-144 | The snapshot of 0 months back is labelled with today's month |
| Analytics.DailySeries | frog-budget/src/services/analytics.ts:171-189 | The series has one entry per day asked for |
| Analytics.GetDailySpending | frog-budget/src/services/analytics.ts:171-189 | The loop from daysBack-1 down to 0 returns exactly the series `DailySeries` ending today (empty for a non-positive count) |
| Analytics.DailyEntry | frog-budget/src/services/analytics.ts:175-186 | Entry j is the day n-1-j days before the last day |
| Analytics.DailySeriesDay | frog-budget/src/services/analytics.ts:175-186 | The last entry is today; each entry's amount is the sum, and its count the number, of purchases on that day |
| Analytics.DailySeriesConsecutive | frog-budget/src/services/analytics.ts:175-177 | Consecutive entries are consecutive calendar days |
| Analytics.NoPurchasesZeroDays | frog-budget/src/services/analytics.ts:179-185 | Without purchases every day shows 0 spent and 0 purchases |
| Analytics.FindCategoryName | frog-budget/src/services/analytics.ts:234 | A name is found exactly when some budget belongs to the given category id |
| Analytics.LargePurchaseAlerts | frog-budget/src/services/analytics.ts:231-245 | One alert per large purchase |
| Analytics.Alerts | frog-budget/src/services/analytics.ts:191-248 | The alerts are ordered newest first and are a permutation of the pushed ones |
| Analytics.PushCategoryAlerts | frog-budget/src/services/analytics.ts:195-221 | The loop over budgets pushes exactly the overspent and danger alerts of each category, in order |
| Analytics.PushLargePurchaseAlerts | frog-budget/src/services/analytics.ts:231-245 | The loop appends one large-purchase alert per large purchase to the alerts so far |
| Analytics.GenerateAlerts | frog-budget/src/services/analytics.ts:191-248 | The method returns exactly the sorted alert list `Alerts` |
| Analytics.InAllCategoryAlerts | frog-budget/src/services/analytics.ts:195-221 | An alert is among the category alerts exactly when some budget raised it |
| Analytics.InLargePurchaseAlerts | frog-budget/src/services/analytics.ts:231-245 | An alert is among the large-purchase alerts exactly when it is the alert of one of the purchases |
| Analytics.AlertsCharacterised | frog-budget/src/services/analytics.ts:191-248 | An alert is raised exactly when it is one of three kinds: an overspent category's alert, a danger category's alert, or the alert of a purchase this month above 10 % of the total monthly budget |
| Analytics.AllCategoryAlertsCount | frog-budget/src/services/analytics.ts:195-221 | There are as many category alerts as overspent plus danger categories |
| Analytics.AlertsCount | frog-budget/src/services/analytics.ts:191-248 | The number of alerts is overspent plus danger categories plus large purchases this month |
| Analytics.ProjectionsOf | frog-budget/src/services/analytics.ts:250-272 | Days remaining is the month's length minus today's day (never negative), and the budget is the sum of monthly budgets |
| Analytics.Extrapolation | frog-budget/src/services/analytics.ts:265-266 | Extrapolating the daily average over the remaining days equals scaling the spending by days in month over days passed; on the last day it is the spending itself; it never projects less than a non-negative spending |
| Analytics.ProjectionFormula | frog-budget/src/services/analytics.ts:256-268 | The daily average is the month's spending over today's day, and the projection is that spending times days in month over days passed (the spending itself on the last day) |
| Analytics.ProjectionAtLeastSpent | frog-budget/src/services/analytics.ts:263-266 | For non-negative amounts the projection is at least what was already spent |
| Calendar.DaysInMonth | frog-budget/src/services/analytics.ts:7-9 | A month has 28 to 31 days, and 29 exactly in February of a leap year |
| Calendar.PrevDayNumber | frog-budget/src/services/analytics.ts:175-176 | The previous day of a valid date is one day earlier on the day line |
| Calendar.DaysAgoNumber | frog-budget/src/services/analytics.ts:175-176 | Going i days back lowers the day number by exactly i |
| Calendar.NextDayNumber | src/App.tsx:584 | The next day of a valid date is one day later on the day line |
| Calendar.DaysLaterNumber | src/App.tsx:584 | Going i days forward raises the day number by exactly i |
| Calendar.DaysLaterInMonth | src/App.tsx:584 | Within a month, i days after the first is day 1+i of the same month |
| Calendar.MonthsAgo | frog-budget/src/services/analytics.ts:143 | `new Date(y, m - i, 1)` lands on a real month exactly i months before |
| Calendar.NewDate | src/App.tsx:584 | `new Date(y, m, d)` is always a real calendar date |
| Calendar.NewDateNumber | src/App.tsx:584 | `new Date(y, m, d)` is the day d-1 days after the first of month m, an out-of-range month carrying into the year, with years 0 to 99 read as 19xx |
| Calendar.NewDateOfValid | src/App.tsx:584 | A real date with a year outside 0..99 is reproduced unchanged |
| Calendar.MonthIndexInjective | frog-budget/src/services/analytics.ts:143-144 | Different months have different month indices, so snapshot labels cannot collide |
| Common.Filter | frog-budget/src/services/analytics.ts:60-62 | The kept elements are exactly the elements that pass, and there are no more than in the input |
| Common.SortByKey | frog-budget/src/services/analytics.ts:247 | The result is ordered by the key and is a permutation of the input |
| Common.FilterAppend | frog-budget/src/services/analytics.ts:60-62 | Filtering distributes over concatenation |
| Common.SumFilterBounded | frog-budget/src/services/analytics.ts:70-87 | With non-negative amounts, a filtered sum is at most the whole sum |
| Common.SumFilterMonotone | frog-budget/src/services/analytics.ts:70-87 | With non-negative amounts, a wider filter sums to at least as much |
| Common.ReverseTabulate | frog-budget/src/services/analytics.ts:168 | Reversing the months as pushed equals listing them oldest first |
| Text.NatToStringRoundTrip | frog-budget/src/utils/index.ts:51-58 | Printing a natural number and reading it back yields the number |
| Text.PadStartShape | frog-budget/src/utils/index.ts:52 | `padStart` prepends only padding characters and keeps the string as a suffix |
| Text.PaddedValue | frog-budget/src/utils/index.ts:52 | Zero-padding keeps a digit string's value |
| Text.JoinSplit | frog-budget/src/utils/index.ts:179 | Joining the parts of a split with the separator restores the string |
| Text.SplitJoin | frog-budget/src/utils/index.ts:56 | Splitting a join of separator-free parts gives the parts back |
| Text.SplitThree | src/App.tsx:369-371 | Three separator-free parts joined by a separator split back into those three |
| Text.TrimShape | frog-budget/src/utils/index.ts:179 | `trim` removes only white space at both ends and keeps a contiguous slice that neither starts nor ends with white space |
| Text.TrimIdempotent | frog-budget/src/utils/index.ts:179 | Trimming twice is trimming once |
| Text.ToLower | src/App.tsx:361 | Lower-casing keeps the length and maps each ASCII capital to its small letter, leaving other characters alone |
| Hooks.SimulatedPurchases | src/hooks/index.ts:421-428 | One simulated purchase per wishlist item, dated today, with the item's id, name, amount and category |
| Hooks.TotalWishlistCost | src/hooks/index.ts:403 | No contract of its own: the sum of the wishlist's amounts; `ShortCircuit` shows it is reported even without profile or categories |
| Hooks.CombinedPurchases | src/hooks/index.ts:430 | No contract of its own: the real purchases followed by the simulated ones when the wishlist is included; its shape is `CombinedPurchasesShape` |
| Hooks.UseAnalytics | src/hooks/index.ts:389-455 | No contract of its own: the newer hook, with the older engine standing in for the newer one. Its properties are `ShortCircuit`, `SeriesIgnoreWishlist` and `WishlistAddsToMonth` |
| Hooks.UseAnalyticsLegacy | frog-budget/src/hooks/index.ts:311-345 | No contract of its own: the first client's hook; `LegacyShortCircuit` states its empty case |
| Hooks.TotalPercentage | src/hooks/index.ts:187 | No contract of its own: the sum of the categories' percentages; `DefaultPercentagesInvalid` evaluates it on the default categories |
| Hooks.IsValidPercentage | src/hooks/index.ts:188 | No contract of its own: the total percentage is within 0.01 of 100; `ValidPercentageBudgetsIncome` shows what it guarantees about the budgets |
| Hooks.CombinedPurchasesShape | src/hooks/index.ts:430 | Without the wishlist the purchases are used unchanged; with it, the wishlist's purchases follow the real ones |
| Hooks.SimulatedSpend | src/hooks/index.ts:421-430 | The simulated purchases of a category add up to the wishlist cost of that category |
| Hooks.SimulatedInMonth | src/hooks/index.ts:421-428 | Every simulated purchase falls in the current month |
| Hooks.WishlistAddsToMonth | src/hooks/index.ts:430-432 | Including the wishlist raises a category's spending this month by exactly that category's wishlist cost |
| Hooks.ShortCircuit | src/hooks/index.ts:403-418 | Without a profile or without categories the newer hook returns empty series and zero totals, but still the wishlist's total cost |
| Hooks.LegacyShortCircuit | frog-budget/src/hooks/index.ts:322-332 | Without a profile or categories the first client's hook returns the empty view |
| Hooks.SeriesIgnoreWishlist | src/hooks/index.ts:432-436 | The month and day series do not depend on the wishlist, its switch or rollover |
| Hooks.ValidPercentageBudgetsIncome | src/hooks/index.ts:187-188 | When the percentages make a valid total (100 within 0.01), the monthly budgets add up to the income within 0.01 % |
| Hooks.DefaultPercentagesInvalid | src/services/categories.ts:61-70 | The default categories total 97 %, which the percentage validation rejects |
| Store.UpdateWhere | frog-budget/src/stores/index.ts:95-116 | Each element with the id is replaced by its merge and every other element is kept, in place |
| Store.Step | frog-budget/src/stores/index.ts:82-177 | No contract of its own: the new state after an action, the old state with the fields the action's `set` names replaced. What each action does and leaves alone is stated by the frame and effect lemmas below |
| Store.Partialize | frog-budget/src/stores/index.ts:181-185 | No contract of its own: the three fields written to storage. `RehydrateRestores` and `PersistedOnlyBy` state what it keeps |
| Store.SessionFrame | frog-budget/src/stores/index.ts:84-88 | Setting the user or profile changes only that field |
| Store.ModalFrame | frog-budget/src/stores/index.ts:159-168 | A modal action changes only the two fields of its modal |
| Store.ViewFrame | frog-budget/src/stores/index.ts:124-177 | A view action changes only the fields it names |
| Store.AddCategoryAppends | frog-budget/src/stores/index.ts:93-94 | A new category goes at the end and the others keep their places |
| Store.AddPurchasePrepends | frog-budget/src/stores/index.ts:109-110 | A new purchase goes at the front and the others shift by one |
| Store.UpdateCategoryMerges | frog-budget/src/stores/index.ts:95-100 | Categories with the id take the patch's fields; all others are kept, in place |
| Store.UpdatePurchaseMerges | frog-budget/src/stores/index.ts:111-116 | Purchases with the id take the patch's fields; all others are kept, in place |
| Store.MergeCategoryFields | frog-budget/src/stores/index.ts:97 | A spread merge takes each field the patch gives and keeps the rest; merging again changes nothing, and an empty patch changes nothing |
| Store.MergePurchaseFields | frog-budget/src/stores/index.ts:113 | A spread merge takes each field the patch gives and keeps the rest; merging again changes nothing, and an empty patch changes nothing |
| Store.RemoveWhereSpec | frog-budget/src/stores/index.ts:101-120 | Removing by id removes exactly the elements with that id. Repeating it changes nothing, it distributes over concatenation, and it is the identity when no element has the id |
| Store.DeleteCategoryRemoves | frog-budget/src/stores/index.ts:101-104 | No category with the id remains, every other category does, and deleting again changes nothing |
| Store.DeletePurchaseRemoves | frog-budget/src/stores/index.ts:117-120 | No purchase with the id remains, every other purchase does, and deleting again changes nothing |
| Store.DismissAlertRemoves | frog-budget/src/stores/index.ts:137-139 | No alert with the id remains, every other alert does, and dismissing again changes nothing |
| Store.PurchaseModalCoupled | frog-budget/src/stores/index.ts:159-162 | Editing a purchase opens the modal exactly when there is a purchase; showing or hiding the modal clears the edited purchase |
| Store.CategoryModalCoupled | frog-budget/src/stores/index.ts:165-168 | Editing a category opens the modal exactly when there is a category; showing or hiding the modal clears the edited category |
| Store.TogglesInvolutive | frog-budget/src/stores/index.ts:143-152 | Each toggle flips its flag, and toggling twice restores the state |
| Store.ClearFiltersEmpties | frog-budget/src/stores/index.ts:129-131 | Clearing sets the empty filters, whatever filters were set before |
| Store.RehydrateRestores | frog-budget/src/stores/index.ts:181-185 | Restoring the persisted part gives back the same persisted part, and changes only dark mode, selected month and sidebar |
| Store.PersistedOnlyBy | frog-budget/src/stores/index.ts:181-185 | Any action other than the four that set or toggle dark mode, the selected month or the sidebar leaves the persisted part unchanged |
| Store.SessionKeepsStored | frog-budget/src/stores/index.ts:84-88 | Session actions do not change what is persisted |
| Store.ListsKeepStored | frog-budget/src/stores/index.ts:92-139 | Category, purchase and alert actions do not change what is persisted |
| Store.ModalKeepsStored | frog-budget/src/stores/index.ts:159-168 | Modal actions do not change what is persisted |
| Store.ViewKeepsStored | frog-budget/src/stores/index.ts:124-177 | View actions other than the four that set or toggle dark mode, the selected month or the sidebar do not change what is persisted |
| Store.InitialMonth | frog-budget/src/stores/index.ts:74-177 | The initial selected month reads back as today's year and month; the lists start empty, filters cleared, loading on, sidebar collapsed and dark mode off |
| Store.BudgetStore.constructor | frog-budget/src/stores/index.ts:82-177 | The new store holds the initial state |
| Store.BudgetStore.SetUser | frog-budget/src/stores/index.ts:84 | The new state is the transition for setting the user |
| Store.BudgetStore.SetProfile | frog-budget/src/stores/index.ts:88 | The new state is the transition for setting the profile |
| Store.BudgetStore.SetCategories | frog-budget/src/stores/index.ts:92 | The new state is the transition for replacing the categories |
| Store.BudgetStore.AddCategory | frog-budget/src/stores/index.ts:93-94 | The new state is the transition appending the category |
| Store.BudgetStore.UpdateCategory | frog-budget/src/stores/index.ts:95-100 | The new state is the transition merging the patch into the category with the id |
| Store.BudgetStore.DeleteCategory | frog-budget/src/stores/index.ts:101-104 | The new state is the transition removing the categories with the id |
| Store.BudgetStore.SetPurchases | frog-budget/src/stores/index.ts:108 | The new state is the transition replacing the purchases |
| Store.BudgetStore.AddPurchase | frog-budget/src/stores/index.ts:109-110 | The new state is the transition prepending the purchase |
| Store.BudgetStore.UpdatePurchase | frog-budget/src/stores/index.ts:111-116 | The new state is the transition merging the patch into the purchase with the id |
| Store.BudgetStore.DeletePurchase | frog-budget/src/stores/index.ts:117-120 | The new state is the transition removing the purchases with the id |
| Store.BudgetStore.SetActiveTab | frog-budget/src/stores/index.ts:124 | The new state is the transition setting the tab |
| Store.BudgetStore.SetSelectedMonth | frog-budget/src/stores/index.ts:126-127 | The new state is the transition setting the month |
| Store.BudgetStore.SetFilters | frog-budget/src/stores/index.ts:130 | The new state is the transition setting the filters |
| Store.BudgetStore.ClearFilters | frog-budget/src/stores/index.ts:131 | The new state is the transition clearing the filters |
| Store.BudgetStore.SetAlerts | frog-budget/src/stores/index.ts:135-136 | The new state is the transition replacing the alerts |
| Store.BudgetStore.DismissAlert | frog-budget/src/stores/index.ts:137-139 | The new state is the transition removing the alert |
| Store.BudgetStore.ToggleDarkMode | frog-budget/src/stores/index.ts:143-152 | The new state is the transition flipping dark mode |
| Store.BudgetStore.SetIsLoading | frog-budget/src/stores/index.ts:155-156 | The new state is the transition setting the loading flag |
| Store.BudgetStore.SetShowAddPurchase | frog-budget/src/stores/index.ts:159-160 | The new state is the transition showing or hiding the purchase modal and clearing the edited purchase |
| Store.BudgetStore.SetEditingPurchase | frog-budget/src/stores/index.ts:161-162 | The new state is the transition editing the purchase and opening the modal when there is one |
| Store.BudgetStore.SetShowAddCategory | frog-budget/src/stores/index.ts:165-166 | The new state is the transition showing or hiding the category modal and clearing the edited category |
| Store.BudgetStore.SetEditingCategory | frog-budget/src/stores/index.ts:167-168 | The new state is the transition editing the category and opening the modal when there is one |
| Store.BudgetStore.SetSidebarCollapsed | frog-budget/src/stores/index.ts:172 | The new state is the transition setting the sidebar flag |
| Store.BudgetStore.ToggleSidebar | frog-budget/src/stores/index.ts:173 | The new state is the transition flipping the sidebar flag |
| Store.BudgetStore.SetShowImportModal | frog-budget/src/stores/index.ts:176-177 | The new state is the transition showing or hiding the import modal |
| Utils.MonthKeyRoundTrip | frog-budget/src/utils/index.ts:51-58 | Reading back a month key gives the date's year and month |
| Utils.GetMonthKey | frog-budget/src/utils/index.ts:51-53 | No contract of its own: the `YYYY-MM` key of a date; `MonthKeyRoundTrip` shows `ParseMonthKey` inverts it |
| Utils.ParseMonthKey | frog-budget/src/utils/index.ts:55-58 | No contract of its own: the key split at `-`, with the first two parts read by `Number`; `MonthKeyRoundTrip` shows it inverts `GetMonthKey` |
| Utils.PaddedMonth | frog-budget/src/utils/index.ts:52 | A padded month is a plain run of digits with the month's value |
| Utils.DigitsTrimmed | frog-budget/src/utils/index.ts:56 | A run of digits is unchanged by the trim `Number` applies |
| Utils.ProgressBarFollowsStatus | frog-budget/src/utils/index.ts:66-101 | The progress bar's colour is the status colour of the status the percentage gets |
| Utils.StatusColor | frog-budget/src/utils/index.ts:66-79 | No contract of its own: the badge class of a status. `StatusColorsDistinct`, `ColourNames` and `ProgressBarFollowsStatus` state its properties |
| Utils.StatusTextColor | frog-budget/src/utils/index.ts:81-94 | No contract of its own: the text class of a status, with its dark variant. `StatusColorsDistinct` and `ColourNames` state its properties |
| Utils.ProgressBarColor | frog-budget/src/utils/index.ts:96-101 | No contract of its own: the bar class for a percentage; `ProgressBarFollowsStatus` shows it is the badge class of the percentage's status |
| Utils.ColourNames | frog-budget/src/utils/index.ts:66-94 | A status's background class and text class name the same colour (green, yellow, orange or red) |
| Utils.StatusColorsDistinct | frog-budget/src/utils/index.ts:66-94 | Different statuses get different background classes and different text classes |
| Utils.JsRemainder | frog-budget/src/utils/index.ts:146 | JavaScript's `%` truncates toward zero: Euclidean for non-negative operands, never positive for a negative one |
| Utils.CategoryColor | frog-budget/src/utils/index.ts:145-147 | No contract of its own: the chart colour at the JavaScript remainder of the index, or none for a negative remainder. `CategoryColorPeriodic`, `CategoryColorNegative` and `PaletteDistinct` state its properties |
| Utils.CategoryColorPeriodic | frog-budget/src/utils/index.ts:132-147 | For a non-negative index the colour cycles through the ten chart colours |
| Utils.CategoryColorNegative | frog-budget/src/utils/index.ts:145-147 | A negative index yields no colour unless it is a multiple of 10 |
| Utils.PaletteDistinct | frog-budget/src/utils/index.ts:132-147 | Any ten consecutive non-negative indices get ten different colours |
| Utils.Cn | frog-budget/src/utils/index.ts:195-197 | No contract of its own: the truthy arguments joined by spaces. `CnWords`, `CnNothingTruthy` and `CnIgnoresFalsy` state its properties |
| Utils.CnWords | frog-budget/src/utils/index.ts:195-197 | The words of the class string are the truthy class values, in order, none empty |
| Utils.CnNothingTruthy | frog-budget/src/utils/index.ts:195-197 | Without a truthy value the class string is empty |
| Utils.CnIgnoresFalsy | frog-budget/src/utils/index.ts:195-197 | Dropping falsy values first does not change the class string |
| Utils.CsvContent | frog-budget/src/utils/index.ts:150-167 | There is content exactly when there is data |
| Utils.RowFieldsAt | frog-budget/src/utils/index.ts:155-165 | Field i of a row is the escaped text of the row's value for header i |
| Utils.UndoubleDouble | frog-budget/src/utils/index.ts:162 | Doubling the quotes can be undone |
| Utils.EscapeField | frog-budget/src/utils/index.ts:158-164 | No contract of its own: a field quoted, with its quotes doubled, when it holds a comma or a quote. `EscapeFieldRoundTrip` shows it changes exactly those fields and can be undone |
| Utils.EscapeFieldRoundTrip | frog-budget/src/utils/index.ts:158-164 | A field is changed by escaping exactly when it holds a comma or a quote, and un-escaping restores it |
| Utils.RowLineSingle | frog-budget/src/utils/index.ts:155-166 | Values without newlines give a row line without newlines |
| Utils.CsvLines | frog-budget/src/utils/index.ts:150-167 | For single-line values the content's lines are the header line followed by one line per row, in order |
| Utils.RowObjects | frog-budget/src/utils/index.ts:184-191 | One object per data line, each built from the headers and that line |
| Utils.RowObjectShape | frog-budget/src/utils/index.ts:184-191 | An object's keys are exactly the headers, and a header that is not repeated later maps to its own column's cell |
| Utils.ObjectLastWins | frog-budget/src/utils/index.ts:187-189 | With repeated headers the last column of that name wins |
| Utils.ParseCsv | frog-budget/src/utils/index.ts:178-192 | No contract of its own: `parseCSV`. Its shape is `ParseCsvShape` and `ParseCsvSingleLine` |
| Utils.ParseCsvShape | frog-budget/src/utils/index.ts:178-192 | Fewer than two lines give no rows; otherwise one object per line after the header line |
| Utils.ParseCsvSingleLine | frog-budget/src/utils/index.ts:179-180 | Text that is one line after trimming gives no rows |
| CsvImport.LineFields | src/App.tsx:385-401 | A line always yields at least one field |
| CsvImport.SplitLine | src/App.tsx:385-401 | The character loop over a line returns exactly the fields `LineFields` |
| CsvImport.ScanInvariant | src/App.tsx:390-399 | After n characters the scanner is in quotes exactly when it has seen an odd number of quotes. It has closed one field per comma outside quotes, and every field holds no quote and is trimmed |
| CsvImport.FieldCount | src/App.tsx:385-401 | A line has one more field than it has commas outside quotes |
| CsvImport.FieldsClean | src/App.tsx:390-400 | No field holds a quote character and every field is trimmed |
| CsvImport.FieldsWithoutQuotes | src/App.tsx:385-401 | For a line without quotes the fields are the comma-split parts, trimmed |
| CsvImport.ParseCsvText | src/App.tsx:383-404 | One row per line of the trimmed text |
| CsvImport.ParsedFile | src/App.tsx:383-404 | Each row is the fields of its line; the first row gives the headers and the rest the data |
| CsvImport.NormalizeDate | src/App.tsx:363-374 | No contract of its own: the stored form a CSV date is compared with. `NormalizeStoredDate`, `NormalizeSlashDate`, `NormalizeSlashParts` and `NormalizeTimestamp` state what it does |
| CsvImport.IsDuplicatePurchase | src/App.tsx:360-381 | No contract of its own: some stored purchase has the same lower-cased, trimmed name, an amount within 0.01 and the normalised date. `StoredPurchaseIsDuplicate` and `NewNameIsNoDuplicate` state both directions of its use |
| CsvImport.StoredPurchaseIsDuplicate | src/App.tsx:360-381 | A stored purchase is a duplicate of itself whenever the date normalises to its stored date |
| CsvImport.NewNameIsNoDuplicate | src/App.tsx:361-380 | A name that, lower-cased and trimmed, matches no stored purchase is never a duplicate |
| CsvImport.NormalizeStoredDate | src/App.tsx:363-374 | A stored `YYYY-MM-DD` date normalises to itself |
| CsvImport.NormalizeSlashDate | src/App.tsx:368-373 | `M/D/YYYY` normalises to the stored form of the same day |
| CsvImport.NormalizeSlashParts | src/App.tsx:368-373 | Three slash-separated parts normalise to year, padded month and padded day |
| CsvImport.NormalizeTimestamp | src/App.tsx:366-367 | An ISO timestamp normalises to its date part |
| CsvImport.FindHeader | src/App.tsx:438-446 | The result is -1 or the first header from the start position that passes the test |
| CsvImport.Column | src/App.tsx:438-450 | Empty when no header passes, otherwise the first header that passes |
| CsvImport.ColumnFromHeaders | src/App.tsx:438-450 | A detected column is empty or one of the headers; when the empty name fails the test, it is empty exactly when no header passes |
| CsvImport.EmptyHeaderFails | src/App.tsx:449-450 | The empty header matches no keyword test |
| CsvImport.DateColumn | src/App.tsx:438-446 | No contract of its own: `findDateColumn`. `DateColumnPriority` and `DateColumnFound` state its order of preference and when it finds a column |
| CsvImport.DetectColumns | src/App.tsx:420-458 | No contract of its own: the column mapping guessed for a format. `DetectedColumnsAreHeaders` and `AmazonColumnsExact` state its properties |
| CsvImport.DateColumnPriority | src/App.tsx:438-446 | A transaction-date header wins, then a trans-date header |
| CsvImport.DateColumnFound | src/App.tsx:438-446 | A date column is found exactly when some header contains "date", and then it contains "date" |
| CsvImport.DetectedColumnsAreHeaders | src/App.tsx:420-458 | Every detected column is empty or one of the headers |
| CsvImport.AmazonColumnsExact | src/App.tsx:426-434 | For Amazon exports each column is found exactly when a header equals its expected name ignoring case, and is then that header |
| CsvImport.IndexOf | src/App.tsx:507-509 | The result is -1 or the first position of the header |
| CsvImport.AmountText | src/App.tsx:512-513 | The amount's text has no dollar sign or comma and is never empty |
| CsvImport.ParsedAmount | src/App.tsx:512-515 | A parsed amount is never negative |
| CsvImport.PreviewOf | src/App.tsx:517-536 | A row is previewed exactly when it is kept; the item is selected, in the first category, carries the row's name and parsed amount |
| CsvImport.CollectPreview | src/App.tsx:505-543 | Every item comes from its own row, and the items follow row order |
| CsvImport.CollectComplete | src/App.tsx:517-523 | Every kept row appears in the preview |
| CsvImport.Preview | src/App.tsx:505-543 | No contract of its own: empty without data or a complete mapping, otherwise the collected items; `PreviewRows` states exactly which rows it holds |
| CsvImport.PreviewRows | src/App.tsx:505-543 | No preview without data or any of the date, name and amount columns; otherwise exactly the kept rows, in order. Each item is selected, in the first category, named, not a credit, with a positive amount when parsed |
| CsvImport.ToggleItem | src/App.tsx:634-638 | No contract of its own: flips the selection of the items of one row; `ToggleItemEffect` and `ToggleItemTwice` state its effect |
| CsvImport.ChangeCategory | src/App.tsx:628-632 | No contract of its own: moves the items of one row to a category; `ChangeCategoryKeepsCounts` states its effect |
| CsvImport.ToggleAll | src/App.tsx:640-643 | No contract of its own: selects all unless all are selected, then deselects all; `ToggleAllEffect` and `ToggleAllTwice` state its effect |
| CsvImport.ToggleItemTwice | src/App.tsx:634-638 | Toggling an item twice restores the preview |
| CsvImport.ToggleItemEffect | src/App.tsx:634-638 | Toggling flips the selection of the items of that row and changes nothing else |
| CsvImport.ChangeCategoryKeepsCounts | src/App.tsx:628-632 | Changing a row's category changes only that row's category and keeps the selected and duplicate counts |
| CsvImport.ToggleAllEffect | src/App.tsx:640-643 | Toggle-all deselects everything when all are selected and otherwise selects everything, changing nothing else |
| CsvImport.ToggleAllTwice | src/App.tsx:640-643 | When not all are selected, toggling all twice leaves none selected |
| CsvImport.DuplicatesAmongSelected | src/App.tsx:645-646 | The duplicate count never exceeds the selected count |
| CsvImport.MdyAt | src/App.tsx:580-601 | A month-day-year pattern matches at a position exactly when 1–2 digits, separator, 1–2 digits, separator and 4 digits start there |
| CsvImport.MdyShapeUnique | src/App.tsx:580-601 | With a non-digit separator there is at most one way to read that pattern at a position |
| CsvImport.YmdAt | src/App.tsx:580-601 | The year-month-day pattern matches exactly when 4, 2 and 2 digits with dashes start there |
| CsvImport.Search | src/App.tsx:580-601 | A match is the first position where the pattern matches; no match means it matches nowhere |
| CsvImport.PartsDate | src/App.tsx:584 | The matched parts always give a real calendar date |
| CsvImport.ImportDate | src/App.tsx:575-607 | A parsed date is always a real calendar date |
| CsvImport.SlashDateMatch | src/App.tsx:580-584 | `M/D/YYYY` matches the first pattern with the month, day and year written |
| CsvImport.ImportSlashDate | src/App.tsx:575-607 | `M/D/YYYY` of a real date imports as that date |
| CsvImport.StoredDateMatch | src/App.tsx:580-601 | `YYYY-MM-DD` has no slash and matches the year-first pattern with its parts |
| CsvImport.ImportStoredDate | src/App.tsx:575-607 | `YYYY-MM-DD` of a real date imports as that date |
| CsvImport.Attempt | src/App.tsx:567-617 | A draft has a real date and a trimmed name without quotes, and the item's amount and category |
| CsvImport.Run | src/App.tsx:567-622 | Every selected item counts as a success or a failure once; no more successes than drafts sent; every draft sent has a real date |
| CsvImport.RunAllAccepted | src/App.tsx:609-618 | When every insert succeeds, each draft sent counts as a success |
| CsvImport.Import | src/App.tsx:545-626 | No contract of its own: `handleImport`, None when it returns early, otherwise the run over the selected items; `ImportAccounts` states when it runs and what it counts |
| CsvImport.ImportAccounts | src/App.tsx:545-626 | The import runs exactly when the date, name and amount columns are set, some item is selected and every selected item has a category; it sends nothing otherwise. Successes and failures add up to the selected items |
| CsvImport.HandleImport | src/App.tsx:545-626 | The method's result and drafts sent are exactly those of `Import` |
| LegacyImport.DetectLegacyColumns | frog-budget/src/App.tsx:390-396 | Every detected column is empty or one of the headers |
| LegacyImport.DetectLegacy | frog-budget/src/App.tsx:390-396 | No contract of its own: the first client's guessed mapping. `DetectLegacyColumns`, `LegacyDateColumn` and `DetectLegacyAgrees` state its properties |
| LegacyImport.LegacyDateColumn | frog-budget/src/App.tsx:390-396 | The date column is empty exactly when no header contains "date" or "posted" |
| LegacyImport.EmptyHeaderLacksDate | frog-budget/src/App.tsx:390-396 | The empty header contains neither keyword |
| LegacyImport.DetectLegacyAgrees | frog-budget/src/App.tsx:390-396 | Apart from the date, the first client picks the same columns as the newer one for bank exports |
| LegacyImport.LegacyPreviewRows | frog-budget/src/App.tsx:402-424 | At most five samples, each from one of the first five rows and shown; with all columns set, every shown sample among them is included |
| LegacyImport.LegacyPreview | frog-budget/src/App.tsx:402-424 | No contract of its own: the shown samples of the first five rows; `LegacyPreviewRows` states which |
| LegacyImport.NotANumberOnlyInNewerPreview | frog-budget/src/App.tsx:408-418 | A row whose amount is not a number is hidden from the first client's preview but kept by the newer one when named and not a credit |
| LegacyImport.RowOutcome | frog-budget/src/App.tsx:441-487 | A row is skipped exactly when the skip rule holds; a ready draft has a real date, a trimmed name without quotes, the default category and the parsed amount |
| LegacyImport.LegacyRun | frog-budget/src/App.tsx:441-492 | Every row is a success, a failure or a skip once; every draft sent has a real date and the default category |
| LegacyImport.SkippedRows | frog-budget/src/App.tsx:443-446 | The number skipped is the number of rows the skip rule matches |
| LegacyImport.Import | frog-budget/src/App.tsx:426-495 | No contract of its own: `handleImport` of the first client; `ImportAccounts` states when it runs and what it counts |
| LegacyImport.ImportAccounts | frog-budget/src/App.tsx:426-495 | The import runs exactly when the date, name, amount and default category are set. Successes, failures and skipped rows add up to the rows, and drafts sent have real dates in the default category |
| LegacyImport.HandleImport | frog-budget/src/App.tsx:426-495 | The method's result and drafts sent are exactly those of `Import` |
| PurchaseList.Listed | src/App.tsx:1574-1597 | The list is a permutation of the matching purchases and is ordered by the chosen key in the chosen direction |
| PurchaseList.Matches | src/App.tsx:1575-1579 | No contract of its own: the search term occurs in the name ignoring case, and the category filter, when set, is the purchase's category. `ListedExactly` and `SearchIgnoresCase` state its role |
| PurchaseList.ListedExactly | src/App.tsx:1574-1579 | A purchase is listed exactly when it is stored and matches the search and category filter |
| PurchaseList.ListedAll | src/App.tsx:1574-1579 | Without search or filter every purchase is listed as often as it is stored |
| PurchaseList.SearchIgnoresCase | src/App.tsx:1576 | The case of the search term does not change the result |
| PurchaseList.NewestFirst | src/App.tsx:1580-1597 | Sorting newest first lists the later day first |
| Forms.NotesOrNull | src/App.tsx:976 | Empty notes are sent as null and any other notes as given |
| Forms.SubmitPurchase | src/App.tsx:965-986 | Rejected with the amount message exactly when the amount is not a non-negative number. Otherwise it edits exactly when a purchase is being edited, with the form's fields and the parsed amount |
| Forms.SubmitCategory | src/App.tsx:1152-1173 | Rejected with the percentage message exactly when the percentage is not in [0, 100]. Otherwise it edits or creates, and a new category also gets order 999 and is active |
| Forms.SubmitWishlist | src/App.tsx:1311-1332 | Rejected exactly when the amount is not a non-negative number; otherwise it edits or creates with the form's fields and priority |
| Forms.FormDuplicateIsImportDuplicate | src/App.tsx:926-931 | The form's duplicate warning for a stored-form date is the import's duplicate test, for new, filled-in forms |

## Left out

- Clocks are not modelled: `new Date()` becomes the `today` and `now` parameters. The storage and service calls behind the stores and dialogs, file reading, `localStorage`, and the DOM download of `exportToCSV` are left out as I/O. `generateId` (randomness) and `debounce` (timers) are left out too.
- Time zones are not modelled. Dates are whole calendar days, so the UTC shift of `toISOString` is left out. So is the time-of-day part of `getWeekStart`: the week starts on the Sunday on or before today.
- Floating point is not modelled. Amounts are reals, so rounding and `toFixed` text are outside the model. An alert's message is a value naming the amount or percentage (`OverBudgetBy`, `AtPercent`, `LargePurchaseOf`), not the formatted sentence.
- `parseFloat` and `Number` are left out as number parsers. `parseFloat` is an input function. Month keys are read as digits only, with an optional sign and plain trim.
- `trim` and `toLowerCase` cover ASCII only: the ASCII blanks and the letters A–Z.
- Hooks.UseAnalytics: the newer hook calls a newer analytics engine (`src/services/analytics.ts`), which is not part of this model. The older engine of `Analytics` stands in for it. So the newer hook's budgets, alerts and projections are the older engine's. The newer engine's rollover budgets, its pace-warning alerts and its `enableRollover` switch are not modelled. The rollover figures the hook totals come from an input function from category to rollover figures.
- The gray fall-back colours of `getStatusColor` and its siblings are left out: the status type cannot reach them.
- Utils.CsvLines: holds only for values without newlines. `exportToCSV` does not quote newlines, so a value with one breaks the line structure.
- Common.SortByKey: is a permutation ordered by the key. Stability for equal keys is not stated.
- PurchaseList.Listed: a purchase date that is not a real day sorts as day 0.
- CsvImport.HandleImport: the branch for strings with both `T` and `Z` at src/App.tsx:575-578 is covered by the date patterns that follow. The UTC conversion of the resulting date is not modelled.
- CsvImport.NormalizeDate: for a string holding both `T` and `Z`, the source parses it with `new Date` and prints it with `toISOString`. The model takes the text before the first `T`. It does not model the `RangeError` that `toISOString` throws when such a string does not parse (for instance "TZ"). That error aborts the preview. The model also does not re-format a parseable but non-canonical timestamp.
- Analytics.OnDay: `isSameDay` prints both dates with `toISOString`, which throws for a stored date that does not parse. The model's stored dates are calendar triples, and a triple that is not a real day just matches no day. The same holds for the week, month and year windows, where `new Date(p.date)` of such a date compares false.
- `isValidEmail` and the form components' rendering are left out as UI. The category form's color picker is an input.
- `isValidAmount` is the same acceptance rule as `Forms.ValidAmount`.
- In the first client, `parseCSV` is the same function as in the newer one, and `LegacyImport` reuses `CsvImport.ParseCsvText`.
