# Pocket Financier — a Dafny model of the stores and the page arithmetic

Pocket Financier is a browser-only personal-finance application. A signed-in
user records income and expense transactions. Each transaction has an amount,
a description, a category and a YYYY-MM-DD date. The user sees them
aggregated four ways:

- a month dashboard: totals, a per-category breakdown, the daily expense bars
  and the five latest entries;
- a reports page: a 1-, 3-, 6- or 12-month window with a savings rate, an
  expense pie and a month-by-month trend;
- a budget page: per-category monthly limits with a utilisation bar and
  suggested caps;
- a filterable transaction list.

The model covers:

- **The transaction and category store** (module `TransactionsContext`).
  - The reducer is a function on a `State` datatype.
  - The load effect reads a signed-in user's list and the shared categories
    from the browser's key-value store. When no categories are stored, it
    seeds the eleven defaults.
  - The save effects write the signed-in user's list back, and the
    categories whether or not anyone is signed in.
  - The provider is a class whose methods run the add, update and delete
    helpers, followed by the save effects as written. The clock reading
    that becomes a new id is a parameter.
- **The session** (module `AuthContext`).
  - The reducer keeps `isAuthenticated` in step with the user.
  - `login` checks the demo account before the registry of accounts.
  - `register` refuses a known email.
  - The provider is a class over the registry and the stored session.
- **Theme selection** (module `ThemeContext`): the initial choice from the
  stored value or the system preference, the toggle, and the guard on system
  changes.
- **The reports page** (module `ReportsPage`).
  - The look-back window and the filter by date.
  - Amounts are coerced from text to numbers.
  - The summary and savings rate.
  - The expense pie, sorted by value.
  - The zero-filled month buckets. Their loop is a method proved against
    bucket sums.
- **The dashboard** (module `DashboardPage`).
  - The month filter and the summary.
  - The per-category data, with each kind's fallback colour.
  - The five most recent transactions.
  - The balance colour.
  - The day-by-day expense series, matched on a `YYYY-MM-DD` prefix.
- **The budget page** (module `BudgetPage`).
  - The month's expenses per category.
  - The capped percentage, the 70/90 status thresholds, and the
    exceeded/remaining line.
  - The unbudgeted categories and the round-up-to-100 suggestion.
  - The budget list, which is a class with `seq` state, with add, merge-update
    and delete.
- **The month cursor** shared by the dashboard and the budget page (module
  `MonthCursor`). It comes in two forms: `Date.setMonth` as written, and the
  calendar step the pages intend.
- **The transaction list** (module `TransactionList`).
  - Case-insensitive search, the category and type filters, and the
    newest-first sort.
  - The reset.
  - The add/edit modal decision.
- **The transaction form** (module `TransactionForm`).
  - The defaults and the field rules.
  - The add-or-update submission, which uses the kind from the toggle.
- **The category section of the settings page** (module `SettingsPage`).

Some modules are shared by all of the above:

- `Dates`: date triples, month arithmetic, and the ISO 8601 calendar-date text
  form of section 4.1.2.2 of ISO 8601:2004, with a proved round trip;
- `Amounts`: an amount is a number or text, with decimal parsing;
- `Records`: transactions and categories;
- `Folds`: filters and sums;
- `Grouping`: the per-key totals that `reduce` builds into a
  `Record<string, number>`;
- `Sorting`: a descending insertion sort.

Each page keeps its own version of the arithmetic, as the application does:

- The reports page reads text amounts as numbers, and unparsable text as 0.
- The dashboard and the budget page add with `+`. They are modelled on
  all-numeric lists only. The transaction form stores every amount as
  text, so these models cover no list a user can build through the
  application; they describe the pages' arithmetic on numbers.
- The colour fallbacks differ between pages.

## Model

| member | source | states |
|---|---|---|
| TransactionsContext.ReplaceById | src/context/TransactionsContext.tsx:78-84 | length and order kept; every entry carrying the payload's id becomes the payload, every other entry is unchanged; an absent id leaves the list equal |
| TransactionsContext.RemoveById | src/context/TransactionsContext.tsx:85-91 | an order-keeping subsequence holding exactly the entries whose id differs; its length drops by the number of entries carrying the id; an absent id leaves the list equal |
| TransactionsContext.Reduce | src/context/TransactionsContext.tsx:65-116 | add prepends (head is the payload, tail the old list); update and delete are ReplaceById/RemoveById; add-category appends; fetches replace; loading and error actions as in the switch; transaction actions never touch categories and category actions never touch transactions; an unknown action returns the state |
| TransactionsContext.AddThenDelete | src/context/TransactionsContext.tsx:181-191 | with a fresh id, adding a transaction and deleting that id restores the previous state exactly |
| TransactionsContext.DefaultCategoriesShape | src/context/TransactionsContext.tsx:238-250 | eleven defaults with ids "1".."11", the first seven for expenses and the last four for income, no name repeated |
| TransactionsContext.Load | src/context/TransactionsContext.tsx:124-166 | no user: the list is emptied; unparsable user data: the error is set and nothing else; stored list: it replaces the list; missing list: the list is kept; stored categories are used, missing ones become the defaults, unparsable ones set the error |
| TransactionsContext.SeedStorage | src/context/TransactionsContext.tsx:144-151 | only an empty categories key changes, to the defaults, and then the store holds exactly the categories the load put on screen |
| TransactionsContext.PersistAsWritten | src/context/TransactionsContext.tsx:168-178 | the user's list is written under their key and every other user's key is kept; the categories are written whether or not a user is signed in |
| TransactionsContext.Persist | src/context/TransactionsContext.tsx:168-178 | with the categories guarded like the transactions: nothing is written without a user; with one, both lists are written and other users' keys are untouched |
| TransactionsContext.MountThenSignInAsWritten | src/context/TransactionsContext.tsx:124-178 | as written, mounting with no user and then signing in always shows an empty category list |
| TransactionsContext.FirstVisitHasNoCategories | src/context/TransactionsContext.tsx:144-151 | as written, on a first visit the default categories never reach the state |
| TransactionsContext.MountThenSignIn | src/context/TransactionsContext.tsx:124-178 | with guarded saves, mounting leaves the store unchanged and signing in shows the stored list (or none) and the stored categories (or the defaults) |
| TransactionsContext.SignOutThenInIsolated | src/context/TransactionsContext.tsx:152-155 | signing out and then in as a user shows exactly that user's stored list, whatever was shown before |
| TransactionsContext.TransactionsProvider.constructor | src/context/TransactionsContext.tsx:119-178 | mounting with no user: the initial state, the stored transactions untouched, and the categories key overwritten with the empty initial list, as the unguarded effect at 176-178 does |
| TransactionsContext.TransactionsProvider.SetUser | src/context/TransactionsContext.tsx:124-178 | a change of user runs the load effect and then the save effects as written; afterwards the store holds the categories on screen and the signed-in user's list; no other user's list changes |
| TransactionsContext.TransactionsProvider.AddTransaction | src/context/TransactionsContext.tsx:181-191 | the draft, given the new id, is prepended; the user's list and the categories are saved; no other user's list changes |
| TransactionsContext.TransactionsProvider.UpdateTransaction | src/context/TransactionsContext.tsx:194-199 | the update action, then the save effects as written; no other user's list changes |
| TransactionsContext.TransactionsProvider.DeleteTransaction | src/context/TransactionsContext.tsx:202-207 | the delete action, then the save effects as written; no other user's list changes |
| TransactionsContext.TransactionsProvider.AddCategory | src/context/TransactionsContext.tsx:210-220 | the draft, given the new id, is appended; the categories (and the user's list) are saved; no other user's list changes |
| AuthContext.Reduce | src/context/AuthContext.tsx:46-78 | LOGIN sets the user, the flag, clears loading and error; LOGOUT clears all four; SET_LOADING changes only loading; SET_ERROR sets the error, clears loading and leaves the user; others return the state; the flag-user agreement is preserved |
| AuthContext.ReachableConsistent | src/context/AuthContext.tsx:38-78 | from the initial state, every action sequence keeps `isAuthenticated` equal to "a user is present" |
| AuthContext.ConsistentFrom | src/context/AuthContext.tsx:46-78 | from any state where the flag agrees with the user, every action sequence keeps them agreeing |
| AuthContext.Registered | src/context/AuthContext.tsx:103-106 | a missing registry reads as empty, a stored one as itself; unparsable text fails |
| AuthContext.LoginOutcome | src/context/AuthContext.tsx:109-147 | the demo pair always signs in as the demo user; any other pair succeeds exactly when the registry holds the email with that password, giving the record's id, name and email; otherwise "Invalid email or password", or "Login failed" when the registry does not parse |
| AuthContext.RegisterOutcome | src/context/AuthContext.tsx:150-189 | fails exactly when the email is known ("Email already registered") or the registry does not parse ("Registration failed"), leaving the registry;  otherwise the registry gains exactly that email with the new record, other entries unchanged, and the session user carries the record's id |
| AuthContext.RegisterThenLogin | src/context/AuthContext.tsx:154-182 | after a successful registration with a non-demo pair, logging in with the same pair yields the same user |
| AuthContext.DemoShadowsRegistration | src/context/AuthContext.tsx:114-124 | the demo pair signs in as the demo user even when an account with the demo email was registered |
| AuthContext.AuthProvider.constructor | src/context/AuthContext.tsx:81-82 | the initial state over the given registry and stored session |
| AuthContext.AuthProvider.CheckAuth | src/context/AuthContext.tsx:85-100 | a stored session signs in, anything else signs out; authenticated exactly when a session was stored |
| AuthContext.AuthProvider.Login | src/context/AuthContext.tsx:109-147 | the outcome of LoginOutcome: on success the session is stored and LOGIN dispatched, otherwise the error is set and the user kept |
| AuthContext.AuthProvider.Register | src/context/AuthContext.tsx:150-189 | the outcome of RegisterOutcome: on success the registry and session are stored and LOGIN dispatched, otherwise the error is set |
| AuthContext.AuthProvider.Logout | src/context/AuthContext.tsx:192-195 | the stored session is removed and LOGOUT dispatched |
| ThemeContext.ThemeName | src/context/ThemeContext.tsx:3 | a theme's stored name is "light" or "dark" |
| ThemeContext.InitialTheme | src/context/ThemeContext.tsx:14-28 | a stored "light"/"dark" wins; otherwise dark exactly when the system query exists and prefers dark |
| ThemeContext.InitialThemeReadsBack | src/context/ThemeContext.tsx:16-19 | a stored theme name reads back as that theme whatever the system prefers |
| ThemeContext.Toggle | src/context/ThemeContext.tsx:54-56 | the toggle always changes the theme |
| ThemeContext.ToggleTwice | src/context/ThemeContext.tsx:54-56 | toggling twice restores the theme |
| ThemeContext.SystemChanged | src/context/ThemeContext.tsx:43-48 | a system change is applied exactly when nothing is stored, and stores nothing |
| ThemeContext.MountAsWritten | src/context/ThemeContext.tsx:30-37 | as written, mounting picks the initial theme and the effect then stores it |
| ThemeContext.SystemChangeIgnoredAsWritten | src/context/ThemeContext.tsx:33-47 | as written, after mounting every system change is ignored |
| ThemeContext.SystemTurnsDarkAsWritten | src/context/ThemeContext.tsx:43-47 | as written, with nothing stored and a light system at load, switching the system to dark leaves the theme light |
| ThemeContext.Mount | src/context/ThemeContext.tsx:30-37 | intended: mounting picks the initial theme and leaves the stored value as it was |
| ThemeContext.Toggled | src/context/ThemeContext.tsx:54-56 | a toggle flips the theme and stores it |
| ThemeContext.SystemChangeFollowed | src/context/ThemeContext.tsx:43-47 | intended: with nothing stored, a system change after mounting sets the theme to what the system now prefers |
| ThemeContext.ToggledThenSystemIgnored | src/context/ThemeContext.tsx:45-47 | once the user has toggled, system changes are ignored |
| ThemeContext.ThemeProvider.constructor | src/context/ThemeContext.tsx:30-37 | as written: the initial theme, which the effect then stores, so the key is set from mounting on |
| ThemeContext.ThemeProvider.ToggleTheme | src/context/ThemeContext.tsx:54-56 | the theme flips and is stored |
| ThemeContext.ThemeProvider.OnSystemChange | src/context/ThemeContext.tsx:43-48 | the SystemChanged step; with a stored theme nothing changes |
| Dates.DaysInMonth | src/pages/Dashboard.tsx:117 | 28 to 31 days, 29 exactly in February of a leap year |
| Dates.AddMonths | src/pages/Reports.tsx:30-36 | a valid month exactly k months on in the linear month count |
| Dates.InMonthWindow | src/pages/Dashboard.tsx:21-30 | a valid date lies between the first and last day of a month exactly when it is in that month |
| Dates.ParseFormat | src/components/transactions/TransactionForm.tsx:22 | a valid date written as YYYY-MM-DD parses back to itself |
| Dates.FormatParse | src/pages/Reports.tsx:48 | text that parses is exactly the YYYY-MM-DD form of its date |
| Dates.ParseIsoIff | src/pages/Reports.tsx:48 | text parses to a date exactly when it is that valid date's YYYY-MM-DD form |
| Dates.DateKeyMonotone | src/components/transactions/TransactionList.tsx:38 | the time key orders valid dates chronologically, both ways |
| Dates.MonthKeyInjective | src/pages/Reports.tsx:120 | two months share the `year-monthIndex` key exactly when they are the same month |
| Amounts.ParseFloat | src/pages/Reports.tsx:65 | a leading minus negates the unsigned reading; a bare minus, a bare point or empty text is NaN |
| Amounts.ParseFloatDigits | src/pages/Reports.tsx:65 | digits without a point read as their value, leading zeros included |
| Amounts.ParseFloatPoint | src/pages/Reports.tsx:65 | digits, a point and digits read as the whole part plus the fraction, with either side allowed to be empty |
| Amounts.ParseFloatMinus | src/pages/Reports.tsx:65 | a minus sign before any numeral negates its reading |
| Amounts.ParseFloatCents | src/pages/Reports.tsx:65 | "12.50" reads as 12.5 |
| Amounts.ParseFloatLeadingPoint | src/pages/Budget.tsx:250 | ".5" reads as 0.5 |
| Amounts.ParseFloatThousandth | src/pages/Reports.tsx:65 | ".001" reads as 0.001 |
| Amounts.ParseFloatThreeDigits | src/pages/Reports.tsx:65 | "12.555" reads as 12.555 |
| Amounts.ParseFloatDecimal | src/pages/Reports.tsx:91-93 | a whole number's decimal text reads back as that number |
| Amounts.ParseFloatNegative | src/pages/Reports.tsx:91-93 | a negative whole number's text reads back negated |
| Records.OfType | src/pages/Reports.tsx:63-64 | the transactions of one kind, every copy of each and nothing else |
| Records.IncomeExpenseSplit | src/pages/Reports.tsx:62-76 | the income sum and the expense sum add up to the sum over all transactions |
| Records.DatedWithin | src/pages/Reports.tsx:47-50 | an order-keeping subsequence holding exactly the transactions whose date parses into the window, each with all its copies |
| Records.CategoriesFor | src/components/transactions/TransactionForm.tsx:41-43 | an order-keeping subsequence holding exactly the categories of type 'both' or the chosen kind, each with all its copies |
| Records.FindCategory | src/pages/Reports.tsx:104 | the first category with that name, or none exactly when no category has it |
| Folds.FilterCount | src/pages/Reports.tsx:63-65 | `Array.prototype.filter` keeps every copy of a kept element and drops every copy of the rest |
| Folds.Partition | src/pages/Reports.tsx:127-143 | buckets over distinct keys that cover every element add up to the whole sum |
| Grouping.GroupSum | src/pages/Reports.tsx:87-100 | one entry per distinct key of the list, each holding the sum over the elements with that key |
| Grouping.GroupSumTotal | src/pages/Reports.tsx:87-100 | the group totals add up to the total of the list |
| Sorting.SortDesc | src/pages/Reports.tsx:110 | a permutation of the list, sorted by key non-increasing |
| Sorting.SortKeepsSum | src/pages/Reports.tsx:110 | sorting does not change a sum over the elements |
| Sorting.SortKeepsDistinct | src/pages/Reports.tsx:110 | sorting a list whose names are distinct keeps them distinct |
| Sorting.SortedPrefix | src/pages/Dashboard.tsx:103-105 | the first k of the sorted list are drawn from the list, sorted, and no element left out has a larger key |
| ReportsPage.GetDateRange | src/pages/Reports.tsx:20-43 | the window ends on the last day of the current month and starts on the first day of the month 0/2/5/11 months back |
| ReportsPage.InDateRange | src/pages/Reports.tsx:45-50 | a valid date is in the window exactly when its month is one of the window's months |
| ReportsPage.CoerceText | src/pages/Reports.tsx:65 | a text numeral counts as the number it spells: digits, or digits with a point and a fraction, with or without a minus sign |
| ReportsPage.CoerceUnparsable | src/pages/Reports.tsx:65 | a text amount that is not a numeral counts as 0 |
| ReportsPage.Summarize | src/pages/Reports.tsx:62-84 | income and expense are the coerced sums over their kinds and add up to the total; balance is their difference; the savings rate is balance/income·100 when income is positive, else 0 |
| ReportsPage.ExpensesByCategory | src/pages/Reports.tsx:87-100 | one entry per expense category present, each holding that category's coerced expense sum |
| ReportsPage.Slices | src/pages/Reports.tsx:103-109 | one slice per entry, in order, with the entry's name and value and the category colour |
| ReportsPage.ExpensePieData | src/pages/Reports.tsx:103-110 | the slices sorted by value non-increasing, names distinct, a permutation of the unsorted slices, values summing to the summary's expense |
| ReportsPage.PieSlice | src/pages/Reports.tsx:103-109 | each slice holds its category's expense sum and that category's colour or '#FF5630' |
| ReportsPage.PieNames | src/pages/Reports.tsx:87-110 | there is a slice for a name exactly when some expense in the window has that category |
| ReportsPage.FindMonth | src/pages/Reports.tsx:130 | the position of the first bar with the key, or none exactly when no bar has it |
| ReportsPage.Credit | src/pages/Reports.tsx:132-141 | only the found bar changes: income goes to its income, anything else to its expense |
| ReportsPage.DistinctMonthKeys | src/pages/Reports.tsx:113-125 | consecutive month bars carry distinct keys |
| ReportsPage.BucketStep | src/pages/Reports.tsx:127-143 | crediting one more transaction keeps each bar equal to its month's bucket sums so far |
| ReportsPage.GetMonthlyData | src/pages/Reports.tsx:113-146 | one bar per month of the window, in order, with distinct keys, each holding the income and expense bucket sums of its month |
| ReportsPage.MonthlyTotals | src/pages/Reports.tsx:127-143 | when every transaction lies in the window, the bars add up to the summary's income and expense |
| ReportsPage.PageMonthlyTotals | src/pages/Reports.tsx:46-146 | the page's own trend adds up to its summary |
| DashboardPage.MonthTransactions | src/pages/Dashboard.tsx:21-32 | an order-keeping subsequence holding exactly the transactions dated in the shown month, each with all its copies |
| DashboardPage.InShownMonth | src/pages/Dashboard.tsx:27-32 | a transaction is shown exactly when it is in the list and its date parses to a day of the shown month |
| DashboardPage.Summarize | src/pages/Dashboard.tsx:35-47 | income and expenses are the sums over their kinds and add up to the total; balance is income minus expenses |
| DashboardPage.DatumColor | src/pages/Dashboard.tsx:75-84 | the named category's colour, else '#36B37E' for income and '#FF5630' for expense |
| DashboardPage.ToData | src/pages/Dashboard.tsx:74-85 | one datum per entry, in order, with its name, value and colour |
| DashboardPage.GetCategoryData | src/pages/Dashboard.tsx:62-86 | names distinct, each value the sum of that category's transactions of the kind, colour by DatumColor, values summing to the kind's total |
| DashboardPage.CategoryDataNames | src/pages/Dashboard.tsx:62-74 | there is a datum for a name exactly when a transaction of that kind carries the category |
| DashboardPage.CategoryDataTotals | src/pages/Dashboard.tsx:35-51 | the income and expense breakdowns add up to the summary's income and expenses |
| DashboardPage.Recent | src/pages/Dashboard.tsx:103-105 | min(5, n) entries drawn from the month, newest first, none left out later than one kept |
| DashboardPage.RecentChronological | src/pages/Dashboard.tsx:103-105 | the recent list runs from the latest date backwards |
| DashboardPage.BalanceColor | src/pages/Dashboard.tsx:108-112 | accent exactly when the balance is positive, error exactly when negative, neutral exactly when zero |
| DashboardPage.DayStrIsIso | src/pages/Dashboard.tsx:122 | the day string built with `padStart` is the YYYY-MM-DD form of that day |
| DashboardPage.DailyExpenseData | src/pages/Dashboard.tsx:115-132 | one bar per day of the month, labelled "1".."n" in order, each the sum of expenses whose date starts with that day's string |
| DashboardPage.DayWithoutExpenses | src/pages/Dashboard.tsx:123-125 | a day no expense starts with has a bar of 0 |
| DashboardPage.DailyBar | src/pages/Dashboard.tsx:121-130 | each bar is the expense bucket sum of the shown month's transactions dated that day |
| DashboardPage.DailyTotals | src/pages/Dashboard.tsx:115-132 | the daily bars add up to the month's expenses |
| MonthCursor.SetMonth | src/pages/Dashboard.tsx:93-98 | `Date.setMonth`: the day is kept when the target month has it; otherwise the date rolls into the following month by the excess days |
| MonthCursor.ChangeMonthAsWritten | src/pages/Dashboard.tsx:92-100 | as written, the cursor always stays a date with a month of 1-12 and a day of 1-31; where it lands is the SetMonth rule |
| MonthCursor.ChangeMonthEarlyDays | src/pages/Dashboard.tsx:92-100 | from a day up to the 28th, the cursor moves exactly one month |
| MonthCursor.NextSkipsFebruaryAsWritten | src/pages/Dashboard.tsx:96-98 | from 31 January 2025, "next" lands on 3 March and February is skipped |
| MonthCursor.PrevStaysAsWritten | src/pages/Budget.tsx:120-121 | from 31 March 2025, "prev" lands on 3 March and the month does not change |
| MonthCursor.ChangeMonth | src/pages/Budget.tsx:118-126 | intended: the month cursor moves exactly one month back or forward |
| MonthCursor.ChangeMonthCalendar | src/pages/Budget.tsx:118-126 | intended: the step agrees with the calendar's neighbouring month, across year ends |
| MonthCursor.ChangeMonthUndo | src/pages/Dashboard.tsx:92-100 | intended: "next" then "prev", and "prev" then "next", return to the same month |
| BudgetPage.MonthExpenses | src/pages/Budget.tsx:33-45 | an order-keeping subsequence holding exactly the expenses dated in the shown month, each with all its copies |
| BudgetPage.ExpensesByCategory | src/pages/Budget.tsx:48-57 | one entry per category present, each holding that category's sum; the entries add up to the month's expenses |
| BudgetPage.Percentage | src/pages/Budget.tsx:275 | never above 100; finite whenever the limit is non-zero; non-negative for a positive limit and spending; with a zero limit, NaN exactly when nothing was spent, 100 when something was, minus infinity for negative spending |
| BudgetPage.StatusColor | src/pages/Budget.tsx:277-282 | error exactly at 90 or above, warning exactly from 70 to below 90, accent otherwise (including NaN) |
| BudgetPage.StatusThresholds | src/pages/Budget.tsx:275-282 | for a positive limit: error exactly when spending reaches 90% of it, warning from 70% to below 90%, accent below 70% |
| BudgetPage.StandingOf | src/pages/Budget.tsx:395-402 | "exceeded" exactly when spending is above the limit, by the uncapped difference; otherwise the non-negative remainder |
| BudgetPage.ExceededIsFull | src/pages/Budget.tsx:275-282 | an exceeded positive limit shows 100% and the error colour |
| BudgetPage.SpendingOfBudget | src/pages/Budget.tsx:273 | a budget's spending is its category's expense sum, and 0 when the month has none |
| BudgetPage.Unbudgeted | src/pages/Budget.tsx:444-449 | an order-keeping subsequence of the entries holding exactly those no budget names |
| BudgetPage.UnbudgetedCovers | src/pages/Budget.tsx:444-450 | every expense whose category has no budget shows up among the unbudgeted entries |
| BudgetPage.Ceil | src/pages/Budget.tsx:463 | the least integer not below x |
| BudgetPage.SuggestedCap | src/pages/Budget.tsx:463 | a whole multiple of 100, not below the amount and less than 100 above it |
| BudgetPage.SuggestedCapHundreds | src/pages/Budget.tsx:463 | a multiple of 100 suggests itself; an amount above (k-1)·100 and up to k·100 suggests k·100 |
| BudgetPage.AmountInput | src/pages/Budget.tsx:250 | the parsed number (fractions included), or 0 when the text is not a number |
| BudgetPage.AmountInputFractions | src/pages/Budget.tsx:250 | ".5" enters 0.5 and "12.50" enters 12.5 |
| BudgetPage.NewBudget | src/pages/Budget.tsx:66-76 | the given id, the draft's category and amount, and the category's colour and icon where non-empty, else '#FF5630' and 'dollar-sign' |
| BudgetPage.Merge | src/pages/Budget.tsx:95 | every supplied field overrides, every other field is kept |
| BudgetPage.UpdateById | src/pages/Budget.tsx:93-97 | length kept; budgets with the id are merged with the patch, all others unchanged |
| BudgetPage.DeleteById | src/pages/Budget.tsx:102-106 | an order-keeping subsequence holding exactly the budgets whose id differs, each with all its copies |
| BudgetPage.AddThenDelete | src/pages/Budget.tsx:66-106 | with a fresh id, adding a budget and deleting that id restores the list |
| BudgetPage.UpdateThenDelete | src/pages/Budget.tsx:93-106 | an update that keeps ids, followed by a delete of that id, leaves what the delete alone leaves |
| BudgetPage.InitialBudgets | src/pages/Budget.tsx:19-22 | the stored list, or an empty one when nothing is stored |
| BudgetPage.BudgetPlanner.constructor | src/pages/Budget.tsx:18-30 | the cursor is today's date, the stored list, the blank draft, no form open |
| BudgetPage.BudgetPlanner.ChangeMonth | src/pages/Budget.tsx:118-126 | as written: the cursor date moves by `setMonth` one month either way; from the 28th or earlier its month moves exactly one month; nothing else changes |
| BudgetPage.BudgetPlanner.ChooseCategory | src/pages/Budget.tsx:227 | only the draft's category changes |
| BudgetPage.BudgetPlanner.EnterAmount | src/pages/Budget.tsx:250 | only the draft's amount changes, to AmountInput of the text |
| BudgetPage.BudgetPlanner.AddBudget | src/pages/Budget.tsx:66-90 | with a category and a positive amount: the new budget is appended and saved, the draft resets and the form closes; otherwise nothing changes |
| BudgetPage.BudgetPlanner.ToggleAdding | src/pages/Budget.tsx:193 | only the add form's visibility flips |
| BudgetPage.BudgetPlanner.SetEditing | src/pages/Budget.tsx:358 | only the budget being edited changes |
| BudgetPage.BudgetPlanner.UpdateBudget | src/pages/Budget.tsx:93-99 | the list becomes UpdateById and is saved, editing closes |
| BudgetPage.BudgetPlanner.DeleteBudget | src/pages/Budget.tsx:102-107 | when confirmed, the list becomes DeleteById and is saved; otherwise nothing changes |
| BudgetPage.BudgetPlanner.Suggest | src/pages/Budget.tsx:460-468 | the add form opens, filled with the category, the suggested cap and the fallbacks |
| TransactionList.LowerChar | src/components/transactions/TransactionList.tsx:26-28 | capital letters map to their lower-case letter, every other character is kept |
| TransactionList.Lower | src/components/transactions/TransactionList.tsx:26-28 | the same length, lowering each character |
| TransactionList.LowerIdempotent | src/components/transactions/TransactionList.tsx:26-28 | lowering twice is lowering once |
| TransactionList.IncludesEmpty | src/components/transactions/TransactionList.tsx:26-28 | every text includes the empty search term |
| TransactionList.Listed | src/components/transactions/TransactionList.tsx:23-38 | holds exactly the transactions that match all three filters, each with all its copies and nothing else, sorted newest first |
| TransactionList.SearchIgnoresCase | src/components/transactions/TransactionList.tsx:26-28 | lowering the search term does not change what matches |
| TransactionList.DefaultListsAll | src/components/transactions/TransactionList.tsx:26-36 | with the default filters the list is a permutation of all transactions |
| TransactionList.ListedChronological | src/components/transactions/TransactionList.tsx:38 | with YYYY-MM-DD dates, the list runs from the latest date backwards |
| TransactionList.FormTransaction | src/components/transactions/TransactionList.tsx:276 | the form receives a transaction exactly when the held object has more than one key, i.e. when editing |
| TransactionList.Title | src/components/transactions/TransactionList.tsx:265 | "Edit" exactly when the form receives a transaction, "Add" otherwise |
| TransactionList.TransactionListView.constructor | src/components/transactions/TransactionList.tsx:12-15 | search '', category '', type 'all', no modal |
| TransactionList.TransactionListView.SetSearch | src/components/transactions/TransactionList.tsx:100 | only the search term changes |
| TransactionList.TransactionListView.SetCategoryFilter | src/components/transactions/TransactionList.tsx:134 | only the category filter changes |
| TransactionList.TransactionListView.SetTypeFilter | src/components/transactions/TransactionList.tsx:154 | only the type filter changes |
| TransactionList.TransactionListView.ResetFilters | src/components/transactions/TransactionList.tsx:54-58 | search '', category '' and type 'all' are restored; the modal is untouched |
| TransactionList.TransactionListView.OpenForm | src/components/transactions/TransactionList.tsx:18-20 | the held object becomes the empty one (add mode), so the form gets no transaction and the title is "Add"; the modal is on screen only in the intended reading, never over the empty list as written |
| TransactionList.EmptyStateAddAsWritten | src/components/transactions/TransactionList.tsx:67-83 | as written, the held empty object shows a modal exactly when there is a transaction, so the empty state's button opens nothing |
| TransactionList.EmptyStateAdd | src/components/transactions/TransactionList.tsx:243-280 | intended: the empty state's button opens the add form; the two readings differ exactly on an empty list |
| TransactionList.TransactionListView.Edit | src/components/transactions/TransactionList.tsx:40-42 | the modal opens in edit mode with that transaction |
| TransactionList.TransactionListView.CloseForm | src/components/transactions/TransactionList.tsx:268 | the modal closes |
| TransactionForm.InitialType | src/components/transactions/TransactionForm.tsx:15 | the transaction's kind, else expense |
| TransactionForm.Defaults | src/components/transactions/TransactionForm.tsx:17-25 | an edit starts from the transaction's fields; a new form from amount 0, empty description and category, today's date and expense |
| TransactionForm.AmountError | src/components/transactions/TransactionForm.tsx:94-97 | empty text is "Amount is required"; a number, or text reading as one, below 0.01 is "Amount must be greater than 0"; nothing else fails |
| TransactionForm.AmountFractions | src/components/transactions/TransactionForm.tsx:94-97 | under the min rule alone, ".001" is too small and "12.50" passes (the browser stops ".001" first: see ThousandthBlocked) |
| TransactionForm.InputBlocked | src/components/transactions/TransactionForm.tsx:88-93 | the browser stops non-empty text that is not a number, and a number that is not a whole number of hundredths; empty text passes to the rules |
| TransactionForm.CentNumeralOnStep | src/components/transactions/TransactionForm.tsx:91 | a decimal numeral with at most two fraction digits is on the 0.01 step |
| TransactionForm.ThousandthBlocked | src/components/transactions/TransactionForm.tsx:91 | ".001" is stopped by the browser, so the minimum's message never shows for it |
| TransactionForm.HalfCentBlocked | src/components/transactions/TransactionForm.tsx:91 | "12.555" is stopped by the browser |
| TransactionForm.BadInputBlocked | src/components/transactions/TransactionForm.tsx:90 | text that is not a number is stopped by the browser |
| TransactionForm.CentsPass | src/components/transactions/TransactionForm.tsx:91 | "12.50" and ".5" pass the browser's check |
| TransactionForm.DescriptionError | src/components/transactions/TransactionForm.tsx:119-122 | passes exactly with 1 to 100 characters; empty is "Description is required", longer is "Description is too long" |
| TransactionForm.RequiredError | src/components/transactions/TransactionForm.tsx:142 | passes exactly when a value is chosen, otherwise shows its message |
| TransactionForm.ErrorsIff | src/components/transactions/TransactionForm.tsx:94-170 | no errors exactly when the amount passes, the description has 1 to 100 characters, and a category and a date are chosen |
| TransactionForm.Submit | src/components/transactions/TransactionForm.tsx:27-97 | stopped by the browser exactly when the amount is bad input or off the 0.01 step; otherwise rejected exactly when a rule fails; otherwise an edit updates with the original id, a new form adds, the kind is the toggle's, and the form closes |
| TransactionForm.ResubmitUnchanged | src/components/transactions/TransactionForm.tsx:17-39 | submitting a valid transaction's edit form untouched sends the transaction itself, unless its amount is off the step, when the browser stops it |
| TransactionForm.BlankFormRejected | src/components/transactions/TransactionForm.tsx:17-97 | an untouched new form is rejected for the amount, the description and the category |
| TransactionForm.EditLandsInPlace | src/components/transactions/TransactionForm.tsx:33-34 | a submitted edit replaces exactly the entries with the original id |
| SettingsPage.HandleAddCategory | src/pages/Settings.tsx:36-47 | the store is called exactly when the name is non-empty, with the draft; the draft then resets to '', '#3366FF', 'tag', expense and the form closes; otherwise nothing changes |
| SettingsPage.ExpenseList | src/pages/Settings.tsx:355-357 | an order-keeping subsequence holding exactly the categories of type 'expense' or 'both', each with all its copies |
| SettingsPage.IncomeList | src/pages/Settings.tsx:379-381 | an order-keeping subsequence holding exactly the categories of type 'income' or 'both', each with all its copies |
| SettingsPage.ListsCover | src/pages/Settings.tsx:355-381 | every category appears in a list, and in both exactly when its type is 'both' |
| SettingsPage.ListSizes | src/pages/Settings.tsx:355-381 | the two lists together are as long as all categories plus the 'both' ones |
| SettingsPage.AddedCategoryListed | src/pages/Settings.tsx:36-38 | a category added through the form appears in the list for its type |

## Left out

- Presentation: JSX, charts, icons, animations, currency formatting and `toFixed`.
- Routing and the layout and auth pages.
- Asynchrony: `login` and `register` are modelled as sequential steps.
- Clock and prompts: `Date.now()` ids are parameters. So is `window.confirm`, as the `confirmed` parameter of `DeleteBudget`.
- The confirmation in the transaction list's `handleDelete` is not modelled. A confirmed delete is `TransactionsProvider.DeleteTransaction`.
- The browser's key-value store is a value: per key, missing, parsed or unparsable. JSON texts are not modelled.
- The `document.classList` writes and the media-query listener registration are left out. A system change is an input to `OnSystemChange`.
- Dates:
  - Time zones are not modelled. The form's default date (`toISOString`) is the UTC date, given as a parameter.
  - Only `YYYY-MM-DD` text parses. `parseISO` also accepts other ISO forms, such as week dates and times. Those texts count as unparsable here.
- Object keys: JavaScript lists integer-like object keys first, in numeric order. Keys such as `constructor` are also inherited from the prototype. The model keeps insertion order and treats every category name as an ordinary key.
- Amounts:
  - Floating point is not modelled: amounts are real numbers.
  - `parseFloat` is modelled on decimal numerals: an optional minus, digits, an optional point and digits, with at least one digit. Its prefix rules are not: leading spaces, trailing text such as `12abc`, exponents and `Infinity` read as NaN here.
- The sort comparators turn an unparsable date into NaN, which JavaScript sorts inconsistently. `TxTime` gives such dates a fixed key below every real date. Stability of the sort is not stated.
- Search lower-cases ASCII letters only. Unicode case folding is not modelled.
- TransactionsContext.Load: a switch from one signed-in user straight to another, without signing out, is not covered by the isolation lemma. The application always signs out in between.
- DashboardPage.Summarize: requires every amount to be a number. The page adds with `+`, which would concatenate text amounts.
- DashboardPage.GetCategoryData: requires every amount to be a number, for the same reason.
- DashboardPage.DailyExpenseData: requires every amount to be a number, for the same reason.
- BudgetPage.ExpensesByCategory: requires every amount to be a number, for the same reason.
- DashboardPage.DayStrIsIso: stated for four-digit years only. `String(year)` has fewer digits before the year 1000.
- TransactionForm.InputBlocked: the browser's number grammar is taken to be the one `ParseFloat` reads. The browser also accepts exponents and refuses a trailing point such as `5.`, and it checks the step with a small tolerance for floating point. The input's own sanitising of bad input to an empty value is not modelled, because the browser stops such a submission first.
- BudgetPage.BudgetPlanner.constructor: requires the `budgets` key to parse. An unparsable value throws while the page mounts, and the page does not render.

## Findings

| source | as written | input that shows it | evidently intended | confidence | as-written member | corrected member |
|---|---|---|---|---|---|---|
| src/context/TransactionsContext.tsx:176-178 | the categories save effect runs on mount with no user signed in and writes the empty initial list, so the later load finds `"[]"`, which is truthy, and never seeds the defaults | a first visit: nothing stored, mount, then sign in; the category list is empty (and any stored categories were overwritten) | save categories only while a user is signed in, like the transactions, so that stored categories load and a first visit seeds the eleven defaults | not executed | TransactionsContext.MountThenSignInAsWritten, TransactionsContext.FirstVisitHasNoCategories, TransactionsContext.TransactionsProvider.constructor | TransactionsContext.Persist, TransactionsContext.MountThenSignIn |
| src/context/ThemeContext.tsx:33-47 | the theme effect stores the theme on mount, so the system-change handler's "nothing stored" guard is never true afterwards | nothing stored, the system light at load, then the system switches to dark: the theme stays light | follow the system preference until the user has chosen a theme with the toggle | not executed | ThemeContext.MountAsWritten, ThemeContext.SystemTurnsDarkAsWritten, ThemeContext.ThemeProvider.constructor | ThemeContext.Mount, ThemeContext.SystemChangeFollowed |
| src/pages/Dashboard.tsx:92-100 and src/pages/Budget.tsx:118-126 | `changeMonth` moves the cursor with `Date.setMonth`, which rolls a day the target month lacks into the following month | the cursor on 31 January 2025, "next": 3 March 2025, so February is skipped; on 31 March 2025, "prev": 3 March 2025, so the month does not change | move to the adjacent calendar month, so that "prev" undoes "next" | not executed | MonthCursor.ChangeMonthAsWritten, MonthCursor.NextSkipsFebruaryAsWritten, BudgetPage.BudgetPlanner.ChangeMonth | MonthCursor.ChangeMonth, MonthCursor.ChangeMonthUndo |
| src/components/transactions/TransactionList.tsx:67-83 | with no transactions the component returns the empty state early, and that branch renders no modal, so its "Add Transaction" button only sets `editingTransaction` | a signed-in user with no transactions opens the Transactions page and presses "Add Transaction": nothing appears | render the modal in the empty-state branch too, so that the first transaction can be added from this page | not executed | TransactionList.EmptyStateAddAsWritten | TransactionList.EmptyStateAdd, TransactionList.TransactionListView.OpenForm |
