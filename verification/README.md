# finance-os core, modelled in Dafny

This project models the computational core of finance-os, a personal-finance
dashboard. The core has two parts:

- **The net-worth projection engine** (`calculateAndSaveProjections`,
  `recalculateUserProjections`). It runs a ten-year recurrence: assets grow
  12% a year plus twelve months of savings, and liabilities shrink 10% a year,
  floored at zero. It then replaces the user's stored projection rows and
  derives its own inputs from the user's balance, assets, liabilities and
  last-30-day transactions.
- **The client-side derivations of the views**:
  - budget spending and status;
  - the daily-expense filter, sort and total;
  - category totals, the daily spending series and the CSV export of the
    enhanced reports;
  - the bill calendar's grouping and due flags;
  - debt totals, credit utilisation and loan progress;
  - the cash-flow surplus;
  - the week/month/year expense charts;
  - the figures and alerts of both dashboards;
  - the add/edit modal's form-to-row mapping;
  - the small display rules of the header, the balance card, the projection
    chart, the double-entry flow and the expense and asset cards.

Conventions of the model:

- **Money and rates** are `real`, so `1.12` and `0.9` are exact.
- **Nullable columns** are `Option`.
- **JavaScript `x || y`** is `OrElse` / `OrElseText`: a 0 or an empty string
  falls through to `y` just as a missing value does.
- **A null operand of `+`** counts as 0 (`Num`).
- **Dates** are `CivilDate` values with a day number (`DayNumber`, days from
  1970-01-01).
- **Environment inputs are parameters.** "Today", the current year, the
  success of each database call and the number-to-text conversion are all
  passed in.
- **The projections table** is a `map` from user id to rows.

Each source file has one module. Shared pieces live in these modules:

- `Wrappers`: `Option`, `Result`, JS truthiness.
- `Seqs`: filter, sum, take, find, sort, with their lemmas.
- `Text`: lower-casing, substring, split/join, integer rendering.
- `Calendar`: civil dates.
- `Records`: the table rows.
- `Buckets`: summing elements into consecutive integer keys.

Two behaviours of the code are worth stating up front:

- `calculateAndSaveProjections` never checks the delete's error. A failed
  delete therefore leaves the old rows in place and the insert appends to
  them.
- `recalculateUserProjections` treats a fetch that returned no data as
  nothing and falls back to 0. It does not abort.

The legacy page (app/login/page.tsx:72-78) builds its notifications with the
same filter and message as the main dashboard, so `Dashboard.DueSoonAlerts`
models both.

## Model

| member | source | states |
|---|---|---|
| ProjectionCalculator.AnnualSavings | lib/projection-calculator.ts:25-26 | the yearly contribution is 12 × the savings override when it is truthy, and 12 × (income − expenses) otherwise, so a supplied 0 is ignored |
| ProjectionCalculator.Simulate | lib/projection-calculator.ts:21-56 | exactly ten rows. Row i has year `currentYear + i` and year number i+1. Its assets follow `a(k+1) = 1.12·a(k) + annual` and its liabilities `l(k+1) = max(0, 0.9·l(k))`. Investment corpus equals assets and net worth is assets − liabilities. Every liability is ≥ 0 and none exceeds the previous one, for any input |
| ProjectionCalculator.ProjectionDeterministic | lib/projection-calculator.ts:32-56 | two series computed from the same inputs and year are equal |
| ProjectionCalculator.AssetsCompoundWithoutSavings | lib/projection-calculator.ts:40 | with no contribution, assets after k years are `a0 · 1.12^k` |
| ProjectionCalculator.NoLiabilitiesStayZero | lib/projection-calculator.ts:43 | liabilities that start at 0 stay 0 |
| ProjectionCalculator.ZeroSavingsClosedForm | lib/projection-calculator.ts:25-45 | with zero savings and zero liabilities, row i holds `currentAssets · 1.12^(i+1)` in assets and 0 in liabilities |
| ProjectionCalculator.WorkedExample | lib/projection-calculator.ts:25-45 | for assets 100000, liabilities 200000, income 50000 and expenses 30000, year 1 is (352000, 180000, 172000) and year 2 is (634240, 162000, 472240) |
| ProjectionCalculator.ReplaceRows | lib/projection-calculator.ts:58-67 | other users' rows never change. With both calls succeeding, the user's rows are exactly the new series. A failed insert after a delete leaves none. A failed delete keeps the old rows ahead of whatever was inserted |
| ProjectionCalculator.ReplaceIdempotent | lib/projection-calculator.ts:58-67 | saving the same series twice leaves what saving it once left |
| ProjectionCalculator.CalculateAndSaveProjections | lib/projection-calculator.ts:13-75 | succeeds iff the insert succeeds. On success it returns the ten-year series, and after a successful delete that series is exactly the user's stored rows. A failure after a delete leaves the user with no rows. After a failed delete the user keeps the old rows, followed by the series when the insert succeeds. No other user's rows change |
| ProjectionCalculator.RecentWindow | lib/projection-calculator.ts:91-98 | the sample holds exactly the transactions dated no earlier than 30 days before today, each as often as in the input |
| ProjectionCalculator.SampleTotalOfWindow | lib/projection-calculator.ts:100-101 | the sample's total of one type is the sum over exactly the transactions of that type inside the window |
| ProjectionCalculator.MonthlyFigure | lib/projection-calculator.ts:100-101 | the trailing sum when it is truthy, else the stored total when it is truthy, else 0 |
| ProjectionCalculator.DeriveInputs | lib/projection-calculator.ts:87-109 | assets are summed by value and liabilities by `outstanding_amount \|\| total_amount`, with a missing fetch giving 0. Monthly income (expenses) is the sum of the income (expense) transactions of the last 30 days, falling back to the stored `total_income` (`total_expenses`) and then to 0. No savings override is passed, so the contribution is 12 × (income − expenses) |
| ProjectionCalculator.OutOfWindowIgnored | lib/projection-calculator.ts:91-101 | a transaction dated before the 30-day window changes none of the derived inputs |
| ProjectionCalculator.EmptyWindowFallsBack | lib/projection-calculator.ts:100-101 | with no transaction in the window, income and expenses fall back to the stored totals, and to 0 only when those are missing or zero |
| ProjectionCalculator.FreshAccountIsFlat | lib/projection-calculator.ts:87-109 | an account with no rows and a zeroed balance projects ten years of zero net worth |
| ProjectionCalculator.RecalculateUserProjections | lib/projection-calculator.ts:78-114 | runs the engine on the derived inputs. It succeeds iff the insert does. After a successful delete, success leaves exactly the returned series as the user's rows and failure leaves none. After a failed delete the user keeps the old rows, followed by the series on success. Other users' rows never change |
| BudgetView.MonthlyTransactions | components/budget-view.tsx:45-50 | a transaction is kept iff it is dated in today's month and year, and then as often as it occurs in the input |
| BudgetView.MonthlyTransactionsInOrder | components/budget-view.tsx:45-50 | the kept transactions stay in input order: the list of a concatenation is the concatenation of the lists |
| BudgetView.Spent | components/budget-view.tsx:53-55 | reference definition of a category's spending: the sum of the amounts of its expense transactions. `SpentCountsMonthExpensesOnly` states what it sums |
| BudgetView.SpentCountsMonthExpensesOnly | components/budget-view.tsx:47-55 | a category's spending is the sum over exactly the expense transactions of that category dated in the current month and year |
| BudgetView.Percentage | components/budget-view.tsx:57-58 | 0 when `monthly_budget \|\| 0` is not positive; otherwise the percentage times the budget is the spending × 100 |
| BudgetView.Classify | components/budget-view.tsx:59 | `exceeded` iff the percentage is ≥ 100. `warning` iff it is below 100 and at least the alert threshold. `good` iff it is below both. Exactly one holds |
| BudgetView.ExceededIffBudgetReached | components/budget-view.tsx:57-59 | with a positive budget, a category is exceeded iff its spending has reached the budget |
| BudgetView.CategorySpendingOf | components/budget-view.tsx:52-62 | one entry per category, in order, carrying the category unchanged. Its spending is the current-month expenses of that category, its percentage is `Percentage` of that spending against the monthly budget, and its status is `Classify` of that percentage and the alert threshold (exceeded iff ≥ 100) |
| BudgetView.ProgressWidth | components/budget-view.tsx:245 | `min(percentage, 100)` |
| BudgetView.RecentTransactions | components/budget-view.tsx:147 | the first min(10, n) of the n current-month transactions, in input order |
| MonthlyCashflow.FixedObligations | components/budget-view.tsx:65-67 | reference definition: the sum of the `loan_repayment` and `insurance` allocations. The dashboard computes the same sum at app/page.tsx:237-239. `AllocationsSplit` relates it to the allocation total |
| MonthlyCashflow.TotalAllocations | components/monthly-cashflow-card.tsx:39 | reference definition: the sum of all allocation amounts. `AllocationsSplit` splits it into fixed and other allocations |
| MonthlyCashflow.Surplus | components/monthly-cashflow-card.tsx:40 | reference definition: income − fixed obligations − expenses − all allocations. `SurplusDeductsFixedTwice` shows the fixed allocations are deducted twice |
| MonthlyCashflow.AllocationsSplit | components/monthly-cashflow-card.tsx:39 | the allocation total is the fixed obligations (loan repayment and insurance) plus all other allocations |
| MonthlyCashflow.SurplusDeductsFixedTwice | components/monthly-cashflow-card.tsx:40 | when the fixed obligations come from the same allocations, the surplus deducts them twice |
| MonthlyCashflow.FlowItem | components/monthly-cashflow-card.tsx:239-240 | sign `+` and green iff flagged positive; the magnitude is the absolute amount |
| MonthlyCashflow.SurplusDisplay | components/monthly-cashflow-card.tsx:136-141 | the surplus shows `+` iff it is strictly positive; a zero surplus shows `-0`; the sign and magnitude together give back the surplus |
| MonthlyCashflow.FlowLines | components/monthly-cashflow-card.tsx:92-143 | Income first, then Fixed Obligations and Expenses with their amounts, and Surplus last. An Allocations line, showing the allocation total, is present iff there are allocations. Every line between Income and Surplus is signed `-` |
| MonthlyCashflow.CategoryColor | components/monthly-cashflow-card.tsx:52-62 | the colour of a known category, `#71717a` for any other |
| MonthlyCashflow.AllocationColor | components/monthly-cashflow-card.tsx:171 | an allocation's own non-empty colour wins over its category's colour |
| MonthlyCashflow.IconFor | components/monthly-cashflow-card.tsx:42-50 | TrendingUp and Building2 exactly for those names; PiggyBank for a missing, empty or unknown name |
| DailyExpenseTracker.FieldMatchesIff | components/daily-expense-tracker.tsx:37 | a field matches iff it is present and the lower-cased term occurs in it, lower-cased |
| DailyExpenseTracker.MatchesSearchIff | components/daily-expense-tracker.tsx:37-38 | search is a case-insensitive substring test on the description or the category |
| DailyExpenseTracker.EmptySearchNeedsSomeText | components/daily-expense-tracker.tsx:37-38 | the empty search keeps an expense iff it has a description or a category |
| DailyExpenseTracker.DateOrder | components/daily-expense-tracker.tsx:44-45 | ordered by the date key means newest first |
| DailyExpenseTracker.AmountOrder | components/daily-expense-tracker.tsx:47 | ordered by the amount key means largest first |
| DailyExpenseTracker.FilteredExpenses | components/daily-expense-tracker.tsx:35-48 | a permutation of the kept expenses. Every listed expense passes the search, category and payment filters, and every input that passes is listed. Ordered newest first by date, or largest first by amount |
| DailyExpenseTracker.KeptMembers | components/daily-expense-tracker.tsx:36-42 | any reordering of the kept expenses holds exactly the inputs that pass all three filters |
| DailyExpenseTracker.Total | components/daily-expense-tracker.tsx:50 | reference definition: the sum of the shown amounts. `TotalIgnoresSortKey` shows it does not depend on the sort order |
| DailyExpenseTracker.TotalIgnoresSortKey | components/daily-expense-tracker.tsx:50 | the total is the sum of the kept amounts, whichever sort is chosen |
| DailyExpenseTracker.PaymentMethodOf | components/daily-expense-tracker.tsx:161 | the found entry is a listed method whose value equals the expense's method; none iff no listed value matches |
| DailyExpenseTracker.PaymentLookupFindsOwnEntry | components/daily-expense-tracker.tsx:19-25 | a known method finds its own entry |
| EnhancedReports.AddTo | components/enhanced-reports-view.tsx:92-99 | one reduce step. It adds to the entry of the same name or appends a new one, leaves the other entries unchanged, and grows the value total by the amount |
| EnhancedReports.AddToValue | components/enhanced-reports-view.tsx:93-95 | with distinct names, the entry of the category ends up holding its previous value plus the amount |
| EnhancedReports.AccumulateTallies | components/enhanced-reports-view.tsx:90-100 | the reduce builds one entry per distinct category. Each entry holds that category's sum, and the values add up to the sum of all amounts |
| EnhancedReports.CategoryData | components/enhanced-reports-view.tsx:90-101 | sorted by value, descending. Names are distinct and are exactly the expense categories. Each value is that category's expense total, so income is ignored, and the values add up to the total expense amount |
| EnhancedReports.LookbackDays | components/enhanced-reports-view.tsx:64 | week → 7, month → 30, year → 365 |
| EnhancedReports.DailySpendData | components/enhanced-reports-view.tsx:103-104 | 7 entries for week and 30 otherwise (year included); entry i is the day `today − (n−1−i)` |
| EnhancedReports.DailySpendPoint | components/enhanced-reports-view.tsx:107-117 | each day's amount is the expense transactions dated that day plus the daily expenses dated that day |
| EnhancedReports.DailySpendTotal | components/enhanced-reports-view.tsx:103-117 | the series adds up to everything spent, in expense transactions and daily expenses, in the window that ends today |
| EnhancedReports.ExportCsv | components/enhanced-reports-view.tsx:129-141 | fails iff there are no transactions (the code reads the first row's keys) |
| EnhancedReports.CsvLines | components/enhanced-reports-view.tsx:138-141 | n+1 lines: the header `Date,Type,Category,Description,Amount`, then line i+1 holding transaction i's five cells joined by commas |
| EnhancedReports.CsvRowRoundTrip | components/enhanced-reports-view.tsx:140 | a row line without commas or newlines in its cells splits back into exactly its cells |
| EnhancedReports.CsvRoundTrip | components/enhanced-reports-view.tsx:129-141 | splitting the export on newlines gives the header line plus one line per transaction, and splitting each on commas gives back its cells, provided no cell holds a comma or newline |
| EnhancedReports.StatusColor | components/enhanced-reports-view.tsx:373-377 | red iff `over_budget`, yellow iff `warning`, green for anything else |
| BillCalendar.BillsByDate | components/bill-calendar.tsx:28-35 | reference definition of the grouping reduce. `BillsByDateGroups` and `BillInOneGroup` state its groups |
| BillCalendar.BillsByDateGroups | components/bill-calendar.tsx:28-35 | the group under a date is exactly the bills due that day, in input order; a date is a key iff some bill is due on it |
| BillCalendar.BillInOneGroup | components/bill-calendar.tsx:28-35 | a bill is in the group of a date iff that date is its due date, so a dated bill is in exactly one group and an undated one in none |
| BillCalendar.Markers | components/bill-calendar.tsx:110 | a day shows the first min(3, n) of its n bills, in order: all of them when there are at most three |
| BillCalendar.DaysUntil | components/bill-calendar.tsx:188 | reference definition: the calendar distance in days from today to the due date |
| BillCalendar.IsOverdue | components/bill-calendar.tsx:189 | reference definition: a negative distance. `OverdueExcludesDueSoon` shows it never holds together with due-soon |
| BillCalendar.IsDueSoon | components/bill-calendar.tsx:190 | reference definition: a distance of 0 to 3 days. `DueSoonIsUpcoming` shows such a bill is also upcoming |
| BillCalendar.OverdueExcludesDueSoon | components/bill-calendar.tsx:188-190 | no bill is both overdue and due soon |
| BillCalendar.UpcomingBills | components/bill-calendar.tsx:161-168 | the first min(5, n) of the n bills due 0 to 7 days from today, in input order |
| BillCalendar.UpcomingAreDueWithinWeek | components/bill-calendar.tsx:161-168 | every listed bill is an input bill with a due date 0 to 7 days away |
| BillCalendar.DueSoonIsUpcoming | components/bill-calendar.tsx:166-190 | a due-soon bill passes the upcoming filter |
| Records.Outstanding | components/liabilities-view.tsx:24 | the outstanding amount when it is truthy, else the total amount |
| LiabilitiesView.Utilization | components/liabilities-view.tsx:27 | 0 without a positive limit; otherwise utilisation × limit = used × 100, and it lies within 0 to 100 when `0 ≤ used ≤ limit` |
| LiabilitiesView.CreditUtilization | components/liabilities-view.tsx:25-27 | the same over the summed balances and summed limits of all cards |
| LiabilitiesView.TotalDebt | components/liabilities-view.tsx:24 | reference definition: the sum of `outstanding_amount \|\| total_amount`. `LoansPartition` splits it into loans and other debts, and `LoanCardOutstandingInTotal` places each loan in it |
| LiabilitiesView.LoansPartition | components/liabilities-view.tsx:30-31 | loans and other debts together hold every liability exactly as often as the input, and their debts add up to the total debt |
| LiabilitiesView.LoanOrOther | components/liabilities-view.tsx:30-31 | each liability is exactly one of loan or other debt |
| LiabilitiesView.LoanProgress | components/liabilities-view.tsx:174-176 | 0 when the total is not positive; otherwise progress × total = paid × 100, with a missing paid amount read as 0 |
| LiabilitiesView.LoanProgressBounds | components/liabilities-view.tsx:174-176 | paid between 0 and the total gives 0 to 100 percent |
| LiabilitiesView.CardUtilization | components/liabilities-view.tsx:255-257 | per card: 0 without a positive limit, else balance × 100 / limit |
| LiabilitiesView.UtilizationBand | components/liabilities-view.tsx:307 | red iff > 70, yellow iff in (50, 70], green iff ≤ 50 |
| LiabilitiesView.NoLimitIsGreen | components/liabilities-view.tsx:307 | a card without a positive limit is always green |
| LiabilitiesView.LoanCardOutstandingInTotal | components/liabilities-view.tsx:210 | a loan card's displayed outstanding amount is exactly what that loan adds to the total debt |
| ReportsView.ChartData | components/reports-view.tsx:13-51 | reference definition of the three chart series. `WeekChart`, `MonthChart` and `YearChart` state their points, and `WeekTotal`, `MonthTotal` and `YearTotal` their sums |
| ReportsView.WeekChart | components/reports-view.tsx:13-26 | seven points, oldest first. Point i is the day `today − (6−i)`, named by its weekday, and holds the expenses dated that day |
| ReportsView.WeekTotal | components/reports-view.tsx:13-26 | the week's points add up to the expenses of the seven days ending today |
| ReportsView.MonthChart | components/reports-view.tsx:31-40 | one point per day of the current month, named `1`…`n`, holding that day's expenses in the current month |
| ReportsView.MonthTotal | components/reports-view.tsx:31-40 | the month's points add up to all of the month's expenses |
| ReportsView.YearChart | components/reports-view.tsx:44-51 | twelve points named `Jan`…`Dec`; point i holds the expenses of month index i of the current year |
| ReportsView.YearTotal | components/reports-view.tsx:44-51 | the year's points add up to all of the year's expenses |
| Dashboard.BalanceField | app/page.tsx:230-232 | 0 without a balance row, else the field with null or 0 read as 0 |
| Dashboard.ComputeFigures | app/page.tsx:230-239 | income, expenses and balance default to 0 without a balance row. Total assets, total debt and fixed obligations are those of the assets, liabilities and allocations pages, and net worth is total assets − total debt |
| Dashboard.NetWorthCountsAllDebt | app/page.tsx:233-235 | net worth is assets less the outstanding balances of loans and other debts alike |
| Dashboard.DashboardSurplusDoubleCounts | app/page.tsx:417-423 | the surplus the dashboard's cash-flow card shows deducts the loan-repayment and insurance allocations twice |
| Dashboard.DifferenceInDays | app/page.tsx:195 | the whole-day difference from the current moment: one day short of the calendar distance for a future date once past midnight, and the calendar distance otherwise |
| Dashboard.DueSoonWindow | app/page.tsx:195 | a dated liability raises an alert iff its calendar distance is 0 to 7 days (0 to 8 after midnight) |
| Dashboard.DueSoonAlerts | app/page.tsx:194-199 | one alert per liability due soon, in input order |
| Dashboard.AlertForEachDueLiability | app/page.tsx:194-199 | every due-soon liability has an alert titled `Bill Due Soon: <name>` |
| Dashboard.AlertNamesDueLiability | app/page.tsx:194-199 | every alert belongs to a dated input liability that is due soon, and carries its name |
| LegacyDashboard.Income | app/login/page.tsx:100 | reference definition: the sum of the income transactions. `IncomePlusExpenses` relates it to all amounts |
| LegacyDashboard.Expenses | app/login/page.tsx:101 | reference definition: the sum of the expense transactions. `IncomePlusExpenses` relates it to all amounts |
| LegacyDashboard.IncomePlusExpenses | app/login/page.tsx:100-101 | the income and expense figures (sums over the income and the expense transactions) add up to the sum of all amounts |
| LegacyDashboard.LegacyTotalDebt | app/login/page.tsx:103 | reference definition: the sum of `total_amount` over all liabilities. `DebtTotalsAgreeWithoutOutstanding` and `DebtTotalsDiffer` compare it with the liabilities page |
| LegacyDashboard.LegacyNetWorth | app/login/page.tsx:102-104 | net worth plus this page's debt is the asset total |
| LegacyDashboard.DebtTotalsAgreeWithoutOutstanding | app/login/page.tsx:103 | this page's debt equals the main dashboard's debt when no liability tracks an outstanding amount |
| LegacyDashboard.DebtTotalsDiffer | app/login/page.tsx:103 | a partly repaid loan counts in full here, 100000, but at its outstanding 40000 on the main dashboard |
| LegacyDashboard.UpcomingPanel | app/login/page.tsx:149 | the first min(4, n) of the n liabilities with a due date, in input order, whether or not it is near |
| LegacyDashboard.CardsPanel | app/login/page.tsx:186 | the first min(3, n) of the n credit cards and loans, in input order |
| LegacyDashboard.EmiNotInCardsPanel | app/login/page.tsx:186 | an `emi` liability counts as a loan on the liabilities page but never appears in this panel |
| LegacyDashboard.AddDataTarget | app/login/page.tsx:258-261 | no button iff the view is dashboard, reports or settings. It opens a transaction iff the view is budget and a liability iff it is liabilities, and never a goal |
| LegacyDashboard.OtherViewsAddAssets | app/login/page.tsx:261 | every other view with the button opens the asset form |
| AddItem.TablesAgree | components/add-item-modal.tsx:58-100 | submit and delete pick the same table for every type, and no two types share a table |
| AddItem.DefaultForm | components/add-item-modal.tsx:17-25 | the add-mode form: empty id, name, amount and target year; category `Food`; type `expense`; today's date |
| AddItem.FirstTruthy | components/add-item-modal.tsx:34 | the first truthy value in the chain, with every earlier value falsy; none iff all are falsy |
| AddItem.Prefill | components/add-item-modal.tsx:29-39 | the edit form: name is `name \|\| description \|\| ''`, and amount is the first truthy of amount, value, total and target. The other fields each fall back to their defaults |
| AddItem.FormFor | components/add-item-modal.tsx:29-43 | prefilled from the row in edit mode, reset to the defaults in add mode |
| AddItem.PayloadFor | components/add-item-modal.tsx:58-76 | the row shape matches the type. A transaction takes its amount, category and date from the form, its description from the name field and its type from the type field. An asset gets type `investment`. A liability gets type `loan` with the amount as its total. A goal gets the amount as its target |
| AddItem.Submit | components/add-item-modal.tsx:78-84 | nothing without a user. In edit mode, an update of the edited row's id. In add mode, an insert tagged with the user. The table and payload follow the type |
| AddItem.TransactionEditRoundTrip | components/add-item-modal.tsx:29-84 | opening a transaction and saving it unchanged writes back its own amount, category, type, date and description to its own id |
| AddItem.LiabilityEditResetsType | components/add-item-modal.tsx:33-72 | saving a liability unchanged writes its total back but resets its type to `loan` |
| AccountBalanceCard.DisplayedBalance | components/account-balance-card.tsx:55 | the balance without its sign |
| AccountBalanceCard.SignOnlyInNote | components/account-balance-card.tsx:20-61 | a balance and its negation show the same figure; only the negative one shows the "Negative Balance" note |
| AccountBalanceCard.BarWidth | components/account-balance-card.tsx:92-96 | 0 without income. Otherwise it is at most 100, equals the share of income spent below the cap, and reaches the cap only when expenses ≥ income |
| AccountBalanceCard.SpentShare | components/account-balance-card.tsx:102-104 | none ("No income recorded") iff income ≤ 0, otherwise the uncapped share spent |
| AccountBalanceCard.OverspendingCaption | components/account-balance-card.tsx:92-104 | overspending fills the bar while the caption reports more than 100 percent |
| Header.EmailName | components/header.tsx:19 | the longest prefix of the email without an `@` |
| Header.UserName | components/header.tsx:19 | never empty; the full name when it is non-empty; `User` without a user |
| Header.UserNameFromEmail | components/header.tsx:19 | without a full name, the email's local part when that is non-empty; `User` iff there is no email or the local part is empty (or is itself `User`) |
| Header.LeadingAtFallsBack | components/header.tsx:19 | an email starting with `@` gives `User` |
| Header.AvatarLetter | components/header.tsx:62 | the first character of the user name, which is never empty: the full name's first when there is one, `U` without a user |
| Header.BellOrNoAlerts | components/header.tsx:32-43 | the bell is highlighted iff there are notifications, and "No new alerts" shows iff there are none |
| NetWorthChart.YearLabel | components/net-worth-chart.tsx:8 | the label starts with `Year ` |
| NetWorthChart.YearLabelRoundTrip | components/net-worth-chart.tsx:8 | the year number reads back from its label |
| NetWorthChart.ChartData | components/net-worth-chart.tsx:7-11 | one point per projection, in order, labelled with its year number and valued at its investment corpus |
| NetWorthChart.PlaceholderIffEmpty | components/net-worth-chart.tsx:19-36 | the placeholder shows iff there are no projections |
| NetWorthChart.ChartPlotsAssets | components/net-worth-chart.tsx:9 | for engine-produced rows the chart plots projected assets, which equal net worth iff that year has no liabilities |
| DoubleEntryFlow.Flows | components/double-entry-flow.tsx:6-13 | four rows in the order Income, Fixed Obs, Expenses, Surplus, carrying income, −17000, −expenses and income − expenses |
| DoubleEntryFlow.SurplusSkipsFixedObs | components/double-entry-flow.tsx:6-12 | the surplus row is income plus the expenses row; adding the constant fixed-obligations row falls 17000 short of it |
| DoubleEntryFlow.ShowAmount | components/double-entry-flow.tsx:25-26 | `+` and green iff the amount is positive; the magnitude is the absolute amount |
| DoubleEntryFlow.MirrorSameMagnitude | components/double-entry-flow.tsx:25-26 | an amount and its negation show the same magnitude; only the positive one gets `+` |
| ExpenseTracker.ExpenseRows | components/expense-tracker.tsx:8-19 | the rows are the input expenses, each as often as it occurs in the input |
| ExpenseTracker.ExpenseRowsInOrder | components/expense-tracker.tsx:8-19 | the rows stay in input order: the rows of a concatenation are the concatenation of the rows |
| ExpenseTracker.IncomeIgnored | components/expense-tracker.tsx:8-9 | inserting an income transaction anywhere changes neither the rows nor the total |
| ExpenseTracker.ExpenseTotal | components/expense-tracker.tsx:9 | reference definition: the sum of `amount \|\| 0` over the expense rows. `IncomeIgnored` and `ExpenseAdds` state how it changes |
| ExpenseTracker.ExpenseAdds | components/expense-tracker.tsx:9 | appending an expense adds its amount, a missing amount counting as 0 |
| ExpenseTracker.RowLabel | components/expense-tracker.tsx:24 | the description when it is non-empty, else the category |
| ExpenseTracker.EmptyMessageIff | components/expense-tracker.tsx:18 | the empty message shows iff no transaction is an expense |
| AssetsInvestments.TotalAssets | components/assets-investments.tsx:6 | an empty list totals 0 |
| AssetsInvestments.TotalAssetsPermutation | components/assets-investments.tsx:6 | the total does not depend on the order of the assets |
| AssetsInvestments.TotalAssetsAppend | components/assets-investments.tsx:6 | the total of two lists is the sum of their totals |
| AssetsInvestments.AssetRows | components/assets-investments.tsx:15-20 | one row per asset, in order, with its name and value; rendering fails iff some asset has no value |
| AssetsInvestments.RowsAddUpToTotal | components/assets-investments.tsx:6-20 | when every row renders, the values shown add up to the total |

## Left out

- **Database I/O.** All Supabase reads and writes, auth sessions and
  `getUser` are left out. A fetch result is an `Option`, and the outcome of a
  delete or insert is a boolean parameter.
- **Stored procedures.** Their logic runs on the server and is not visible:
  `pay_recurring_bill`, `get_expense_summary`,
  `get_spending_by_day_of_week`, `get_spending_trends`,
  `get_budget_vs_actual` and `seed_default_*`. The same holds for
  `initializeUserData`, which only calls them.
- **Concurrency.** The delete-then-insert is not atomic and the fetches run in
  parallel with `Promise.all`. Both are modelled as sequential steps.
- **Floating point.** IEEE-754 rounding, `toFixed` and `toLocaleString` are
  left out: amounts are exact reals, and the CSV export and alert messages take
  the number-to-text conversion as a parameter.
- **Date libraries.** date-fns, JavaScript `Date`, time zones, `toISOString`
  and the `'EEE'` / `'MMM dd'` chart labels beyond the weekday index are left
  out. Today is a parameter, and stored dates are civil dates. The string
  comparison `t.date === dateStr` is modelled as equality of day numbers,
  which is the same for `yyyy-MM-dd` dates.
- Dashboard.DifferenceInDays: the time of day enters only as a flag for
  whether the current moment is past midnight. Whole days are computed
  exactly.
- **Parsing.** `parseFloat` and `parseInt` are left out. Parsed numbers are
  inputs, and a blank amount is `None`.
- **Lower-casing.** `toLowerCase` is modelled on ASCII letters only, with no
  Unicode case mapping.
- **Transaction type.** The `type` column is modelled as exactly `income` or
  `expense`.
- **Excluded files.** liability-modals.tsx, allocation-modal.tsx,
  settings-view.tsx and sidebar.tsx are not part of this model. They hold form
  binding, an auth-update wrapper, navigation and animation. The modals also
  rely on JavaScript `Date` month overflow.
- **UI side effects.** React state, rendering, animation, hover and resize
  handlers, and the CSV download and print side effects are left out. Only the
  CSV text is modelled.
- ReportsView.MonthTotal: requires every transaction date to be a real
  calendar day, as dates read from the table are. An impossible day would fall
  outside every bucket.
- ReportsView.YearTotal: requires every transaction date to be a real
  calendar day, for the same reason. A month outside 1 to 12 would fall
  outside every bucket.
- EnhancedReports.CsvRoundTrip: stated only for cells without commas or
  newlines. The export does no quoting, so other cells do not read back.
- Header.UserName: its own contract covers only the full-name and
  no-user cases. The email fallback is stated by `Header.UserNameFromEmail`
  and `Header.LeadingAtFallsBack`.
- DailyExpenseTracker.FilteredExpenses: the relative order of expenses with
  equal sort keys is not stated. JavaScript's sort is stable and so is the
  model's insertion sort, but no contract proves stability.
- AssetsInvestments.TotalAssets: its contract states only the empty case.
  Order independence and additivity are separate lemmas.
