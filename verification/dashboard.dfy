/** The main dashboard: the headline figures, the fixed obligations handed
    to the cash-flow card, and the bill-due notifications. */
module Dashboard {
  import opened Wrappers
  import opened Seqs
  import opened Calendar
  import opened Records
  import MonthlyCashflow
  import LiabilitiesView
  import AssetsInvestments
  import Header

  /** A field of the `account_balance` row read as `row?.field || 0`. */
  function BalanceField(balance: Option<AccountBalance>, field: AccountBalance -> Option<real>): (r: real)
    ensures balance.None? ==> r == 0.0
    ensures balance.Some? ==> r == Num(field(balance.value))
  {
    if balance.Some? then
      OrZeroIsNum(field(balance.value));
      OrElse(field(balance.value), 0.0)
    else 0.0
  }

  function TotalIncomeOf(b: AccountBalance): Option<real> { b.totalIncome }
  function TotalExpensesOf(b: AccountBalance): Option<real> { b.totalExpenses }
  function CurrentBalanceOf(b: AccountBalance): Option<real> { b.currentBalance }

  datatype Figures = Figures(
    income: real,
    expenses: real,
    currentBalance: real,
    totalAssets: real,
    totalDebt: real,
    netWorth: real,
    fixedObligations: real)

  /** The dashboard's calculations block. */
  function ComputeFigures(balance: Option<AccountBalance>, assets: seq<Asset>, liabilities: seq<Liability>,
                          allocations: seq<Allocation>): (f: Figures)
    ensures balance.None? ==> f.income == 0.0 && f.expenses == 0.0 && f.currentBalance == 0.0
    ensures balance.Some? ==>
              (f.income == Num(balance.value.totalIncome)
               && f.expenses == Num(balance.value.totalExpenses)
               && f.currentBalance == Num(balance.value.currentBalance))
    ensures f.totalAssets == AssetsInvestments.TotalAssets(assets)
    ensures f.totalDebt == LiabilitiesView.TotalDebt(liabilities)
    ensures f.fixedObligations == MonthlyCashflow.FixedObligations(allocations)
    ensures f.netWorth == f.totalAssets - f.totalDebt
  {
    var totalAssets := AssetsInvestments.TotalAssets(assets);
    var totalDebt := LiabilitiesView.TotalDebt(liabilities);
    Figures(BalanceField(balance, TotalIncomeOf),
            BalanceField(balance, TotalExpensesOf),
            BalanceField(balance, CurrentBalanceOf),
            totalAssets,
            totalDebt,
            totalAssets - totalDebt,
            MonthlyCashflow.FixedObligations(allocations))
  }

  /** Net worth is the assets less every liability's outstanding balance,
      loans and other debts alike. */
  lemma NetWorthCountsAllDebt(balance: Option<AccountBalance>, assets: seq<Asset>, liabilities: seq<Liability>,
                              allocations: seq<Allocation>)
    ensures ComputeFigures(balance, assets, liabilities, allocations).netWorth
         == AssetsInvestments.TotalAssets(assets)
            - LiabilitiesView.TotalDebt(LiabilitiesView.Loans(liabilities))
            - LiabilitiesView.TotalDebt(LiabilitiesView.OtherDebts(liabilities))
  {
    LiabilitiesView.LoansPartition(liabilities);
  }

  /** The surplus the cash-flow card shows on the dashboard deducts the
      loan-repayment and insurance allocations twice. */
  lemma DashboardSurplusDoubleCounts(balance: Option<AccountBalance>, assets: seq<Asset>, liabilities: seq<Liability>,
                                     allocations: seq<Allocation>)
    ensures var f := ComputeFigures(balance, assets, liabilities, allocations);
            (MonthlyCashflow.Surplus(f.income, f.fixedObligations, f.expenses, allocations)
             == f.income - f.expenses - 2.0 * MonthlyCashflow.FixedObligations(allocations)
                - Sum(Filter(allocations, (a: Allocation) => !MonthlyCashflow.IsFixedObligation(a)), MonthlyCashflow.AllocationAmount))
  {
    var f := ComputeFigures(balance, assets, liabilities, allocations);
    MonthlyCashflow.SurplusDeductsFixedTwice(f.income, f.expenses, allocations);
  }

  /** `differenceInDays(due, now)`: whole days between the due date's
      midnight and the present moment, truncated toward zero. Measured
      from a moment after midnight, a future date is one full day short of
      its calendar distance. */
  function DifferenceInDays(calendarDays: int, pastMidnight: bool): (r: int)
    ensures pastMidnight && calendarDays > 0 ==> r == calendarDays - 1
    ensures !(pastMidnight && calendarDays > 0) ==> r == calendarDays
  {
    if pastMidnight && calendarDays > 0 then calendarDays - 1 else calendarDays
  }

  /** The notification filter: a due date whose day difference from now
      is 0 to 7. `today` is today's day number. */
  function DueSoon(today: int, pastMidnight: bool): Liability -> bool {
    (l: Liability) => l.dueDate.Some? && 0 <= DifferenceInDays(DayNumber(l.dueDate.value) - today, pastMidnight) <= 7
  }

  /** In calendar days the window is 0 to 7 when measured at midnight and
      0 to 8 at any later time of day. */
  lemma DueSoonWindow(l: Liability, today: int, pastMidnight: bool)
    requires l.dueDate.Some?
    ensures DueSoon(today, pastMidnight)(l)
        <==> 0 <= DayNumber(l.dueDate.value) - today <= (if pastMidnight then 8 else 7)
  {
  }

  /** `${x}` of a nullable column: `null` renders as the word. */
  function DueText(d: Option<CivilDate>): string {
    if d.Some? then DateText(d.value) else "null"
  }

  /** One alert; `showAmount` is the number-to-text conversion. */
  function Alert(l: Liability, showAmount: real -> string): (n: Header.Notification)
    ensures n.title == "Bill Due Soon: " + l.name
  {
    Header.Notification("Bill Due Soon: " + l.name,
                        "Amount: ₹" + showAmount(l.totalAmount) + " is due on " + DueText(l.dueDate))
  }

  /** The notifications: one alert per liability due soon, in input order. */
  function DueSoonAlerts(liabilities: seq<Liability>, today: int, pastMidnight: bool,
                         showAmount: real -> string): (r: seq<Header.Notification>)
    ensures |r| == |Filter(liabilities, DueSoon(today, pastMidnight))|
    ensures forall i :: 0 <= i < |r| ==> r[i] == Alert(Filter(liabilities, DueSoon(today, pastMidnight))[i], showAmount)
  {
    var due := Filter(liabilities, DueSoon(today, pastMidnight));
    seq(|due|, i requires 0 <= i < |due| => Alert(due[i], showAmount))
  }

  /** Every liability due soon has an alert titled with its name. */
  lemma AlertForEachDueLiability(liabilities: seq<Liability>, today: int, pastMidnight: bool,
                                 showAmount: real -> string, l: Liability)
    requires l in liabilities && DueSoon(today, pastMidnight)(l)
    ensures exists i :: 0 <= i < |DueSoonAlerts(liabilities, today, pastMidnight, showAmount)| &&
              DueSoonAlerts(liabilities, today, pastMidnight, showAmount)[i].title == "Bill Due Soon: " + l.name
  {
    var due := Filter(liabilities, DueSoon(today, pastMidnight));
    var r := DueSoonAlerts(liabilities, today, pastMidnight, showAmount);
    var k :| 0 <= k < |liabilities| && liabilities[k] == l;
    assert l in due;
    var i :| 0 <= i < |due| && due[i] == l;
    assert r[i] == Alert(due[i], showAmount);
  }

  /** Every alert belongs to a liability due soon and carries its name. */
  lemma AlertNamesDueLiability(liabilities: seq<Liability>, today: int, pastMidnight: bool,
                               showAmount: real -> string, i: nat)
    requires i < |DueSoonAlerts(liabilities, today, pastMidnight, showAmount)|
    ensures var l := Filter(liabilities, DueSoon(today, pastMidnight))[i];
            && l in liabilities && l.dueDate.Some?
            && DueSoon(today, pastMidnight)(l)
            && DueSoonAlerts(liabilities, today, pastMidnight, showAmount)[i].title == "Bill Due Soon: " + l.name
  {
  }
}
