/** The rows the dashboard reads from its tables, with the columns the
    modelled logic touches. A column the code reads through `||`, `?.` or a
    bare `+` is nullable here. */
module Records {
  import opened Wrappers
  import opened Calendar

  type UserId = string

  datatype TxnKind = Income | Expense

  /** A row of `transactions`. */
  datatype Transaction = Transaction(
    date: CivilDate,
    kind: TxnKind,
    category: string,
    description: Option<string>,
    amount: Option<real>)

  /** A row of `daily_expenses`. */
  datatype DailyExpense = DailyExpense(
    date: CivilDate,
    category: Option<string>,
    description: Option<string>,
    paymentMethod: Option<string>,
    amount: real)

  /** A row of `assets`. */
  datatype Asset = Asset(name: string, value: Option<real>)

  /** A row of `liabilities`; `kind` is the `type` column (`loan`, `emi`,
      `credit_card`, ...). */
  datatype Liability = Liability(
    name: string,
    kind: string,
    totalAmount: real,
    outstandingAmount: Option<real>,
    paidAmount: Option<real>,
    dueDate: Option<CivilDate>)

  /** A row of `credit_cards`. */
  datatype CreditCard = CreditCard(outstandingBalance: real, creditLimit: real)

  /** A row of `monthly_allocations`. */
  datatype Allocation = Allocation(
    name: string,
    amount: real,
    category: string,
    icon: Option<string>,
    color: Option<string>)

  /** A row of `budget_categories`. */
  datatype BudgetCategory = BudgetCategory(
    name: string,
    monthlyBudget: Option<real>,
    alertThreshold: Option<real>)

  /** A row of `recurring_bills`. */
  datatype RecurringBill = RecurringBill(name: string, amount: real, nextDueDate: Option<CivilDate>)

  /** The user's `account_balance` row. */
  datatype AccountBalance = AccountBalance(
    totalIncome: Option<real>,
    totalExpenses: Option<real>,
    currentBalance: Option<real>)

  /** What `sum + t.amount` adds for a transaction. */
  function Amount(t: Transaction): real {
    Num(t.amount)
  }

  predicate IsExpense(t: Transaction) {
    t.kind == Expense
  }

  predicate IsIncome(t: Transaction) {
    t.kind == Income
  }

  /** An expense dated on day number `day`. */
  function ExpenseOnDay(day: int): Transaction -> bool {
    (t: Transaction) => IsExpense(t) && DayNumber(t.date) == day
  }

  /** An expense dated in `[lo, hi)`, as day numbers. */
  function ExpenseInWindow(lo: int, hi: int): Transaction -> bool {
    (t: Transaction) => IsExpense(t) && lo <= DayNumber(t.date) < hi
  }

  /** What `sum + a.value` adds for an asset. */
  function AssetValue(a: Asset): real {
    Num(a.value)
  }

  /** `l.outstanding_amount || l.total_amount`: the balance still owed,
      taken from the total when no outstanding amount is tracked. */
  function Outstanding(l: Liability): (r: real)
    ensures Truthy(l.outstandingAmount) ==> r == l.outstandingAmount.value
    ensures !Truthy(l.outstandingAmount) ==> r == l.totalAmount
  {
    OrElse(l.outstandingAmount, l.totalAmount)
  }
}
