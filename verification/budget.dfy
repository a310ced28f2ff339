/** The budget view: this month's transactions, per-category spending with
    a status, and the fixed obligations handed to the cash-flow card. */
module BudgetView {
  import opened Wrappers
  import opened Seqs
  import opened Calendar
  import opened Records

  /** A transaction dated in the same month and year as `today`. */
  predicate InMonthOf(t: Transaction, today: CivilDate) {
    t.date.month == today.month && t.date.year == today.year
  }

  /** `monthlyTransactions`: every transaction of the current month, as
      often as it occurs in the input, and nothing else. */
  function MonthlyTransactions(txns: seq<Transaction>, today: CivilDate): (r: seq<Transaction>)
    ensures forall i :: 0 <= i < |r| ==> InMonthOf(r[i], today)
    ensures forall t :: t in r <==> t in txns && InMonthOf(t, today)
    ensures forall t :: multiset(r)[t] == if InMonthOf(t, today) then multiset(txns)[t] else 0
  {
    FilterMultiset(txns, (t: Transaction) => InMonthOf(t, today));
    Filter(txns, (t: Transaction) => InMonthOf(t, today))
  }

  /** The month's transactions keep their input order: the list of a
      concatenation is the concatenation of the lists, and a single
      transaction is kept exactly when it falls in the month. */
  lemma MonthlyTransactionsInOrder(a: seq<Transaction>, b: seq<Transaction>, t: Transaction, today: CivilDate)
    ensures MonthlyTransactions(a + b, today) == MonthlyTransactions(a, today) + MonthlyTransactions(b, today)
    ensures MonthlyTransactions([t], today) == if InMonthOf(t, today) then [t] else []
  {
    FilterAppend(a, b, (t: Transaction) => InMonthOf(t, today));
    assert [t][1..] == [];
  }

  /** An expense of category `name`. */
  predicate ExpenseOf(t: Transaction, name: string) {
    t.category == name && t.kind == Expense
  }

  /** What a category has spent among the given transactions. */
  function Spent(monthly: seq<Transaction>, name: string): real {
    Sum(Filter(monthly, (t: Transaction) => ExpenseOf(t, name)), Amount)
  }

  /** A category's spending is the sum over exactly the expenses of that
      category dated in the current month and year. */
  lemma SpentCountsMonthExpensesOnly(txns: seq<Transaction>, today: CivilDate, name: string)
    ensures Spent(MonthlyTransactions(txns, today), name)
         == Sum(Filter(txns, (t: Transaction) => InMonthOf(t, today) && ExpenseOf(t, name)), Amount)
  {
    FilterFilter(txns, (t: Transaction) => InMonthOf(t, today), (t: Transaction) => ExpenseOf(t, name),
                 (t: Transaction) => InMonthOf(t, today) && ExpenseOf(t, name));
  }

  /** `budget > 0 ? spent / budget * 100 : 0`, with `budget` the category's
      `monthly_budget || 0`. */
  function Percentage(spent: real, monthlyBudget: Option<real>): (r: real)
    ensures OrElse(monthlyBudget, 0.0) <= 0.0 ==> r == 0.0
    ensures OrElse(monthlyBudget, 0.0) > 0.0 ==> r * OrElse(monthlyBudget, 0.0) == spent * 100.0
  {
    var budget := OrElse(monthlyBudget, 0.0);
    if budget > 0.0 then (spent / budget) * 100.0 else 0.0
  }

  datatype Status = Good | Warning | Exceeded

  /** `exceeded` at 100% or more; otherwise `warning` from the alert
      threshold on (a missing threshold compares as 0); otherwise `good`. */
  function Classify(percentage: real, alertThreshold: Option<real>): (s: Status)
    ensures s == Exceeded <==> percentage >= 100.0
    ensures s == Warning <==> percentage < 100.0 && percentage >= Num(alertThreshold)
    ensures s == Good <==> percentage < 100.0 && percentage < Num(alertThreshold)
  {
    if percentage >= 100.0 then Exceeded
    else if percentage >= Num(alertThreshold) then Warning
    else Good
  }

  /** With a positive budget, a category is exceeded exactly when its
      spending has reached the budget. */
  lemma ExceededIffBudgetReached(spent: real, budget: real, alertThreshold: Option<real>)
    requires budget > 0.0
    ensures Classify(Percentage(spent, Some(budget)), alertThreshold) == Exceeded <==> spent >= budget
  {
    var p := (spent / budget) * 100.0;
    assert p == spent * 100.0 / budget;
    if spent >= budget {
      assert spent / budget >= 1.0;
    } else {
      assert spent / budget < 1.0;
    }
  }

  /** A category with its computed spending, percentage and status; the
      category's own fields are carried through unchanged. */
  datatype CategorySpending = CategorySpending(
    category: BudgetCategory,
    spent: real,
    percentage: real,
    status: Status)

  function SpendingOf(cat: BudgetCategory, monthly: seq<Transaction>): CategorySpending {
    var spent := Spent(monthly, cat.name);
    var percentage := Percentage(spent, cat.monthlyBudget);
    CategorySpending(cat, spent, percentage, Classify(percentage, cat.alertThreshold))
  }

  /** `categorySpending`: one entry per category, in the same order. */
  function CategorySpendingOf(categories: seq<BudgetCategory>, txns: seq<Transaction>, today: CivilDate): (r: seq<CategorySpending>)
    ensures |r| == |categories|
    ensures forall i :: 0 <= i < |r| ==> r[i].category == categories[i]
    ensures forall i :: 0 <= i < |r| ==>
      r[i].spent == Sum(Filter(txns, (t: Transaction) => InMonthOf(t, today) && ExpenseOf(t, categories[i].name)), Amount)
    ensures forall i :: 0 <= i < |r| ==> r[i].percentage == Percentage(r[i].spent, categories[i].monthlyBudget)
    ensures forall i :: 0 <= i < |r| ==> r[i].status == Classify(r[i].percentage, categories[i].alertThreshold)
    ensures forall i :: 0 <= i < |r| ==> (r[i].status == Exceeded <==> r[i].percentage >= 100.0)
  {
    var monthly := MonthlyTransactions(txns, today);
    var r := seq(|categories|, i requires 0 <= i < |categories| => SpendingOf(categories[i], monthly));
    assert forall i :: 0 <= i < |r| ==>
      r[i].spent == Sum(Filter(txns, (t: Transaction) => InMonthOf(t, today) && ExpenseOf(t, categories[i].name)), Amount) by {
      forall i | 0 <= i < |r|
        ensures r[i].spent == Sum(Filter(txns, (t: Transaction) => InMonthOf(t, today) && ExpenseOf(t, categories[i].name)), Amount)
      {
        SpentCountsMonthExpensesOnly(txns, today, categories[i].name);
      }
    }
    r
  }

  /** The progress bar's width: the percentage, capped at 100. */
  function ProgressWidth(percentage: real): (w: real)
    ensures w <= 100.0
    ensures percentage <= 100.0 ==> w == percentage
    ensures percentage > 100.0 ==> w == 100.0
  {
    if percentage < 100.0 then percentage else 100.0
  }

  /** The recent-transactions list: the first ten of this month's. */
  function RecentTransactions(txns: seq<Transaction>, today: CivilDate): (r: seq<Transaction>)
    ensures |r| <= 10 && |r| <= |MonthlyTransactions(txns, today)|
    ensures |r| == if |MonthlyTransactions(txns, today)| < 10 then |MonthlyTransactions(txns, today)| else 10
    ensures forall i :: 0 <= i < |r| ==> InMonthOf(r[i], today)
    ensures forall i :: 0 <= i < |r| ==> r[i] == MonthlyTransactions(txns, today)[i]
    ensures |MonthlyTransactions(txns, today)| <= 10 ==> r == MonthlyTransactions(txns, today)
  {
    Take(MonthlyTransactions(txns, today), 10)
  }
}
