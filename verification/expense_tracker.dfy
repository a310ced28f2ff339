/** The expense tracker card: the expense transactions, their total and
    the empty message. */
module ExpenseTracker {
  import opened Wrappers
  import opened Seqs
  import opened Records

  /** The listed rows: the expense transactions, in input order. */
  function ExpenseRows(txns: seq<Transaction>): (r: seq<Transaction>)
    ensures forall i :: 0 <= i < |r| ==> IsExpense(r[i]) && r[i] in txns
    ensures forall i :: 0 <= i < |txns| && IsExpense(txns[i]) ==> txns[i] in r
    ensures forall t :: multiset(r)[t] == if IsExpense(t) then multiset(txns)[t] else 0
  {
    FilterMultiset(txns, IsExpense);
    Filter(txns, IsExpense)
  }

  /** The rows keep their input order: the rows of a concatenation are the
      concatenation of the rows, and a single transaction is a row exactly
      when it is an expense. */
  lemma ExpenseRowsInOrder(a: seq<Transaction>, b: seq<Transaction>, t: Transaction)
    ensures ExpenseRows(a + b) == ExpenseRows(a) + ExpenseRows(b)
    ensures ExpenseRows([t]) == if IsExpense(t) then [t] else []
  {
    FilterAppend(a, b, IsExpense);
    assert [t][1..] == [];
  }

  /** The header total: the expenses' amounts, a missing amount counting
      as 0. */
  function ExpenseTotal(txns: seq<Transaction>): real {
    Sum(ExpenseRows(txns), Amount)
  }

  /** Inserting an income transaction anywhere leaves the rows and the
      total unchanged. */
  lemma IncomeIgnored(txns: seq<Transaction>, i: nat, t: Transaction)
    requires i <= |txns|
    requires IsIncome(t)
    ensures ExpenseRows(txns[..i] + [t] + txns[i..]) == ExpenseRows(txns)
    ensures ExpenseTotal(txns[..i] + [t] + txns[i..]) == ExpenseTotal(txns)
  {
    FilterSkip(txns[..i], t, txns[i..], IsExpense);
    assert txns[..i] + txns[i..] == txns;
  }

  /** Adding an expense adds its amount to the total. */
  lemma ExpenseAdds(txns: seq<Transaction>, t: Transaction)
    requires IsExpense(t)
    ensures ExpenseTotal(txns + [t]) == ExpenseTotal(txns) + Num(t.amount)
  {
    FilterAppend(txns, [t], IsExpense);
    assert Filter([t], IsExpense) == [t];
    SumAppend(ExpenseRows(txns), [t], Amount);
  }

  /** The row label: the description, or the category when there is none. */
  function RowLabel(t: Transaction): (r: string)
    ensures TruthyText(t.description) ==> r == t.description.value
    ensures !TruthyText(t.description) ==> r == t.category
  {
    OrElseText(t.description, t.category)
  }

  /** "No expenses yet." shows when the expense list is empty. */
  predicate ShowsEmptyMessage(txns: seq<Transaction>) {
    ExpenseRows(txns) == []
  }

  /** The empty message shows exactly when no transaction is an expense. */
  lemma EmptyMessageIff(txns: seq<Transaction>)
    ensures ShowsEmptyMessage(txns) <==> forall i :: 0 <= i < |txns| ==> !IsExpense(txns[i])
  {
    if forall i :: 0 <= i < |txns| ==> !IsExpense(txns[i]) {
      FilterNone(txns, IsExpense);
    }
  }
}
