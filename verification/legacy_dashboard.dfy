/** The older dashboard page: figures computed from the raw transactions,
    a debt total that ignores outstanding balances, the upcoming-bills
    panel and the "Add Data" button. */
module LegacyDashboard {
  import opened Wrappers
  import opened Seqs
  import opened Records
  import AssetsInvestments
  import LiabilitiesView
  import AddItem

  /** `sum + t.amount` over the income transactions. */
  function Income(txns: seq<Transaction>): real {
    Sum(Filter(txns, IsIncome), Amount)
  }

  /** `sum + t.amount` over the expense transactions. */
  function Expenses(txns: seq<Transaction>): real {
    Sum(Filter(txns, IsExpense), Amount)
  }

  /** Every transaction is income or expense, so the two figures add up
      to the total of all amounts. */
  lemma IncomePlusExpenses(txns: seq<Transaction>)
    ensures Income(txns) + Expenses(txns) == Sum(txns, Amount)
  {
    SumFilterSplit(txns, IsIncome, IsExpense, Amount);
  }

  function TotalAmount(l: Liability): real {
    l.totalAmount
  }

  /** This page's `totalDebt`: the original totals, whatever is still
      outstanding. */
  function LegacyTotalDebt(liabilities: seq<Liability>): real {
    Sum(liabilities, TotalAmount)
  }

  /** `netWorth = totalAssets - totalDebt` with this page's debt. */
  function LegacyNetWorth(assets: seq<Asset>, liabilities: seq<Liability>): (r: real)
    ensures r + LegacyTotalDebt(liabilities) == AssetsInvestments.TotalAssets(assets)
  {
    AssetsInvestments.TotalAssets(assets) - LegacyTotalDebt(liabilities)
  }

  /** The two debt totals agree when no liability tracks an outstanding
      amount. */
  lemma DebtTotalsAgreeWithoutOutstanding(liabilities: seq<Liability>)
    requires forall i :: 0 <= i < |liabilities| ==> !Truthy(liabilities[i].outstandingAmount)
    ensures LegacyTotalDebt(liabilities) == LiabilitiesView.TotalDebt(liabilities)
  {
    forall l | l in liabilities
      ensures TotalAmount(l) == Outstanding(l)
    {
      var i :| 0 <= i < |liabilities| && liabilities[i] == l;
    }
    SumSame(liabilities, TotalAmount, Outstanding);
  }

  /** A partly repaid loan shows its full total here and its outstanding
      balance on the main dashboard. */
  lemma DebtTotalsDiffer()
    ensures var l := Liability("car", "loan", 100000.0, Some(40000.0), Some(60000.0), None);
            LegacyTotalDebt([l]) == 100000.0 && LiabilitiesView.TotalDebt([l]) == 40000.0
  {
    var l := Liability("car", "loan", 100000.0, Some(40000.0), Some(60000.0), None);
    assert [l][1..] == [];
  }

  predicate HasDueDate(l: Liability) {
    l.dueDate.Some?
  }

  /** The "Upcoming Bills" panel: the first four liabilities with a due
      date, in input order, whether or not they are near. */
  function UpcomingPanel(liabilities: seq<Liability>): (r: seq<Liability>)
    ensures |r| <= 4 && |r| <= |Filter(liabilities, HasDueDate)|
    ensures forall i :: 0 <= i < |r| ==> r[i] == Filter(liabilities, HasDueDate)[i]
    ensures forall i :: 0 <= i < |r| ==> r[i] in liabilities && r[i].dueDate.Some?
    ensures |r| == if |Filter(liabilities, HasDueDate)| < 4 then |Filter(liabilities, HasDueDate)| else 4
    ensures |Filter(liabilities, HasDueDate)| <= 4 ==> r == Filter(liabilities, HasDueDate)
  {
    Take(Filter(liabilities, HasDueDate), 4)
  }

  predicate IsCardOrLoan(l: Liability) {
    l.kind == "credit_card" || l.kind == "loan"
  }

  /** The "Credit Cards" panel: the first three credit cards or loans, in
      input order. */
  function CardsPanel(liabilities: seq<Liability>): (r: seq<Liability>)
    ensures |r| <= 3 && |r| <= |Filter(liabilities, IsCardOrLoan)|
    ensures forall i :: 0 <= i < |r| ==> r[i] == Filter(liabilities, IsCardOrLoan)[i]
    ensures forall i :: 0 <= i < |r| ==> r[i] in liabilities && (r[i].kind == "credit_card" || r[i].kind == "loan")
    ensures |r| == if |Filter(liabilities, IsCardOrLoan)| < 3 then |Filter(liabilities, IsCardOrLoan)| else 3
    ensures |Filter(liabilities, IsCardOrLoan)| <= 3 ==> r == Filter(liabilities, IsCardOrLoan)
  {
    Take(Filter(liabilities, IsCardOrLoan), 3)
  }

  /** The panel lists loans by the narrower test: an `emi` liability, a
      loan on the liabilities page, never appears in it. */
  lemma EmiNotInCardsPanel(liabilities: seq<Liability>, l: Liability)
    requires l.kind == "emi"
    ensures l !in CardsPanel(liabilities)
    ensures LiabilitiesView.IsLoan(l)
  {
  }

  /** The modal the floating "Add Data" button opens on the current view,
      or none where the button is hidden. */
  function AddDataTarget(view: string): (r: Option<AddItem.ItemType>)
    ensures r.None? <==> view in {"dashboard", "reports", "settings"}
    ensures r.Some? ==> (r.value == AddItem.TransactionItem <==> view == "budget")
    ensures r.Some? ==> (r.value == AddItem.LiabilityItem <==> view == "liabilities")
    ensures r.Some? ==> r.value != AddItem.GoalItem
  {
    if view == "dashboard" || view == "reports" || view == "settings" then None
    else if view == "budget" then Some(AddItem.TransactionItem)
    else if view == "liabilities" then Some(AddItem.LiabilityItem)
    else Some(AddItem.AssetItem)
  }

  /** Every view with the button opens the asset form unless it is the
      budget or liabilities view. */
  lemma OtherViewsAddAssets(view: string)
    requires view !in {"dashboard", "reports", "settings", "budget", "liabilities"}
    ensures AddDataTarget(view) == Some(AddItem.AssetItem)
  {
  }
}
