/** The account balance card: sign, magnitude and the spend bar. */
module AccountBalanceCard {
  import opened Wrappers

  /** `isPositive`: a zero balance counts as positive. */
  predicate IsPositive(balance: real) {
    balance >= 0.0
  }

  /** The "Negative Balance" note. */
  predicate ShowsNegativeNote(balance: real) {
    !IsPositive(balance)
  }

  /** The large figure: the balance without its sign. */
  function DisplayedBalance(balance: real): (r: real)
    ensures r >= 0.0
    ensures r == balance || r == -balance
  {
    if balance < 0.0 then -balance else balance
  }

  /** A balance and its negation show the same figure; only the negative
      one carries the note. */
  lemma SignOnlyInNote(balance: real)
    requires balance > 0.0
    ensures DisplayedBalance(-balance) == DisplayedBalance(balance)
    ensures ShowsNegativeNote(-balance) && !ShowsNegativeNote(balance)
  {
  }

  /** The width of the spend bar in percent: the share of income spent,
      capped at 100, and 0 without income. */
  function BarWidth(income: real, expenses: real): (w: real)
    ensures income <= 0.0 ==> w == 0.0
    ensures income > 0.0 ==> w <= 100.0
    ensures income > 0.0 && w < 100.0 ==> w * income == expenses * 100.0
    ensures income > 0.0 && w == 100.0 ==> expenses >= income
  {
    if income > 0.0 then
      var share := expenses / income * 100.0;
      if share < 100.0 then share else 100.0
    else 0.0
  }

  /** The caption: the uncapped share of income spent, or none when there
      is no income ("No income recorded"). */
  function SpentShare(income: real, expenses: real): (r: Option<real>)
    ensures r.None? <==> income <= 0.0
    ensures r.Some? ==> r.value * income == expenses * 100.0
  {
    if income > 0.0 then Some(expenses / income * 100.0) else None
  }

  /** Overspending fills the bar while the caption reports more than
      100 percent. */
  lemma OverspendingCaption(income: real, expenses: real)
    requires 0.0 < income < expenses
    ensures BarWidth(income, expenses) == 100.0
    ensures SpentShare(income, expenses).value > 100.0
  {
    var p := SpentShare(income, expenses).value;
    assert p * income == expenses * 100.0;
    assert expenses * 100.0 > income * 100.0;
  }
}
