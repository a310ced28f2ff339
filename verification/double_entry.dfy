/** The simple cash-flow panel: four fixed flow rows and their styling. */
module DoubleEntryFlow {

  /** The fixed-obligations row is a constant, not derived from data. */
  const FixedObsAmount: real := -17000.0

  datatype Flow = Flow(caption: string, amount: real)

  /** The four rows, in display order. The surplus is income minus
      expenses; the fixed-obligations row does not enter it. */
  function Flows(income: real, expenses: real): (r: seq<Flow>)
    ensures |r| == 4
    ensures r[0].caption == "Income" && r[1].caption == "Fixed Obs"
    ensures r[2].caption == "Expenses" && r[3].caption == "Surplus"
    ensures r[0].amount == income && r[2].amount == -expenses
    ensures r[3].amount == income - expenses && r[1].amount == FixedObsAmount
  {
    var surplus := income - expenses;
    [Flow("Income", income), Flow("Fixed Obs", FixedObsAmount), Flow("Expenses", -expenses), Flow("Surplus", surplus)]
  }

  /** The surplus row is the income row plus the expenses row; adding the
      fixed-obligations row as well falls 17000 short of it, whatever the
      figures. */
  lemma SurplusSkipsFixedObs(income: real, expenses: real)
    ensures var r := Flows(income, expenses);
            && r[3].amount == r[0].amount + r[2].amount
            && r[0].amount + r[1].amount + r[2].amount == r[3].amount - 17000.0
            && r[1].amount == -17000.0
  {
  }

  /** How a row shows its amount: a `+` prefix or none, the magnitude and
      whether it is styled green. */
  datatype AmountText = AmountText(prefix: string, magnitude: real, green: bool)

  function ShowAmount(amount: real): (t: AmountText)
    ensures t.prefix == "+" <==> amount > 0.0
    ensures t.prefix == "" <==> amount <= 0.0
    ensures t.green <==> amount > 0.0
    ensures t.magnitude >= 0.0 && (t.magnitude == amount || t.magnitude == -amount)
  {
    AmountText(if amount > 0.0 then "+" else "", if amount < 0.0 then -amount else amount, amount > 0.0)
  }

  /** A negative row and its positive mirror show the same magnitude but
      only the positive one gets the `+`. */
  lemma MirrorSameMagnitude(amount: real)
    requires amount > 0.0
    ensures ShowAmount(-amount).magnitude == ShowAmount(amount).magnitude
    ensures ShowAmount(amount).prefix == "+" && ShowAmount(-amount).prefix == ""
  {
  }
}
