/** The liabilities page: total debt, credit utilisation, the split into
    loans and other debts, loan repayment progress and the credit-card
    utilisation band. */
module LiabilitiesView {
  import opened Wrappers
  import opened Seqs
  import opened Records

  /** `totalDebt`: each liability counts its outstanding balance, or its
      total when no outstanding amount is tracked. */
  function TotalDebt(liabilities: seq<Liability>): real {
    Sum(liabilities, Outstanding)
  }

  function CardBalance(c: CreditCard): real {
    c.outstandingBalance
  }

  function CardLimit(c: CreditCard): real {
    c.creditLimit
  }

  /** `used / limit * 100`, or 0 when there is no positive limit. */
  function Utilization(used: real, limit: real): (u: real)
    ensures limit <= 0.0 ==> u == 0.0
    ensures limit > 0.0 ==> u * limit == used * 100.0
    ensures limit > 0.0 && 0.0 <= used <= limit ==> 0.0 <= u <= 100.0
  {
    if limit > 0.0 then
      var u := used / limit * 100.0;
      assert u * limit == used * 100.0;
      assert 0.0 <= used <= limit ==> 0.0 <= u <= 100.0 by {
        if 0.0 <= used <= limit {
          RatioBounds(used, limit);
        }
      }
      u
    else 0.0
  }

  /** `creditUtilization` over all cards. */
  function CreditUtilization(cards: seq<CreditCard>): (u: real)
    ensures Sum(cards, CardLimit) <= 0.0 ==> u == 0.0
    ensures Sum(cards, CardLimit) > 0.0 ==> u * Sum(cards, CardLimit) == Sum(cards, CardBalance) * 100.0
  {
    Utilization(Sum(cards, CardBalance), Sum(cards, CardLimit))
  }

  predicate IsLoan(l: Liability) {
    l.kind == "loan" || l.kind == "emi"
  }

  predicate IsOtherDebt(l: Liability) {
    l.kind != "loan" && l.kind != "emi"
  }

  function Loans(liabilities: seq<Liability>): seq<Liability> {
    Filter(liabilities, IsLoan)
  }

  function OtherDebts(liabilities: seq<Liability>): seq<Liability> {
    Filter(liabilities, IsOtherDebt)
  }

  /** Loans and other debts split the liabilities: together they hold
      every liability exactly as often as the input does, and their debts
      add up to the total debt. */
  lemma LoansPartition(liabilities: seq<Liability>)
    ensures multiset(Loans(liabilities)) + multiset(OtherDebts(liabilities)) == multiset(liabilities)
    ensures |Loans(liabilities)| + |OtherDebts(liabilities)| == |liabilities|
    ensures TotalDebt(Loans(liabilities)) + TotalDebt(OtherDebts(liabilities)) == TotalDebt(liabilities)
  {
    FilterPartition(liabilities, IsLoan, IsOtherDebt);
    SumFilterSplit(liabilities, IsLoan, IsOtherDebt, Outstanding);
  }

  /** No liability is both a loan and another debt. */
  lemma LoanOrOther(l: Liability)
    ensures IsLoan(l) != IsOtherDebt(l)
  {
  }

  /** `LoanCard` progress: the paid share of the total, in percent, with a
      missing or zero paid amount read as 0 and a non-positive total
      giving 0. */
  function LoanProgress(loan: Liability): (p: real)
    ensures loan.totalAmount <= 0.0 ==> p == 0.0
    ensures loan.totalAmount > 0.0 ==> p * loan.totalAmount == Num(loan.paidAmount) * 100.0
  {
    OrZeroIsNum(loan.paidAmount);
    if loan.totalAmount > 0.0 then OrElse(loan.paidAmount, 0.0) / loan.totalAmount * 100.0 else 0.0
  }

  /** A loan paid off between nothing and in full shows 0 to 100 percent. */
  lemma LoanProgressBounds(loan: Liability)
    requires loan.totalAmount > 0.0
    requires 0.0 <= Num(loan.paidAmount) <= loan.totalAmount
    ensures 0.0 <= LoanProgress(loan) <= 100.0
  {
    OrZeroIsNum(loan.paidAmount);
    RatioBounds(Num(loan.paidAmount), loan.totalAmount);
  }

  /** A share of a positive whole, in percent, lies between 0 and 100. */
  lemma RatioBounds(part: real, whole: real)
    requires whole > 0.0 && 0.0 <= part <= whole
    ensures 0.0 <= part / whole * 100.0 <= 100.0
  {
    assert part / whole * whole == part;
  }

  /** The utilisation shown on one card. */
  function CardUtilization(card: CreditCard): (u: real)
    ensures card.creditLimit <= 0.0 ==> u == 0.0
    ensures card.creditLimit > 0.0 ==> u * card.creditLimit == card.outstandingBalance * 100.0
  {
    Utilization(card.outstandingBalance, card.creditLimit)
  }

  datatype Band = Red | Yellow | Green

  /** The utilisation bar's colour: red above 70, yellow above 50, green
      otherwise. */
  function UtilizationBand(u: real): (b: Band)
    ensures b == Red <==> u > 70.0
    ensures b == Yellow <==> 50.0 < u <= 70.0
    ensures b == Green <==> u <= 50.0
  {
    if u > 70.0 then Red else if u > 50.0 then Yellow else Green
  }

  /** A card without a positive limit always shows green. */
  lemma NoLimitIsGreen(card: CreditCard)
    requires card.creditLimit <= 0.0
    ensures UtilizationBand(CardUtilization(card)) == Green
  {
  }

  /** The outstanding amount a loan card shows is the amount that loan
      adds to the total debt. */
  lemma LoanCardOutstandingInTotal(liabilities: seq<Liability>, i: nat)
    requires i < |liabilities|
    ensures TotalDebt(liabilities)
         == TotalDebt(liabilities[..i]) + Outstanding(liabilities[i]) + TotalDebt(liabilities[i + 1..])
  {
    assert liabilities == liabilities[..i] + [liabilities[i]] + liabilities[i + 1..];
    SumAppend(liabilities[..i] + [liabilities[i]], liabilities[i + 1..], Outstanding);
    SumAppend(liabilities[..i], [liabilities[i]], Outstanding);
  }
}
