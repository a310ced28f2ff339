/** The monthly cash-flow card: allocation totals, the surplus left after
    income is spent, how each flow line is signed and coloured, and the
    colour and icon of each allocation. */
module MonthlyCashflow {
  import opened Wrappers
  import opened Seqs
  import opened Records

  function AllocationAmount(a: Allocation): real {
    a.amount
  }

  /** Allocations that count as fixed obligations. */
  predicate IsFixedObligation(a: Allocation) {
    a.category == "loan_repayment" || a.category == "insurance"
  }

  /** The sum of the loan-repayment and insurance allocations, as the budget
      view and the dashboard both compute it before passing it to the card. */
  function FixedObligations(allocations: seq<Allocation>): real {
    Sum(Filter(allocations, IsFixedObligation), AllocationAmount)
  }

  /** The sum of all allocation amounts. */
  function TotalAllocations(allocations: seq<Allocation>): real {
    Sum(allocations, AllocationAmount)
  }

  /** What is left of the income after fixed obligations, expenses and all
      allocations. */
  function Surplus(income: real, fixedObligations: real, expenses: real, allocations: seq<Allocation>): real {
    income - fixedObligations - expenses - TotalAllocations(allocations)
  }

  /** The total of all allocations is the fixed obligations plus the rest. */
  lemma AllocationsSplit(allocations: seq<Allocation>)
    ensures TotalAllocations(allocations)
         == FixedObligations(allocations) + Sum(Filter(allocations, (a: Allocation) => !IsFixedObligation(a)), AllocationAmount)
  {
    SumFilterSplit(allocations, IsFixedObligation, (a: Allocation) => !IsFixedObligation(a), AllocationAmount);
  }

  /** When the fixed obligations passed in are computed from the same
      allocations, the loan-repayment and insurance allocations are
      deducted twice: once as fixed obligations and once inside the total. */
  lemma SurplusDeductsFixedTwice(income: real, expenses: real, allocations: seq<Allocation>)
    ensures Surplus(income, FixedObligations(allocations), expenses, allocations)
         == income - expenses - 2.0 * FixedObligations(allocations)
            - Sum(Filter(allocations, (a: Allocation) => !IsFixedObligation(a)), AllocationAmount)
  {
    AllocationsSplit(allocations);
  }

  datatype Tone = Green | Red

  /** How a flow line shows its amount: a sign, the magnitude and a tone. */
  datatype FlowDisplay = FlowDisplay(sign: string, magnitude: real, tone: Tone)

  function Abs(x: real): real {
    if x < 0.0 then -x else x
  }

  /** The card's flow line: `+` and green when flagged positive, `-` and
      red otherwise, always followed by the magnitude. */
  function FlowItem(amount: real, positive: bool): (d: FlowDisplay)
    ensures d.magnitude >= 0.0 && (d.magnitude == amount || d.magnitude == -amount)
    ensures d.sign == "+" <==> positive
    ensures d.tone == Green <==> positive
  {
    FlowDisplay(if positive then "+" else "-", Abs(amount), if positive then Green else Red)
  }

  /** The surplus line is flagged positive only when strictly above zero. */
  function SurplusDisplay(surplus: real): (d: FlowDisplay)
    ensures d.sign == "+" <==> surplus > 0.0
    ensures surplus != 0.0 ==> (if d.sign == "+" then d.magnitude else -d.magnitude) == surplus
    ensures surplus == 0.0 ==> d.sign == "-" && d.magnitude == 0.0
  {
    FlowItem(surplus, surplus > 0.0)
  }

  datatype FlowLine = FlowLine(caption: string, display: FlowDisplay)

  /** The card's lines: Income, Fixed Obligations, Expenses, Allocations
      (only when there are any) and Surplus. */
  function FlowLines(income: real, fixedObligations: real, expenses: real, allocations: seq<Allocation>): (r: seq<FlowLine>)
    ensures |r| == if |allocations| > 0 then 5 else 4
    ensures r[0] == FlowLine("Income", FlowItem(income, true))
    ensures r[|r| - 1] == FlowLine("Surplus", SurplusDisplay(Surplus(income, fixedObligations, expenses, allocations)))
    ensures forall i :: 1 <= i < |r| - 1 ==> r[i].display.sign == "-"
    ensures r[1] == FlowLine("Fixed Obligations", FlowItem(fixedObligations, false))
    ensures r[2] == FlowLine("Expenses", FlowItem(expenses, false))
    ensures (exists i :: 0 <= i < |r| && r[i].caption == "Allocations") <==> |allocations| > 0
    ensures forall i :: 0 <= i < |r| && r[i].caption == "Allocations" ==>
              r[i].display == FlowItem(TotalAllocations(allocations), false)
  {
    var r := [FlowLine("Income", FlowItem(income, true)),
              FlowLine("Fixed Obligations", FlowItem(fixedObligations, false)),
              FlowLine("Expenses", FlowItem(expenses, false))]
             + (if |allocations| > 0 then [FlowLine("Allocations", FlowItem(TotalAllocations(allocations), false))] else [])
             + [FlowLine("Surplus", SurplusDisplay(Surplus(income, fixedObligations, expenses, allocations)))];
    assert |allocations| > 0 ==> r[3].caption == "Allocations";
    r
  }

  /** Colour for each known allocation category. */
  const CategoryColors: map<string, string> := map[
    "sip" := "#10b981",
    "emergency_fund" := "#06b6d4",
    "insurance" := "#ef4444",
    "loan_repayment" := "#f59e0b",
    "savings" := "#8b5cf6",
    "other" := "#71717a"]

  const DefaultCategoryColor: string := "#71717a"

  /** `getCategoryColor`: the category's colour, grey for any other
      category. */
  function CategoryColor(category: string): (c: string)
    ensures category in CategoryColors ==> c == CategoryColors[category]
    ensures category !in CategoryColors ==> c == DefaultCategoryColor
  {
    if category in CategoryColors then CategoryColors[category] else DefaultCategoryColor
  }

  /** An allocation's own colour wins over its category's colour. */
  function AllocationColor(a: Allocation): (c: string)
    ensures TruthyText(a.color) ==> c == a.color.value
    ensures !TruthyText(a.color) ==> c == CategoryColor(a.category)
  {
    OrElseText(a.color, CategoryColor(a.category))
  }

  datatype Icon = TrendingUpIcon | PiggyBankIcon | Building2Icon

  /** `getIconComponent`: the named icon, PiggyBank when the name is
      missing, empty or unknown. */
  function IconFor(name: Option<string>): (i: Icon)
    ensures i == TrendingUpIcon <==> name == Some("TrendingUp")
    ensures i == Building2Icon <==> name == Some("Building2")
    ensures i == PiggyBankIcon <==> name != Some("TrendingUp") && name != Some("Building2")
  {
    var key := OrElseText(name, "PiggyBank");
    if key == "TrendingUp" then TrendingUpIcon
    else if key == "Building2" then Building2Icon
    else PiggyBankIcon
  }
}
