/** The net-worth projection chart: one point per stored projection row. */
module NetWorthChart {
  import Text
  import ProjectionCalculator

  datatype Point = Point(year: string, value: real)

  /** The x-axis label of a row. */
  function YearLabel(yearNumber: int): (s: string)
    ensures |s| > 5 && s[..5] == "Year "
  {
    "Year " + Text.IntToString(yearNumber)
  }

  /** The chart data: each row's label and its `investment_corpus`, in
      input order. */
  function ChartData(projections: seq<ProjectionCalculator.ProjectionYear>): (r: seq<Point>)
    ensures |r| == |projections|
    ensures forall i :: 0 <= i < |r| ==>
              r[i] == Point(YearLabel(projections[i].yearNumber), projections[i].investmentCorpus)
  {
    seq(|projections|, i requires 0 <= i < |projections| =>
      Point(YearLabel(projections[i].yearNumber), projections[i].investmentCorpus))
  }

  /** The placeholder replaces the chart when there are no points. */
  predicate ShowsPlaceholder(projections: seq<ProjectionCalculator.ProjectionYear>) {
    |ChartData(projections)| == 0
  }

  lemma PlaceholderIffEmpty(projections: seq<ProjectionCalculator.ProjectionYear>)
    ensures ShowsPlaceholder(projections) <==> projections == []
  {
  }

  /** The year number can be read back from its label. */
  lemma YearLabelRoundTrip(yearNumber: nat)
    ensures Text.ParseNat(YearLabel(yearNumber)[5..]) == yearNumber
  {
    assert YearLabel(yearNumber)[5..] == Text.NatToString(yearNumber);
    Text.ParseNatToString(yearNumber);
  }

  /** For rows the projection engine produced, the chart plots projected
      assets; it equals net worth only in years without liabilities. */
  lemma ChartPlotsAssets(rows: seq<ProjectionCalculator.ProjectionYear>, inp: ProjectionCalculator.ProjectionInput, currentYear: int, i: nat)
    requires ProjectionCalculator.IsProjection(rows, inp, currentYear)
    requires i < |rows|
    ensures ChartData(rows)[i].value == rows[i].assetsValue
    ensures ChartData(rows)[i].value == rows[i].netWorth <==> rows[i].liabilitiesValue == 0.0
  {
  }
}
