/** The reports view's expense chart: the last seven days, the days of the
    current month, or the months of the current year. */
module ReportsView {
  import opened Seqs
  import opened Text
  import opened Calendar
  import opened Records
  import opened Buckets

  datatype Period = Week | Month | Year

  datatype ChartPoint = ChartPoint(name: string, value: real)

  const WeekdayNames: seq<string> := ["Sun", "Mon", "Tue", "Wed", "Thu", "Fri", "Sat"]

  /** The short name of month index `m` (0 = January). */
  function MonthName(m: int): string {
    if m == 0 then "Jan" else if m == 1 then "Feb" else if m == 2 then "Mar"
    else if m == 3 then "Apr" else if m == 4 then "May" else if m == 5 then "Jun"
    else if m == 6 then "Jul" else if m == 7 then "Aug" else if m == 8 then "Sep"
    else if m == 9 then "Oct" else if m == 10 then "Nov" else "Dec"
  }

  function MonthNames(): (r: seq<string>)
    ensures |r| == 12
  {
    seq(12, MonthName)
  }

  /** Day of the week of a day number, Sunday = 0; 1970-01-01 was a
      Thursday. */
  function Weekday(day: int): (w: nat)
    ensures w < 7
  {
    (day + 4) % 7
  }

  function DayKey(t: Transaction): int {
    DayNumber(t.date)
  }

  function DayOfMonthKey(t: Transaction): int {
    t.date.day
  }

  function MonthIndexKey(t: Transaction): int {
    t.date.month - 1
  }

  predicate InMonth(t: Transaction, today: CivilDate) {
    t.date.year == today.year && t.date.month == today.month
  }

  /** An expense dated in the current month. */
  function ExpenseInMonth(today: CivilDate): Transaction -> bool {
    (t: Transaction) => IsExpense(t) && InMonth(t, today)
  }

  /** An expense dated on day `d` of the current month. */
  function ExpenseOnMonthDay(today: CivilDate, d: int): Transaction -> bool {
    (t: Transaction) => IsExpense(t) && InMonth(t, today) && t.date.day == d
  }

  /** An expense dated in the current year. */
  function ExpenseInYear(today: CivilDate): Transaction -> bool {
    (t: Transaction) => IsExpense(t) && t.date.year == today.year
  }

  /** An expense dated in month index `m` (January = 0) of the current
      year. */
  function ExpenseInYearMonth(today: CivilDate, m: int): Transaction -> bool {
    (t: Transaction) => IsExpense(t) && t.date.year == today.year && t.date.month - 1 == m
  }

  /** Dated in the current month and year. */
  function InMonthOf(today: CivilDate): Transaction -> bool {
    (t: Transaction) => InMonth(t, today)
  }

  /** Dated in the current year. */
  function InYearOf(today: CivilDate): Transaction -> bool {
    (t: Transaction) => t.date.year == today.year
  }

  function Expenses(txns: seq<Transaction>): seq<Transaction> {
    Filter(txns, IsExpense)
  }

  function ThisMonth(txns: seq<Transaction>, today: CivilDate): seq<Transaction> {
    Filter(Expenses(txns), InMonthOf(today))
  }

  function ThisYear(txns: seq<Transaction>, today: CivilDate): seq<Transaction> {
    Filter(Expenses(txns), InYearOf(today))
  }

  /** The first day of the seven-day window ending today. */
  function WeekStart(today: CivilDate): int {
    DayNumber(today) - 6
  }

  function Points(names: seq<string>, values: seq<real>): (r: seq<ChartPoint>)
    requires |names| == |values|
    ensures |r| == |names|
    ensures forall i :: 0 <= i < |r| ==> r[i] == ChartPoint(names[i], values[i])
  {
    seq(|names|, i requires 0 <= i < |names| => ChartPoint(names[i], values[i]))
  }

  lemma ValuesOfPoints(names: seq<string>, values: seq<real>)
    requires |names| == |values|
    ensures Values(Points(names, values)) == values
  {
  }

  /** The points of a bucketed chart add up to the elements whose key is
      in range. */
  lemma BucketChartTotal(xs: seq<Transaction>, key: Transaction -> int, names: seq<string>, lo: int, n: nat)
    requires |names| == n
    ensures Total(Values(Points(names, BucketSums(xs, key, Amount, lo, n)))) == Sum(Filter(xs, KeyIn(key, lo, lo + n)), Amount)
  {
    ValuesOfPoints(names, BucketSums(xs, key, Amount, lo, n));
    BucketsPartitionRange(xs, key, Amount, lo, n);
  }

  /** Point `i` of a bucketed chart carries name `i` and the sum of the
      elements whose key is `lo + i`. */
  lemma BucketChartPoint(xs: seq<Transaction>, key: Transaction -> int, names: seq<string>, lo: int, n: nat, i: nat)
    requires |names| == n && i < n
    ensures Points(names, BucketSums(xs, key, Amount, lo, n))[i] == ChartPoint(names[i], Sum(Filter(xs, KeyIs(key, lo + i)), Amount))
  {
  }

  function Values(points: seq<ChartPoint>): (r: seq<real>)
    ensures |r| == |points|
    ensures forall i :: 0 <= i < |r| ==> r[i] == points[i].value
  {
    seq(|points|, i requires 0 <= i < |points| => points[i].value)
  }

  /** `chartData`. */
  function ChartData(txns: seq<Transaction>, period: Period, today: CivilDate): seq<ChartPoint> {
    match period
    case Week => WeekData(txns, today)
    case Month => MonthData(txns, today)
    case Year => YearData(txns, today)
  }

  function WeekData(txns: seq<Transaction>, today: CivilDate): seq<ChartPoint> {
    Points(seq(7, i requires 0 <= i < 7 => WeekdayNames[Weekday(WeekStart(today) + i)]),
           BucketSums(Expenses(txns), DayKey, Amount, WeekStart(today), 7))
  }

  function MonthData(txns: seq<Transaction>, today: CivilDate): seq<ChartPoint> {
    var n := DaysInMonth(today.year, today.month);
    Points(seq(n, i requires 0 <= i < n => IntToString(i + 1)),
           BucketSums(ThisMonth(txns, today), DayOfMonthKey, Amount, 1, n))
  }

  function YearData(txns: seq<Transaction>, today: CivilDate): seq<ChartPoint> {
    Points(MonthNames(), BucketSums(ThisYear(txns, today), MonthIndexKey, Amount, 0, 12))
  }

  lemma WeekPoint(txns: seq<Transaction>, today: CivilDate, i: nat)
    requires i < 7
    ensures |ChartData(txns, Week, today)| == 7
    ensures ChartData(txns, Week, today)[i] ==
      ChartPoint(WeekdayNames[Weekday(DayNumber(today) - (6 - i))],
                 Sum(Filter(txns, ExpenseOnDay(DayNumber(today) - (6 - i))), Amount))
  {
    FilterFilter(txns, IsExpense, KeyIs(DayKey, WeekStart(today) + i), ExpenseOnDay(DayNumber(today) - (6 - i)));
  }

  /** Week: seven points, oldest first; point `i` is the day `today - (6 - i)`,
      named by its weekday, holding the expenses dated that day. */
  lemma WeekChart(txns: seq<Transaction>, today: CivilDate)
    ensures |ChartData(txns, Week, today)| == 7
    ensures forall i :: 0 <= i < 7 ==>
      ChartData(txns, Week, today)[i] ==
        ChartPoint(WeekdayNames[Weekday(DayNumber(today) - (6 - i))],
                   Sum(Filter(txns, ExpenseOnDay(DayNumber(today) - (6 - i))), Amount))
  {
    forall i | 0 <= i < 7 {
      WeekPoint(txns, today, i);
    }
  }

  lemma MonthPoint(txns: seq<Transaction>, today: CivilDate, i: nat)
    requires i < DaysInMonth(today.year, today.month)
    ensures |ChartData(txns, Month, today)| == DaysInMonth(today.year, today.month)
    ensures ChartData(txns, Month, today)[i] ==
      ChartPoint(IntToString(i + 1), Sum(Filter(txns, ExpenseOnMonthDay(today, i + 1)), Amount))
  {
    var n := DaysInMonth(today.year, today.month);
    BucketChartPoint(ThisMonth(txns, today), DayOfMonthKey, seq(n, j requires 0 <= j < n => IntToString(j + 1)), 1, n, i);
    FilterFilter(txns, IsExpense, InMonthOf(today), ExpenseInMonth(today));
    FilterFilter(txns, ExpenseInMonth(today), KeyIs(DayOfMonthKey, 1 + i), ExpenseOnMonthDay(today, i + 1));
  }

  /** Month: one point per day of the current month, named `1` to `n`,
      holding that day's expenses. */
  lemma MonthChart(txns: seq<Transaction>, today: CivilDate)
    ensures |ChartData(txns, Month, today)| == DaysInMonth(today.year, today.month)
    ensures forall i :: 0 <= i < |ChartData(txns, Month, today)| ==>
      ChartData(txns, Month, today)[i] ==
        ChartPoint(IntToString(i + 1), Sum(Filter(txns, ExpenseOnMonthDay(today, i + 1)), Amount))
  {
    forall i | 0 <= i < DaysInMonth(today.year, today.month) {
      MonthPoint(txns, today, i);
    }
  }

  lemma YearPoint(txns: seq<Transaction>, today: CivilDate, i: nat)
    requires i < 12
    ensures |ChartData(txns, Year, today)| == 12
    ensures ChartData(txns, Year, today)[i] ==
      ChartPoint(MonthName(i), Sum(Filter(txns, ExpenseInYearMonth(today, i)), Amount))
  {
    BucketChartPoint(ThisYear(txns, today), MonthIndexKey, MonthNames(), 0, 12, i);
    FilterFilter(txns, IsExpense, InYearOf(today), ExpenseInYear(today));
    FilterFilter(txns, ExpenseInYear(today), KeyIs(MonthIndexKey, 0 + i), ExpenseInYearMonth(today, i));
  }

  /** Year: twelve points named `Jan` to `Dec`, point `i` holding the
      expenses of month index `i` of the current year. */
  lemma YearChart(txns: seq<Transaction>, today: CivilDate)
    ensures |ChartData(txns, Year, today)| == 12
    ensures forall i :: 0 <= i < 12 ==>
      ChartData(txns, Year, today)[i] ==
        ChartPoint(MonthName(i), Sum(Filter(txns, ExpenseInYearMonth(today, i)), Amount))
  {
    forall i | 0 <= i < 12 {
      YearPoint(txns, today, i);
    }
  }

  /** The week's points add up to the expenses of the seven days ending
      today. */
  lemma WeekTotal(txns: seq<Transaction>, today: CivilDate)
    ensures Total(Values(ChartData(txns, Week, today)))
         == Sum(Filter(txns, ExpenseInWindow(DayNumber(today) - 6, DayNumber(today) + 1)), Amount)
  {
    var lo := WeekStart(today);
    assert Values(ChartData(txns, Week, today)) == BucketSums(Expenses(txns), DayKey, Amount, lo, 7);
    BucketsPartitionRange(Expenses(txns), DayKey, Amount, lo, 7);
    forall t: Transaction
      ensures ExpenseInWindow(DayNumber(today) - 6, DayNumber(today) + 1)(t) == (IsExpense(t) && KeyIn(DayKey, lo, lo + 7)(t))
    {
      assert DayKey(t) == DayNumber(t.date);
    }
    FilterFilter(txns, IsExpense, KeyIn(DayKey, lo, lo + 7), ExpenseInWindow(DayNumber(today) - 6, DayNumber(today) + 1));
  }

  /** Every stored date is a real calendar day, so each of this month's
      expenses lands in exactly one day's point: the points add up to the
      month's expenses. */
  lemma MonthTotal(txns: seq<Transaction>, today: CivilDate)
    requires forall t :: t in txns ==> ValidDate(t.date)
    ensures Total(Values(ChartData(txns, Month, today))) == Sum(Filter(txns, ExpenseInMonth(today)), Amount)
  {
    MonthValues(txns, today);
    MonthKeysInRange(txns, today);
    FilterFilter(txns, IsExpense, InMonthOf(today), ExpenseInMonth(today));
  }

  lemma MonthKeysInRange(txns: seq<Transaction>, today: CivilDate)
    requires forall t :: t in txns ==> ValidDate(t.date)
    ensures var n := DaysInMonth(today.year, today.month);
            Filter(ThisMonth(txns, today), KeyIn(DayOfMonthKey, 1, 1 + n)) == ThisMonth(txns, today)
  {
    var n := DaysInMonth(today.year, today.month);
    var month := ThisMonth(txns, today);
    forall k | 0 <= k < |month|
      ensures KeyIn(DayOfMonthKey, 1, 1 + n)(month[k])
    {
      var t := month[k];
      assert t in Expenses(txns) && InMonth(t, today);
      assert t in txns;
      assert ValidDate(t.date);
      assert DaysInMonth(t.date.year, t.date.month) == n;
      assert 1 <= DayOfMonthKey(t) < 1 + n;
    }
    FilterKeepsAll(month, KeyIn(DayOfMonthKey, 1, 1 + n));
  }

  lemma MonthValues(txns: seq<Transaction>, today: CivilDate)
    ensures var n := DaysInMonth(today.year, today.month);
            Total(Values(ChartData(txns, Month, today))) == Sum(Filter(ThisMonth(txns, today), KeyIn(DayOfMonthKey, 1, 1 + n)), Amount)
  {
    var n := DaysInMonth(today.year, today.month);
    var month := ThisMonth(txns, today);
    BucketChartTotal(month, DayOfMonthKey, seq(n, i requires 0 <= i < n => IntToString(i + 1)), 1, n);
  }

  lemma YearKeysInRange(txns: seq<Transaction>, today: CivilDate)
    requires forall t :: t in txns ==> ValidDate(t.date)
    ensures Filter(ThisYear(txns, today), KeyIn(MonthIndexKey, 0, 0 + 12)) == ThisYear(txns, today)
  {
    var year := ThisYear(txns, today);
    forall k | 0 <= k < |year|
      ensures KeyIn(MonthIndexKey, 0, 12)(year[k])
    {
      var t := year[k];
      assert t in Expenses(txns);
      assert t in txns;
      assert ValidDate(t.date);
      assert MonthIndexKey(t) == t.date.month - 1;
    }
    FilterKeepsAll(year, KeyIn(MonthIndexKey, 0, 12));
  }

  /** Every stored date has a month from 1 to 12, so each of this year's
      expenses lands in exactly one month's point. */
  lemma YearTotal(txns: seq<Transaction>, today: CivilDate)
    requires forall t :: t in txns ==> ValidDate(t.date)
    ensures Total(Values(ChartData(txns, Year, today))) == Sum(Filter(txns, ExpenseInYear(today)), Amount)
  {
    BucketChartTotal(ThisYear(txns, today), MonthIndexKey, MonthNames(), 0, 12);
    YearKeysInRange(txns, today);
    FilterFilter(txns, IsExpense, InYearOf(today), ExpenseInYear(today));
  }
}
