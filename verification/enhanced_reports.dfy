/** The enhanced reports view: spending per category, the daily spending
    series, the look-back window sent to the weekday analysis, the CSV
    export and the budget-comparison colour. */
module EnhancedReports {
  import opened Wrappers
  import opened Seqs
  import opened Text
  import opened Calendar
  import opened Records
  import opened Buckets

  // ---- categoryData ----

  /** One slice of the category chart. */
  datatype CategoryTotal = CategoryTotal(name: string, value: real)

  function Value(c: CategoryTotal): real {
    c.value
  }

  function Names(acc: seq<CategoryTotal>): (r: seq<string>)
    ensures |r| == |acc|
    ensures forall i :: 0 <= i < |acc| ==> r[i] == acc[i].name
  {
    if acc == [] then [] else [acc[0].name] + Names(acc[1..])
  }

  ghost predicate DistinctNames(acc: seq<CategoryTotal>) {
    forall i, j :: 0 <= i < j < |acc| ==> acc[i].name != acc[j].name
  }

  /** The value of the first entry named `n`, 0 when there is none. */
  function ValueOf(acc: seq<CategoryTotal>, n: string): real {
    if acc == [] then 0.0
    else if acc[0].name == n then acc[0].value
    else ValueOf(acc[1..], n)
  }

  /** One step of the reduce: add `amount` to the entry named `name`, or
      push a new entry at the end. */
  function AddTo(acc: seq<CategoryTotal>, name: string, amount: real): (r: seq<CategoryTotal>)
    ensures Names(r) == if name in Names(acc) then Names(acc) else Names(acc) + [name]
    ensures forall i :: 0 <= i < |r| && r[i].name != name ==> r[i] == acc[i]
    ensures Sum(r, Value) == Sum(acc, Value) + amount
  {
    if acc == [] then [CategoryTotal(name, amount)]
    else if acc[0].name == name then
      var r := [CategoryTotal(name, acc[0].value + amount)] + acc[1..];
      assert r[1..] == acc[1..];
      r
    else
      var rest := AddTo(acc[1..], name, amount);
      var r := [acc[0]] + rest;
      assert r[1..] == rest;
      assert name in Names(acc) <==> name in Names(acc[1..]);
      r
  }

  /** With distinct names the entry named `name` ends up holding the old
      value plus `amount`. */
  lemma {:induction false} AddToValue(acc: seq<CategoryTotal>, name: string, amount: real)
    requires DistinctNames(acc)
    ensures forall i :: 0 <= i < |AddTo(acc, name, amount)| && AddTo(acc, name, amount)[i].name == name ==>
      AddTo(acc, name, amount)[i].value == ValueOf(acc, name) + amount
  {
    if acc != [] && acc[0].name != name {
      AddToValue(acc[1..], name, amount);
    }
  }

  /** The `reduce` over the expense transactions, oldest call first. */
  function Accumulate(xs: seq<Transaction>): seq<CategoryTotal> {
    if xs == [] then []
    else AddTo(Accumulate(xs[..|xs| - 1]), xs[|xs| - 1].category, Amount(xs[|xs| - 1]))
  }

  function Categories(xs: seq<Transaction>): (r: seq<string>)
    ensures |r| == |xs|
    ensures forall i :: 0 <= i < |xs| ==> r[i] == xs[i].category
  {
    seq(|xs|, i requires 0 <= i < |xs| => xs[i].category)
  }

  function InCategory(n: string): Transaction -> bool {
    (t: Transaction) => t.category == n
  }

  /** The amount of the transactions of category `n`. */
  function CategorySum(xs: seq<Transaction>, n: string): real {
    Sum(Filter(xs, InCategory(n)), Amount)
  }

  lemma CategorySumSnoc(xs: seq<Transaction>, t: Transaction, n: string)
    ensures CategorySum(xs + [t], n) == CategorySum(xs, n) + (if t.category == n then Amount(t) else 0.0)
  {
    FilterAppend(xs, [t], InCategory(n));
    SumAppend(Filter(xs, InCategory(n)), Filter([t], InCategory(n)), Amount);
  }

  lemma CategorySumAbsent(xs: seq<Transaction>, n: string)
    requires n !in Categories(xs)
    ensures CategorySum(xs, n) == 0.0
  {
    forall k | 0 <= k < |xs|
      ensures !InCategory(n)(xs[k])
    {
      assert Categories(xs)[k] == xs[k].category;
    }
    FilterNone(xs, InCategory(n));
  }

  lemma {:induction false} ValueOfFound(acc: seq<CategoryTotal>, i: nat)
    requires DistinctNames(acc)
    requires i < |acc|
    ensures ValueOf(acc, acc[i].name) == acc[i].value
  {
    if i > 0 {
      ValueOfFound(acc[1..], i - 1);
    }
  }

  lemma {:induction false} ValueOfMissing(acc: seq<CategoryTotal>, n: string)
    requires n !in Names(acc)
    ensures ValueOf(acc, n) == 0.0
  {
    if acc != [] {
      assert Names(acc[1..]) == Names(acc)[1..];
      ValueOfMissing(acc[1..], n);
    }
  }

  /** What the reduce builds, step by step: one entry per distinct category
      seen so far, in first-seen order, each holding its category's sum. */
  ghost predicate Tallies(acc: seq<CategoryTotal>, xs: seq<Transaction>) {
    && DistinctNames(acc)
    && (forall n :: n in Names(acc) <==> n in Categories(xs))
    && (forall i :: 0 <= i < |acc| ==> acc[i].value == CategorySum(xs, acc[i].name))
    && Sum(acc, Value) == Sum(xs, Amount)
  }

  lemma AddToKeepsDistinct(acc: seq<CategoryTotal>, name: string, amount: real)
    requires DistinctNames(acc)
    ensures DistinctNames(AddTo(acc, name, amount))
  {
    var r := AddTo(acc, name, amount);
    forall i, j | 0 <= i < j < |r|
      ensures r[i].name != r[j].name
    {
      assert Names(r)[i] == r[i].name && Names(r)[j] == r[j].name;
      if j >= |acc| {
        assert Names(r)[j] == name && name !in Names(acc);
        assert Names(acc)[i] == r[i].name;
      } else {
        assert Names(acc)[i] == r[i].name && Names(acc)[j] == r[j].name;
      }
    }
  }

  /** The entry `i` after adding `t` holds its category's sum over
      `xs + [t]`. */
  lemma AddToEntryValue(acc: seq<CategoryTotal>, xs: seq<Transaction>, t: Transaction, i: nat)
    requires DistinctNames(acc)
    requires forall n :: n in Names(acc) <==> n in Categories(xs)
    requires forall i :: 0 <= i < |acc| ==> acc[i].value == CategorySum(xs, acc[i].name)
    requires i < |AddTo(acc, t.category, Amount(t))|
    ensures AddTo(acc, t.category, Amount(t))[i].value == CategorySum(xs + [t], AddTo(acc, t.category, Amount(t))[i].name)
  {
    if AddTo(acc, t.category, Amount(t))[i].name == t.category {
      AddToSameEntry(acc, xs, t, i);
    } else {
      AddToOtherEntry(acc, xs, t, i);
    }
  }

  /** The entry of `t`'s own category grows by `t`'s amount. */
  lemma AddToSameEntry(acc: seq<CategoryTotal>, xs: seq<Transaction>, t: Transaction, i: nat)
    requires DistinctNames(acc)
    requires forall n :: n in Names(acc) <==> n in Categories(xs)
    requires forall i :: 0 <= i < |acc| ==> acc[i].value == CategorySum(xs, acc[i].name)
    requires i < |AddTo(acc, t.category, Amount(t))| && AddTo(acc, t.category, Amount(t))[i].name == t.category
    ensures AddTo(acc, t.category, Amount(t))[i].value == CategorySum(xs + [t], t.category)
  {
    CategorySumSnoc(xs, t, t.category);
    AddToValue(acc, t.category, Amount(t));
    ValueOfTallied(acc, xs, t.category);
  }

  /** Every other entry keeps its value, and `t` does not change its sum. */
  lemma AddToOtherEntry(acc: seq<CategoryTotal>, xs: seq<Transaction>, t: Transaction, i: nat)
    requires i < |acc| ==> acc[i].value == CategorySum(xs, acc[i].name)
    requires i < |AddTo(acc, t.category, Amount(t))| && AddTo(acc, t.category, Amount(t))[i].name != t.category
    ensures AddTo(acc, t.category, Amount(t))[i].value == CategorySum(xs + [t], AddTo(acc, t.category, Amount(t))[i].name)
  {
    var r := AddTo(acc, t.category, Amount(t));
    assert r[i] == acc[i];
    CategorySumSnoc(xs, t, r[i].name);
  }

  /** In a tally, looking a category up gives its sum, 0 when it is
      absent. */
  lemma ValueOfTallied(acc: seq<CategoryTotal>, xs: seq<Transaction>, n: string)
    requires DistinctNames(acc)
    requires forall n :: n in Names(acc) <==> n in Categories(xs)
    requires forall i :: 0 <= i < |acc| ==> acc[i].value == CategorySum(xs, acc[i].name)
    ensures ValueOf(acc, n) == CategorySum(xs, n)
  {
    if n in Names(acc) {
      var k :| 0 <= k < |acc| && Names(acc)[k] == n;
      ValueOfFound(acc, k);
    } else {
      ValueOfMissing(acc, n);
      CategorySumAbsent(xs, n);
    }
  }

  lemma AddToKeepsValues(acc: seq<CategoryTotal>, xs: seq<Transaction>, t: Transaction)
    requires DistinctNames(acc)
    requires forall n :: n in Names(acc) <==> n in Categories(xs)
    requires forall i :: 0 <= i < |acc| ==> acc[i].value == CategorySum(xs, acc[i].name)
    ensures forall i :: 0 <= i < |AddTo(acc, t.category, Amount(t))| ==>
      AddTo(acc, t.category, Amount(t))[i].value == CategorySum(xs + [t], AddTo(acc, t.category, Amount(t))[i].name)
  {
    forall i | 0 <= i < |AddTo(acc, t.category, Amount(t))|
      ensures AddTo(acc, t.category, Amount(t))[i].value == CategorySum(xs + [t], AddTo(acc, t.category, Amount(t))[i].name)
    {
      AddToEntryValue(acc, xs, t, i);
    }
  }

  lemma AddToKeepsTallies(acc: seq<CategoryTotal>, xs: seq<Transaction>, t: Transaction)
    requires Tallies(acc, xs)
    ensures Tallies(AddTo(acc, t.category, Amount(t)), xs + [t])
  {
    AddToKeepsDistinct(acc, t.category, Amount(t));
    AddToKeepsNames(acc, xs, t);
    AddToKeepsValues(acc, xs, t);
    SumAppend(xs, [t], Amount);
  }

  /** The names after adding `t` are the categories of `xs + [t]`. */
  lemma AddToKeepsNames(acc: seq<CategoryTotal>, xs: seq<Transaction>, t: Transaction)
    requires forall n :: n in Names(acc) <==> n in Categories(xs)
    ensures forall n :: n in Names(AddTo(acc, t.category, Amount(t))) <==> n in Categories(xs + [t])
  {
    assert Categories(xs + [t]) == Categories(xs) + [t.category];
  }

  lemma AccumulateSnoc(init: seq<Transaction>, t: Transaction)
    ensures Accumulate(init + [t]) == AddTo(Accumulate(init), t.category, Amount(t))
  {
    assert (init + [t])[..|init|] == init;
  }

  lemma {:induction false} AccumulateTallies(xs: seq<Transaction>)
    ensures Tallies(Accumulate(xs), xs)
  {
    if xs != [] {
      var init, t := xs[..|xs| - 1], xs[|xs| - 1];
      assert xs == init + [t];
      AccumulateTallies(init);
      AccumulateSnoc(init, t);
      AddToKeepsTallies(Accumulate(init), init, t);
    }
  }

  /** A list whose names are distinct holds each entry once. */
  lemma {:induction false} DistinctCount(acc: seq<CategoryTotal>, x: CategoryTotal)
    requires DistinctNames(acc)
    ensures multiset(acc)[x] <= 1
  {
    if acc != [] {
      DistinctCount(acc[1..], x);
      assert acc == [acc[0]] + acc[1..];
      if x == acc[0] {
        assert forall k :: 0 <= k < |acc[1..]| ==> acc[1..][k].name != x.name;
        assert x !in acc[1..];
      }
    }
  }

  /** Reordering keeps the names distinct. */
  lemma DistinctNamesPermutation(a: seq<CategoryTotal>, b: seq<CategoryTotal>)
    requires multiset(a) == multiset(b)
    requires DistinctNames(a)
    ensures DistinctNames(b)
  {
    SameElements(a, b);
    forall i, j | 0 <= i < j < |b|
      ensures b[i].name != b[j].name
    {
      if b[i].name == b[j].name {
        if b[i] == b[j] {
          assert b == b[..j] + b[j..];
          assert b[i] in b[..j];
          assert b[j] in b[j..];
          assert multiset(b)[b[i]] == multiset(b[..j])[b[i]] + multiset(b[j..])[b[i]];
          DistinctCount(a, b[i]);
          assert false;
        } else {
          assert false;
        }
      }
    }
  }

  /** An expense of category `n`. */
  function ExpenseIn(n: string): Transaction -> bool {
    (t: Transaction) => IsExpense(t) && t.category == n
  }

  /** `categoryData`: the expense categories with their totals, largest
      first. */
  function CategoryData(txns: seq<Transaction>): (r: seq<CategoryTotal>)
    ensures SortedDesc(r, Value)
    ensures DistinctNames(r)
    ensures forall n :: n in Names(r) <==> n in Categories(Filter(txns, IsExpense))
    ensures forall i :: 0 <= i < |r| ==> r[i].value == Sum(Filter(txns, ExpenseIn(r[i].name)), Amount)
    ensures Sum(r, Value) == Sum(Filter(txns, IsExpense), Amount)
  {
    var expenses := Filter(txns, IsExpense);
    var acc := Accumulate(expenses);
    var r := SortDesc(acc, Value);
    AccumulateTallies(expenses);
    CategoryDataFacts(txns, acc, r);
    r
  }

  /** Reordering keeps the set of names. */
  lemma PermutedNames(acc: seq<CategoryTotal>, r: seq<CategoryTotal>)
    requires multiset(r) == multiset(acc)
    ensures forall n :: n in Names(r) <==> n in Names(acc)
  {
    SameElements(acc, r);
    forall n
      ensures n in Names(r) <==> n in Names(acc)
    {
      if n in Names(r) {
        var i :| 0 <= i < |r| && Names(r)[i] == n;
        var k :| 0 <= k < |acc| && acc[k] == r[i];
        assert Names(acc)[k] == n;
      }
      if n in Names(acc) {
        var k :| 0 <= k < |acc| && Names(acc)[k] == n;
        var i :| 0 <= i < |r| && r[i] == acc[k];
        assert Names(r)[i] == n;
      }
    }
  }

  /** Reordering keeps each entry's value equal to its category's expenses. */
  lemma PermutedValues(txns: seq<Transaction>, acc: seq<CategoryTotal>, r: seq<CategoryTotal>)
    requires multiset(r) == multiset(acc)
    requires forall i :: 0 <= i < |acc| ==> acc[i].value == CategorySum(Filter(txns, IsExpense), acc[i].name)
    ensures forall i :: 0 <= i < |r| ==> r[i].value == Sum(Filter(txns, ExpenseIn(r[i].name)), Amount)
  {
    SameElements(acc, r);
    forall i | 0 <= i < |r|
      ensures r[i].value == Sum(Filter(txns, ExpenseIn(r[i].name)), Amount)
    {
      var k :| 0 <= k < |acc| && acc[k] == r[i];
      FilterFilter(txns, IsExpense, InCategory(r[i].name), ExpenseIn(r[i].name));
    }
  }

  lemma CategoryDataFacts(txns: seq<Transaction>, acc: seq<CategoryTotal>, r: seq<CategoryTotal>)
    requires Tallies(acc, Filter(txns, IsExpense))
    requires multiset(r) == multiset(acc)
    ensures DistinctNames(r)
    ensures forall n :: n in Names(r) <==> n in Categories(Filter(txns, IsExpense))
    ensures forall i :: 0 <= i < |r| ==> r[i].value == Sum(Filter(txns, ExpenseIn(r[i].name)), Amount)
    ensures Sum(r, Value) == Sum(Filter(txns, IsExpense), Amount)
  {
    DistinctNamesPermutation(acc, r);
    PermutedNames(acc, r);
    PermutedValues(txns, acc, r);
    SumPermutation(r, acc, Value);
  }

  // ---- dailySpendData ----

  datatype Timeframe = WeekFrame | MonthFrame | YearFrame

  /** `p_days`: how far back the weekday analysis looks. */
  function LookbackDays(tf: Timeframe): (d: nat)
    ensures tf == WeekFrame <==> d == 7
    ensures tf == MonthFrame <==> d == 30
    ensures tf == YearFrame <==> d == 365
  {
    match tf
    case WeekFrame => 7
    case MonthFrame => 30
    case YearFrame => 365
  }

  /** The length of the daily series: a week for `week`, thirty days for
      both `month` and `year`. */
  function SeriesLength(tf: Timeframe): (n: nat)
    ensures n <= LookbackDays(tf)
  {
    if tf == WeekFrame then 7 else 30
  }

  /** A day of the series: its day number and what was spent on it. */
  datatype DaySpend = DaySpend(day: int, amount: real)

  function TxnDay(t: Transaction): int {
    DayNumber(t.date)
  }

  function DailyDay(e: DailyExpense): int {
    DayNumber(e.date)
  }

  function DailyAmount(e: DailyExpense): real {
    e.amount
  }

  /** `n` consecutive days from day number `lo`, each with its expense
      transactions and its daily expenses. */
  function SpendSeries(txns: seq<Transaction>, daily: seq<DailyExpense>, lo: int, n: nat): (r: seq<DaySpend>)
    ensures |r| == n
    ensures forall i :: 0 <= i < n ==> r[i].day == lo + i
  {
    var fromTxns := BucketSums(Filter(txns, IsExpense), TxnDay, Amount, lo, n);
    var fromDaily := BucketSums(daily, DailyDay, DailyAmount, lo, n);
    seq(n, i requires 0 <= i < n => DaySpend(lo + i, fromTxns[i] + fromDaily[i]))
  }

  /** The first day of the series ending on day number `todayNumber`. */
  function SeriesStart(tf: Timeframe, todayNumber: int): int {
    todayNumber - (SeriesLength(tf) - 1)
  }

  /** `dailySpendData`: the last `n` days, oldest first, ending on day
      number `todayNumber` (the caller passes `DayNumber(today)`). */
  function DailySpendData(txns: seq<Transaction>, daily: seq<DailyExpense>, tf: Timeframe, todayNumber: int): (r: seq<DaySpend>)
    ensures |r| == SeriesLength(tf)
    ensures forall i :: 0 <= i < |r| ==> r[i].day == todayNumber - (|r| - 1 - i)
  {
    SpendSeries(txns, daily, SeriesStart(tf, todayNumber), SeriesLength(tf))
  }

  /** A daily expense dated on day number `day`. */
  function DailyOn(day: int): DailyExpense -> bool {
    KeyIs(DailyDay, day)
  }

  /** A daily expense dated in `[lo, hi)`, as day numbers. */
  function DailyInWindow(lo: int, hi: int): DailyExpense -> bool {
    KeyIn(DailyDay, lo, hi)
  }

  lemma ExpenseOnDayByKey(day: int)
    ensures forall t :: ExpenseOnDay(day)(t) == (IsExpense(t) && KeyIs(TxnDay, day)(t))
  {
    forall t
      ensures ExpenseOnDay(day)(t) == (IsExpense(t) && KeyIs(TxnDay, day)(t))
    {
      assert TxnDay(t) == DayNumber(t.date);
    }
  }

  lemma ExpenseInWindowByKey(lo: int, hi: int)
    ensures forall t :: ExpenseInWindow(lo, hi)(t) == (IsExpense(t) && KeyIn(TxnDay, lo, hi)(t))
  {
    forall t
      ensures ExpenseInWindow(lo, hi)(t) == (IsExpense(t) && KeyIn(TxnDay, lo, hi)(t))
    {
      assert TxnDay(t) == DayNumber(t.date);
      assert ExpenseInWindow(lo, hi)(t) == (IsExpense(t) && lo <= DayNumber(t.date) < hi);
      assert KeyIn(TxnDay, lo, hi)(t) == (lo <= TxnDay(t) < hi);
    }
  }

  /** Day `lo + i` of a series holds that day's expense transactions plus
      that day's daily expenses; income is never counted. */
  lemma SpendSeriesPoint(txns: seq<Transaction>, daily: seq<DailyExpense>, lo: int, n: nat, i: nat)
    requires i < n
    ensures var p := SpendSeries(txns, daily, lo, n)[i];
            p.amount == Sum(Filter(txns, ExpenseOnDay(p.day)), Amount) + Sum(Filter(daily, DailyOn(p.day)), DailyAmount)
  {
    var p := SpendSeries(txns, daily, lo, n)[i];
    assert p.day == lo + i;
    ExpenseOnDayByKey(lo + i);
    FilterFilter(txns, IsExpense, KeyIs(TxnDay, lo + i), ExpenseOnDay(lo + i));
  }

  function Amounts(r: seq<DaySpend>): (a: seq<real>)
    ensures |a| == |r|
    ensures forall i :: 0 <= i < |r| ==> a[i] == r[i].amount
  {
    seq(|r|, i requires 0 <= i < |r| => r[i].amount)
  }

  /** A series adds up to everything spent in its window. */
  lemma SpendSeriesTotal(txns: seq<Transaction>, daily: seq<DailyExpense>, lo: int, n: nat)
    ensures Total(Amounts(SpendSeries(txns, daily, lo, n)))
         == Sum(Filter(txns, ExpenseInWindow(lo, lo + n)), Amount) + Sum(Filter(daily, DailyInWindow(lo, lo + n)), DailyAmount)
  {
    TotalPointwise(BucketSums(Filter(txns, IsExpense), TxnDay, Amount, lo, n),
                   BucketSums(daily, DailyDay, DailyAmount, lo, n),
                   Amounts(SpendSeries(txns, daily, lo, n)));
    BucketsPartitionRange(Filter(txns, IsExpense), TxnDay, Amount, lo, n);
    BucketsPartitionRange(daily, DailyDay, DailyAmount, lo, n);
    ExpenseInWindowByKey(lo, lo + n);
    FilterFilter(txns, IsExpense, KeyIn(TxnDay, lo, lo + n), ExpenseInWindow(lo, lo + n));
  }

  /** Each day of the dashboard series: expense transactions plus daily
      expenses dated `n - 1 - i` days before today. */
  lemma DailySpendPoint(txns: seq<Transaction>, daily: seq<DailyExpense>, tf: Timeframe, todayNumber: int, i: nat)
    requires i < SeriesLength(tf)
    ensures var p := DailySpendData(txns, daily, tf, todayNumber)[i];
            p.amount == Sum(Filter(txns, ExpenseOnDay(p.day)), Amount) + Sum(Filter(daily, DailyOn(p.day)), DailyAmount)
  {
    SpendSeriesPoint(txns, daily, SeriesStart(tf, todayNumber), SeriesLength(tf), i);
  }

  /** The dashboard series adds up to everything spent in its window: the
      `SeriesLength(tf)` days from `SeriesStart(tf, todayNumber)`, which
      end with today. */
  lemma DailySpendTotal(txns: seq<Transaction>, daily: seq<DailyExpense>, tf: Timeframe, todayNumber: int)
    ensures SeriesStart(tf, todayNumber) + SeriesLength(tf) == todayNumber + 1
    ensures Total(Amounts(DailySpendData(txns, daily, tf, todayNumber)))
         == Sum(Filter(txns, ExpenseInWindow(SeriesStart(tf, todayNumber), SeriesStart(tf, todayNumber) + SeriesLength(tf))), Amount)
          + Sum(Filter(daily, DailyInWindow(SeriesStart(tf, todayNumber), SeriesStart(tf, todayNumber) + SeriesLength(tf))), DailyAmount)
  {
    SpendSeriesTotal(txns, daily, SeriesStart(tf, todayNumber), SeriesLength(tf));
  }

  // ---- exportToCSV ----

  datatype CsvError = NoRows

  /** The keys of the first row object, in insertion order. */
  const CsvHeader: seq<string> := ["Date", "Type", "Category", "Description", "Amount"]

  function KindText(k: TxnKind): string {
    match k
    case Income => "income"
    case Expense => "expense"
  }

  /** A row's values as `Array.prototype.join` renders them: a missing
      description or amount becomes the empty string. `showAmount` is the
      number-to-text conversion. */
  function CsvCells(t: Transaction, showAmount: real -> string): (cells: seq<string>)
    ensures |cells| == |CsvHeader|
  {
    [DateText(t.date),
     KindText(t.kind),
     t.category,
     if t.description.Some? then t.description.value else "",
     if t.amount.Some? then showAmount(t.amount.value) else ""]
  }

  /** The CSV text: a header line, then one line per transaction, the
      cells joined by commas without quoting and the lines by newlines.
      Reading the first row's keys fails on an empty list. */
  function ExportCsv(txns: seq<Transaction>, showAmount: real -> string): (r: Result<string, CsvError>)
    ensures r.Failure? <==> txns == []
  {
    if txns == [] then Failure(NoRows)
    else Success(Join(CsvLines(txns, showAmount), "\n"))
  }

  /** One comma-joined line per transaction. */
  function RowLines(txns: seq<Transaction>, showAmount: real -> string): (rows: seq<string>)
    ensures |rows| == |txns|
    ensures forall i :: 0 <= i < |txns| ==> rows[i] == Join(CsvCells(txns[i], showAmount), ",")
  {
    seq(|txns|, i requires 0 <= i < |txns| => Join(CsvCells(txns[i], showAmount), ","))
  }

  function CsvLines(txns: seq<Transaction>, showAmount: real -> string): (lines: seq<string>)
    ensures |lines| == |txns| + 1
    ensures lines[0] == Join(CsvHeader, ",")
    ensures forall i :: 0 <= i < |txns| ==> lines[i + 1] == Join(CsvCells(txns[i], showAmount), ",")
  {
    var header := Join(CsvHeader, ",");
    var rows := RowLines(txns, showAmount);
    assert forall i :: 0 <= i < |rows| ==> ([header] + rows)[i + 1] == rows[i];
    [header] + rows
  }

  /** Text that holds neither a comma nor a newline. */
  predicate PlainText(s: string) {
    ',' !in s && '\n' !in s
  }

  /** A transaction whose user-entered text and rendered amount are plain. */
  predicate PlainRow(t: Transaction, showAmount: real -> string) {
    PlainText(t.category)
    && (t.description.Some? ==> PlainText(t.description.value))
    && (t.amount.Some? ==> PlainText(showAmount(t.amount.value)))
  }

  lemma DateTextPlain(d: CivilDate)
    ensures PlainText(DateText(d))
  {
  }

  lemma CsvCellsPlain(t: Transaction, showAmount: real -> string)
    requires PlainRow(t, showAmount)
    ensures forall k :: 0 <= k < |CsvCells(t, showAmount)| ==> PlainText(CsvCells(t, showAmount)[k])
  {
    var cells := CsvCells(t, showAmount);
    DateTextPlain(t.date);
    forall k | 0 <= k < |cells|
      ensures PlainText(cells[k])
    {
      if k == 0 {
        assert cells[k] == DateText(t.date);
      } else if k == 1 {
        assert cells[k] == KindText(t.kind);
      } else if k == 2 {
        assert cells[k] == t.category;
      } else if k == 3 {
        assert cells[k] == if t.description.Some? then t.description.value else "";
      } else {
        assert cells[k] == if t.amount.Some? then showAmount(t.amount.value) else "";
      }
    }
  }

  /** Plain cells joined by commas split back into themselves, and the
      line holds no newline. */
  lemma PlainLineRoundTrip(cells: seq<string>)
    requires |cells| >= 1
    requires forall k :: 0 <= k < |cells| ==> PlainText(cells[k])
    ensures '\n' !in Join(cells, ",")
    ensures Split(Join(cells, ","), ',') == cells
  {
    JoinExcludes(cells, ",", '\n');
    SplitJoin(cells, ',');
  }

  /** A plain row's line splits back into its cells. */
  lemma CsvRowRoundTrip(t: Transaction, showAmount: real -> string)
    requires PlainRow(t, showAmount)
    ensures '\n' !in Join(CsvCells(t, showAmount), ",")
    ensures Split(Join(CsvCells(t, showAmount), ","), ',') == CsvCells(t, showAmount)
  {
    CsvCellsPlain(t, showAmount);
    PlainLineRoundTrip(CsvCells(t, showAmount));
  }

  /** The header line splits back into the header names. */
  lemma CsvHeaderRoundTrip()
    ensures '\n' !in Join(CsvHeader, ",")
    ensures Split(Join(CsvHeader, ","), ',') == CsvHeader
  {
    PlainLineRoundTrip(CsvHeader);
  }

  /** No line of the export holds a newline. */
  lemma CsvLinesPlain(txns: seq<Transaction>, showAmount: real -> string)
    requires forall i :: 0 <= i < |txns| ==> PlainRow(txns[i], showAmount)
    ensures forall k :: 0 <= k < |CsvLines(txns, showAmount)| ==> '\n' !in CsvLines(txns, showAmount)[k]
  {
    var lines := CsvLines(txns, showAmount);
    forall k | 0 <= k < |lines|
      ensures '\n' !in lines[k]
    {
      if k == 0 {
        CsvHeaderRoundTrip();
      } else {
        CsvRowRoundTrip(txns[k - 1], showAmount);
      }
    }
  }

  /** Reading the exported text back: splitting on newlines gives the
      header and one line per transaction, and splitting each line on
      commas gives back exactly its cells, provided no cell text holds a
      comma or a newline (the export does no quoting). */
  lemma CsvRoundTrip(txns: seq<Transaction>, showAmount: real -> string)
    requires txns != []
    requires forall i :: 0 <= i < |txns| ==> PlainRow(txns[i], showAmount)
    ensures ExportCsv(txns, showAmount).Success?
    ensures var lines := Split(ExportCsv(txns, showAmount).value, '\n');
            && |lines| == |txns| + 1
            && Split(lines[0], ',') == CsvHeader
            && forall i :: 0 <= i < |txns| ==> Split(lines[i + 1], ',') == CsvCells(txns[i], showAmount)
  {
    var lines := CsvLines(txns, showAmount);
    CsvLinesPlain(txns, showAmount);
    SplitJoin(lines, '\n');
    assert Split(ExportCsv(txns, showAmount).value, '\n') == lines;
    CsvHeaderRoundTrip();
    forall i | 0 <= i < |txns|
      ensures Split(lines[i + 1], ',') == CsvCells(txns[i], showAmount)
    {
      CsvRowRoundTrip(txns[i], showAmount);
    }
  }

  // ---- budget status colour ----

  /** `getStatusColor`: red when over budget, yellow on a warning, green
      for anything else. */
  function StatusColor(status: string): (c: string)
    ensures c == "bg-red-500" <==> status == "over_budget"
    ensures c == "bg-yellow-500" <==> status == "warning"
    ensures c == "bg-green-500" <==> status != "over_budget" && status != "warning"
  {
    if status == "over_budget" then "bg-red-500"
    else if status == "warning" then "bg-yellow-500"
    else "bg-green-500"
  }

}
