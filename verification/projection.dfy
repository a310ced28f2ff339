/** The net-worth projection engine: a ten-year recurrence that grows
    assets by a fixed return plus a constant yearly contribution and shrinks
    liabilities by a fixed fraction; the replace of a user's stored
    projection rows; and the derivation of the engine's inputs from the
    user's current data. */
module ProjectionCalculator {
  import opened Wrappers
  import opened Seqs
  import opened Calendar
  import opened Records

  /** Number of simulated years. */
  const Horizon: nat := 10
  /** Yearly return on assets (12%). */
  const AssetGrowthRate: real := 0.12
  /** Yearly reduction of liabilities (10%). */
  const LiabilityReductionRate: real := 0.10

  /** One row of the `projections` table. */
  datatype ProjectionYear = ProjectionYear(
    userId: UserId,
    year: int,
    yearNumber: int,
    investmentCorpus: real,
    assetsValue: real,
    liabilitiesValue: real,
    netWorth: real)

  /** The arguments of `calculateAndSaveProjections`; `monthlySavings` is
      the optional override. */
  datatype ProjectionInput = ProjectionInput(
    userId: UserId,
    currentAssets: real,
    currentLiabilities: real,
    monthlyIncome: real,
    monthlyExpenses: real,
    monthlySavings: Option<real>)

  /** The contribution added every year: twelve times the monthly savings,
      where a missing or zero override falls back to income minus expenses. */
  function AnnualSavings(inp: ProjectionInput): (r: real)
    ensures Truthy(inp.monthlySavings) ==> r == 12.0 * inp.monthlySavings.value
    ensures !Truthy(inp.monthlySavings) ==> r == 12.0 * (inp.monthlyIncome - inp.monthlyExpenses)
  {
    OrElse(inp.monthlySavings, inp.monthlyIncome - inp.monthlyExpenses) * 12.0
  }

  /** Projected assets after `k` years: `a(0) = a0`,
      `a(k+1) = a(k) * 1.12 + annual`. */
  function AssetsAfter(a0: real, annual: real, k: nat): real {
    if k == 0 then a0 else AssetsAfter(a0, annual, k - 1) * (1.0 + AssetGrowthRate) + annual
  }

  /** `Math.max(0, x)`. */
  function Max0(x: real): real {
    if x > 0.0 then x else 0.0
  }

  /** Projected liabilities after `k` years: `l(0) = l0`,
      `l(k+1) = max(0, l(k) * 0.9)`. */
  function LiabilitiesAfter(l0: real, k: nat): real {
    if k == 0 then l0 else Max0(LiabilitiesAfter(l0, k - 1) * (1.0 - LiabilityReductionRate))
  }

  /** Row `i` (0-based) of the series for `inp` started in `currentYear`. */
  ghost predicate IsYearRow(r: ProjectionYear, inp: ProjectionInput, currentYear: int, i: nat) {
    && r.userId == inp.userId
    && r.year == currentYear + i
    && r.yearNumber == i + 1
    && r.assetsValue == AssetsAfter(inp.currentAssets, AnnualSavings(inp), i + 1)
    && r.investmentCorpus == r.assetsValue
    && r.liabilitiesValue == LiabilitiesAfter(inp.currentLiabilities, i + 1)
    && r.netWorth == r.assetsValue - r.liabilitiesValue
  }

  /** `rows` is the ten-year series for `inp`, in year order. */
  ghost predicate IsProjection(rows: seq<ProjectionYear>, inp: ProjectionInput, currentYear: int) {
    |rows| == Horizon && forall i :: 0 <= i < |rows| ==> IsYearRow(rows[i], inp, currentYear, i)
  }

  /** The loop of `calculateAndSaveProjections`: ten records, numbered 1..10
      from `currentYear`, following the asset and liability recurrences.
      Every emitted liability is non-negative and none exceeds the one
      before it, whatever the inputs. */
  method Simulate(inp: ProjectionInput, currentYear: int) returns (rows: seq<ProjectionYear>)
    ensures IsProjection(rows, inp, currentYear)
    ensures forall i :: 0 <= i < |rows| ==> rows[i].liabilitiesValue >= 0.0
    ensures forall i :: 0 < i < |rows| ==> rows[i].liabilitiesValue <= rows[i - 1].liabilitiesValue
    ensures forall i :: 0 <= i < |rows| ==> rows[i].netWorth == rows[i].assetsValue - rows[i].liabilitiesValue
  {
    var annualSavings := AnnualSavings(inp);
    var projectedAssets := inp.currentAssets;
    var projectedLiabilities := inp.currentLiabilities;
    rows := [];
    var i := 0;
    while i < Horizon
      invariant 0 <= i <= Horizon && |rows| == i
      invariant projectedAssets == AssetsAfter(inp.currentAssets, annualSavings, i)
      invariant projectedLiabilities == LiabilitiesAfter(inp.currentLiabilities, i)
      invariant forall k :: 0 <= k < i ==> IsYearRow(rows[k], inp, currentYear, k)
      invariant forall k :: 0 <= k < i ==> rows[k].liabilitiesValue >= 0.0
      invariant forall k :: 0 < k < i ==> rows[k].liabilitiesValue <= rows[k - 1].liabilitiesValue
      invariant i > 0 ==> projectedLiabilities == rows[i - 1].liabilitiesValue
    {
      projectedAssets := projectedAssets * (1.0 + AssetGrowthRate) + annualSavings;
      projectedLiabilities := Max0(projectedLiabilities * (1.0 - LiabilityReductionRate));
      var netWorth := projectedAssets - projectedLiabilities;
      rows := rows + [ProjectionYear(inp.userId, currentYear + i, i + 1,
                                     projectedAssets, projectedAssets, projectedLiabilities, netWorth)];
      i := i + 1;
    }
  }

  /** The series is determined by its inputs: two computations with the
      same arguments produce the same rows. */
  lemma ProjectionDeterministic(a: seq<ProjectionYear>, b: seq<ProjectionYear>, inp: ProjectionInput, currentYear: int)
    requires IsProjection(a, inp, currentYear) && IsProjection(b, inp, currentYear)
    ensures a == b
  {
    forall i | 0 <= i < |a| ensures a[i] == b[i] {
      assert IsYearRow(a[i], inp, currentYear, i) && IsYearRow(b[i], inp, currentYear, i);
    }
  }

  function Pow(b: real, k: nat): real {
    if k == 0 then 1.0 else Pow(b, k - 1) * b
  }

  /** With no yearly contribution assets compound purely: `a0 * 1.12^k`. */
  lemma {:induction false} AssetsCompoundWithoutSavings(a0: real, k: nat)
    ensures AssetsAfter(a0, 0.0, k) == a0 * Pow(1.12, k)
  {
    if k > 0 {
      AssetsCompoundWithoutSavings(a0, k - 1);
      assert a0 * Pow(1.12, k - 1) * 1.12 == a0 * (Pow(1.12, k - 1) * 1.12);
    }
  }

  /** Liabilities that start at zero stay at zero. */
  lemma {:induction false} NoLiabilitiesStayZero(k: nat)
    ensures LiabilitiesAfter(0.0, k) == 0.0
  {
    if k > 0 {
      NoLiabilitiesStayZero(k - 1);
    }
  }

  /** With zero savings and no liabilities, year `i+1` holds
      `currentAssets * 1.12^(i+1)` in assets and nothing owed. */
  lemma ZeroSavingsClosedForm(rows: seq<ProjectionYear>, inp: ProjectionInput, currentYear: int)
    requires IsProjection(rows, inp, currentYear)
    requires AnnualSavings(inp) == 0.0 && inp.currentLiabilities == 0.0
    ensures forall i :: 0 <= i < |rows| ==>
      rows[i].assetsValue == inp.currentAssets * Pow(1.12, i + 1) && rows[i].liabilitiesValue == 0.0
  {
    forall i | 0 <= i < |rows|
      ensures rows[i].assetsValue == inp.currentAssets * Pow(1.12, i + 1) && rows[i].liabilitiesValue == 0.0
    {
      assert IsYearRow(rows[i], inp, currentYear, i);
      AssetsCompoundWithoutSavings(inp.currentAssets, i + 1);
      NoLiabilitiesStayZero(i + 1);
    }
  }

  /** Assets 100000, liabilities 200000, income 50000, expenses 30000 and
      no override: years 1 and 2 are (352000, 180000, 172000) and
      (634240, 162000, 472240). */
  lemma WorkedExample(rows: seq<ProjectionYear>, currentYear: int)
    requires IsProjection(rows, ProjectionInput("u", 100000.0, 200000.0, 50000.0, 30000.0, None), currentYear)
    ensures rows[0].assetsValue == 352000.0 && rows[0].liabilitiesValue == 180000.0 && rows[0].netWorth == 172000.0
    ensures rows[1].assetsValue == 634240.0 && rows[1].liabilitiesValue == 162000.0 && rows[1].netWorth == 472240.0
  {
    var inp := ProjectionInput("u", 100000.0, 200000.0, 50000.0, 30000.0, None);
    assert AnnualSavings(inp) == 240000.0;
    assert IsYearRow(rows[0], inp, currentYear, 0);
    assert IsYearRow(rows[1], inp, currentYear, 1);
    assert AssetsAfter(100000.0, 240000.0, 1) == 352000.0;
    assert LiabilitiesAfter(200000.0, 1) == 180000.0;
  }

  // ---------------------------------------------------------------------
  // Persistence: the `projections` table as a map from user to rows.

  type Store = map<UserId, seq<ProjectionYear>>

  /** The projection rows stored for `user`. */
  function RowsOf(store: Store, user: UserId): seq<ProjectionYear> {
    if user in store then store[user] else []
  }

  /** Delete the user's rows, then insert `rows`. The delete's own error is
      not checked by the code, so a failed delete leaves the old rows in
      place and the insert adds to them; a failed insert leaves whatever the
      delete left. */
  function ReplaceRows(store: Store, user: UserId, rows: seq<ProjectionYear>, deleteOk: bool, insertOk: bool): (r: Store)
    ensures forall u :: u != user ==> RowsOf(r, u) == RowsOf(store, u)
    ensures deleteOk && insertOk ==> RowsOf(r, user) == rows
    ensures deleteOk && !insertOk ==> RowsOf(r, user) == []
    ensures !deleteOk ==> RowsOf(r, user) == RowsOf(store, user) + (if insertOk then rows else [])
  {
    var afterDelete := if deleteOk then store[user := []] else store;
    if insertOk then afterDelete[user := RowsOf(afterDelete, user) + rows] else afterDelete
  }

  /** Replacing twice with the same rows leaves what replacing once left:
      no duplicated series. */
  lemma ReplaceIdempotent(store: Store, user: UserId, rows: seq<ProjectionYear>)
    ensures ReplaceRows(ReplaceRows(store, user, rows, true, true), user, rows, true, true)
         == ReplaceRows(store, user, rows, true, true)
  {
    var once := ReplaceRows(store, user, rows, true, true);
    var twice := ReplaceRows(once, user, rows, true, true);
    assert once == store[user := rows];
    assert twice == once[user := rows];
  }

  datatype SaveError = InsertFailed

  /** `calculateAndSaveProjections`: simulate, then replace the user's rows.
      It succeeds exactly when the insert does; on success the user's rows
      are exactly the returned series when the delete went through, and the
      old rows followed by the series when it did not; no other user's rows
      change. */
  method CalculateAndSaveProjections(store: Store, inp: ProjectionInput, currentYear: int, deleteOk: bool, insertOk: bool)
    returns (result: Result<seq<ProjectionYear>, SaveError>, store': Store)
    ensures result.Success? <==> insertOk
    ensures result.Success? ==> IsProjection(result.value, inp, currentYear)
    ensures result.Success? && deleteOk ==> RowsOf(store', inp.userId) == result.value
    ensures result.Failure? && deleteOk ==> RowsOf(store', inp.userId) == []
    ensures !deleteOk ==> RowsOf(store', inp.userId) == RowsOf(store, inp.userId) + (if result.Success? then result.value else [])
    ensures forall u :: u != inp.userId ==> RowsOf(store', u) == RowsOf(store, u)
  {
    var projections := Simulate(inp, currentYear);
    store' := ReplaceRows(store, inp.userId, projections, deleteOk, insertOk);
    if insertOk {
      result := Success(projections);
    } else {
      result := Failure(InsertFailed);
    }
  }

  // ---------------------------------------------------------------------
  // Input derivation (`recalculateUserProjections`).

  /** Days back the income/expense sample reaches. */
  const SampleWindowDays: int := 30

  /** A transaction dated on or after `today - 30`. */
  predicate InSampleWindow(t: Transaction, today: CivilDate) {
    DayNumber(t.date) >= DayNumber(today) - SampleWindowDays
  }

  function InWindow(today: CivilDate): Transaction -> bool {
    (t: Transaction) => InSampleWindow(t, today)
  }

  function OfKind(kind: TxnKind): Transaction -> bool {
    (t: Transaction) => t.kind == kind
  }

  /** A transaction of `kind` inside the window. */
  function InWindowOfKind(today: CivilDate, kind: TxnKind): Transaction -> bool {
    (t: Transaction) => InSampleWindow(t, today) && t.kind == kind
  }

  /** The transactions the `date >= today - 30` query returns: every
      transaction of the window, as often as it occurs, and nothing else. */
  function RecentWindow(txns: seq<Transaction>, today: CivilDate): (r: seq<Transaction>)
    ensures forall i :: 0 <= i < |r| ==> InSampleWindow(r[i], today)
    ensures forall t :: t in r <==> t in txns && InSampleWindow(t, today)
    ensures forall t :: multiset(r)[t] == if InSampleWindow(t, today) then multiset(txns)[t] else 0
  {
    FilterMultiset(txns, InWindow(today));
    Filter(txns, InWindow(today))
  }

  /** The sum of the sample's transactions of one kind, absent when the
      query returned no data. */
  function SampleTotal(recent: Option<seq<Transaction>>, kind: TxnKind): Option<real> {
    if recent.Some? then Some(Sum(Filter(recent.value, OfKind(kind)), Amount)) else None
  }

  /** The sample total of a kind is the sum over exactly the transactions
      of that kind dated inside the window. */
  lemma SampleTotalOfWindow(txns: seq<Transaction>, today: CivilDate, kind: TxnKind)
    ensures SampleTotal(Some(RecentWindow(txns, today)), kind) == Some(Sum(Filter(txns, InWindowOfKind(today, kind)), Amount))
  {
    FilterFilter(txns, InWindow(today), OfKind(kind), InWindowOfKind(today, kind));
  }

  /** `recentSum || balance?.field || 0`. */
  function MonthlyFigure(sample: Option<real>, stored: Option<real>): (r: real)
    ensures Truthy(sample) ==> r == sample.value
    ensures !Truthy(sample) && Truthy(stored) ==> r == stored.value
    ensures !Truthy(sample) && !Truthy(stored) ==> r == 0.0
  {
    OrElse(sample, OrElse(stored, 0.0))
  }

  /** The engine's inputs from the fetched rows. Assets are summed by value
      and liabilities by their outstanding balance; income and expenses are
      the trailing-window sums, falling back to the stored totals and then
      to 0; no savings override is passed. A fetch that returned no data
      counts as nothing. */
  function DeriveInputs(
    user: UserId,
    balance: Option<AccountBalance>,
    assets: Option<seq<Asset>>,
    liabilities: Option<seq<Liability>>,
    txns: Option<seq<Transaction>>,
    today: CivilDate): (inp: ProjectionInput)
    ensures inp.userId == user && inp.monthlySavings == None
    ensures inp.currentAssets == (if assets.Some? then Sum(assets.value, AssetValue) else 0.0)
    ensures inp.currentLiabilities == (if liabilities.Some? then Sum(liabilities.value, Outstanding) else 0.0)
    ensures AnnualSavings(inp) == 12.0 * (inp.monthlyIncome - inp.monthlyExpenses)
    ensures txns.Some? ==> inp.monthlyIncome == MonthlyFigure(Some(Sum(Filter(txns.value, InWindowOfKind(today, Income)), Amount)),
                                                              if balance.Some? then balance.value.totalIncome else None)
    ensures txns.Some? ==> inp.monthlyExpenses == MonthlyFigure(Some(Sum(Filter(txns.value, InWindowOfKind(today, Expense)), Amount)),
                                                                if balance.Some? then balance.value.totalExpenses else None)
    ensures txns.None? ==> inp.monthlyIncome == (if balance.Some? then OrElse(balance.value.totalIncome, 0.0) else 0.0)
    ensures txns.None? ==> inp.monthlyExpenses == (if balance.Some? then OrElse(balance.value.totalExpenses, 0.0) else 0.0)
  {
    var recent := if txns.Some? then Some(RecentWindow(txns.value, today)) else None;
    assert txns.Some? ==>
             SampleTotal(recent, Income) == Some(Sum(Filter(txns.value, InWindowOfKind(today, Income)), Amount))
             && SampleTotal(recent, Expense) == Some(Sum(Filter(txns.value, InWindowOfKind(today, Expense)), Amount)) by {
      if txns.Some? {
        SampleTotalOfWindow(txns.value, today, Income);
        SampleTotalOfWindow(txns.value, today, Expense);
      }
    }
    var totalAssets := if assets.Some? then OrElse(Some(Sum(assets.value, AssetValue)), 0.0) else 0.0;
    var totalLiabilities := if liabilities.Some? then OrElse(Some(Sum(liabilities.value, Outstanding)), 0.0) else 0.0;
    var monthlyIncome := MonthlyFigure(SampleTotal(recent, Income), if balance.Some? then balance.value.totalIncome else None);
    var monthlyExpenses := MonthlyFigure(SampleTotal(recent, Expense), if balance.Some? then balance.value.totalExpenses else None);
    ProjectionInput(user, totalAssets, totalLiabilities, monthlyIncome, monthlyExpenses, None)
  }

  /** A transaction dated before the window leaves every derived input as
      it was. */
  lemma OutOfWindowIgnored(user: UserId, balance: Option<AccountBalance>, assets: Option<seq<Asset>>,
                           liabilities: Option<seq<Liability>>, txns: seq<Transaction>, t: Transaction, today: CivilDate)
    requires !InSampleWindow(t, today)
    ensures DeriveInputs(user, balance, assets, liabilities, Some(txns + [t]), today)
         == DeriveInputs(user, balance, assets, liabilities, Some(txns), today)
  {
    FilterAppend(txns, [t], InWindowOfKind(today, Income));
    FilterAppend(txns, [t], InWindowOfKind(today, Expense));
    assert Filter([t], InWindowOfKind(today, Income)) == [];
    assert Filter([t], InWindowOfKind(today, Expense)) == [];
    assert Filter(txns + [t], InWindowOfKind(today, Income)) == Filter(txns, InWindowOfKind(today, Income));
    assert Filter(txns + [t], InWindowOfKind(today, Expense)) == Filter(txns, InWindowOfKind(today, Expense));
  }

  /** With no transaction in the window the stored totals are used, and
      only when those are missing or zero does a figure become 0. */
  lemma EmptyWindowFallsBack(user: UserId, b: AccountBalance, assets: Option<seq<Asset>>,
                             liabilities: Option<seq<Liability>>, txns: seq<Transaction>, today: CivilDate)
    requires RecentWindow(txns, today) == []
    ensures DeriveInputs(user, Some(b), assets, liabilities, Some(txns), today).monthlyIncome == OrElse(b.totalIncome, 0.0)
    ensures DeriveInputs(user, Some(b), assets, liabilities, Some(txns), today).monthlyExpenses == OrElse(b.totalExpenses, 0.0)
  {
    var recent := Some(RecentWindow(txns, today));
    assert SampleTotal(recent, Income) == Some(0.0);
    assert SampleTotal(recent, Expense) == Some(0.0);
  }

  /** A new account with no rows and a zeroed balance projects ten years of
      zero net worth. */
  lemma FreshAccountIsFlat(user: UserId, today: CivilDate, currentYear: int, rows: seq<ProjectionYear>)
    requires IsProjection(rows, DeriveInputs(user, Some(AccountBalance(Some(0.0), Some(0.0), Some(0.0))),
                                             Some([]), Some([]), Some([]), today), currentYear)
    ensures forall i :: 0 <= i < |rows| ==> rows[i].netWorth == 0.0
  {
    var inp := DeriveInputs(user, Some(AccountBalance(Some(0.0), Some(0.0), Some(0.0))), Some([]), Some([]), Some([]), today);
    assert RecentWindow([], today) == [];
    assert inp.monthlyIncome == 0.0 && inp.monthlyExpenses == 0.0;
    forall i | 0 <= i < |rows| ensures rows[i].netWorth == 0.0 {
      assert IsYearRow(rows[i], inp, currentYear, i);
      AssetsCompoundWithoutSavings(0.0, i + 1);
      NoLiabilitiesStayZero(i + 1);
    }
  }

  /** `recalculateUserProjections`: derive the inputs, then run
      `calculateAndSaveProjections` on them. */
  method RecalculateUserProjections(
    store: Store,
    user: UserId,
    balance: Option<AccountBalance>,
    assets: Option<seq<Asset>>,
    liabilities: Option<seq<Liability>>,
    txns: Option<seq<Transaction>>,
    today: CivilDate,
    currentYear: int,
    deleteOk: bool,
    insertOk: bool)
    returns (result: Result<seq<ProjectionYear>, SaveError>, store': Store)
    ensures result.Success? <==> insertOk
    ensures result.Success? ==>
      IsProjection(result.value, DeriveInputs(user, balance, assets, liabilities, txns, today), currentYear)
    ensures result.Success? && deleteOk ==> RowsOf(store', user) == result.value
    ensures result.Failure? && deleteOk ==> RowsOf(store', user) == []
    ensures !deleteOk ==> RowsOf(store', user) == RowsOf(store, user) + (if result.Success? then result.value else [])
    ensures forall u :: u != user ==> RowsOf(store', u) == RowsOf(store, u)
  {
    var inp := DeriveInputs(user, balance, assets, liabilities, txns, today);
    result, store' := CalculateAndSaveProjections(store, inp, currentYear, deleteOk, insertOk);
  }
}
