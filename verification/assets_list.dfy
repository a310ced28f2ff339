/** The assets card: the total value and one row per asset. */
module AssetsInvestments {
  import opened Wrappers
  import opened Seqs
  import opened Records

  /** The total value of the assets, a missing value counting as 0. The
      dashboards add `a.value` directly, which gives the same sum because a
      null operand of `+` is read as 0. */
  function TotalAssets(assets: seq<Asset>): (r: real)
    ensures assets == [] ==> r == 0.0
  {
    Sum(assets, AssetValue)
  }

  /** The total does not depend on the order of the assets. */
  lemma TotalAssetsPermutation(a: seq<Asset>, b: seq<Asset>)
    requires multiset(a) == multiset(b)
    ensures TotalAssets(a) == TotalAssets(b)
  {
    SumPermutation(a, b, AssetValue);
  }

  /** The total of two lists of assets is the sum of their totals. */
  lemma TotalAssetsAppend(a: seq<Asset>, b: seq<Asset>)
    ensures TotalAssets(a + b) == TotalAssets(a) + TotalAssets(b)
  {
    SumAppend(a, b, AssetValue);
  }

  /** A row of the card: the asset's name and its value. */
  datatype AssetRow = AssetRow(name: string, value: real)

  /** Rendering a row calls `value.toLocaleString()`, which throws on a
      missing value. */
  datatype RenderError = MissingValue

  /** The card's rows, one per asset in input order; a single asset
      without a value makes the whole card fail to render. */
  function AssetRows(assets: seq<Asset>): (r: Result<seq<AssetRow>, RenderError>)
    ensures r.Failure? <==> exists i :: 0 <= i < |assets| && assets[i].value.None?
    ensures r.Success? ==> |r.value| == |assets|
    ensures r.Success? ==> forall i :: 0 <= i < |assets| ==>
              r.value[i] == AssetRow(assets[i].name, assets[i].value.value)
  {
    if exists i :: 0 <= i < |assets| && assets[i].value.None? then Failure(MissingValue)
    else Success(seq(|assets|, i requires 0 <= i < |assets| => AssetRow(assets[i].name, assets[i].value.value)))
  }

  /** When every row renders, the total is the sum of the values shown. */
  lemma {:induction false} RowsAddUpToTotal(assets: seq<Asset>)
    requires AssetRows(assets).Success?
    ensures Sum(AssetRows(assets).value, RowValue) == TotalAssets(assets)
    decreases |assets|
  {
    if assets != [] {
      var rest := assets[1..];
      assert AssetRows(rest).Success?;
      assert AssetRows(assets).value == [AssetRows(assets).value[0]] + AssetRows(rest).value;
      RowsAddUpToTotal(rest);
      SumAppend([AssetRows(assets).value[0]], AssetRows(rest).value, RowValue);
    }
  }

  function RowValue(r: AssetRow): real {
    r.value
  }
}
