/** Straight-line depreciation with a cost cap
    (Docty-Healthcare/engine/depreciationEngine.js).

    From its acquisition year on, an asset is written down each year by
    cost / usefulLife (0 for a non-positive life), but never below zero
    book value: the year's charge is capped by what remains of the cost.
    The engine accumulates the unrounded charges and rounds each reported
    figure to cents separately. */
module Depreciation {
  import opened Common
  import opened Money
  import opened Ledger

  datatype Asset = Asset(name: string, cost: real, usefulLife: real, acquisitionYear: int)

  /** One year of an asset's schedule. */
  datatype AssetYear = AssetYear(year: nat, depreciation: real, accumulated: real, netBookValue: real)

  /** `computeAssetDepreciation`'s result. */
  datatype AssetDepreciation = AssetDepreciation(annualDepreciation: real, schedule: seq<AssetYear>)

  /** One asset's entry in `computeAllDepreciation`'s result. */
  datatype AssetResult = AssetResult(name: string, annualDepreciation: real, schedule: seq<AssetYear>)

  datatype DepreciationResult = DepreciationResult(
    totalCost: real,
    assets: seq<AssetResult>,
    yearlyTotal: seq<real>,
    yearlyAccumulated: seq<real>,
    yearlyNetBlock: seq<real>)

  /** The unrounded annual charge: cost spread over the useful life, 0 when
      the life is not positive. */
  function Annual(a: Asset): real {
    if a.usefulLife > 0.0 then a.cost / a.usefulLife else 0.0
  }

  /** The charge of year y when `acc` has been written off before it. */
  function Charge(a: Asset, y: nat, acc: real): real {
    if y >= a.acquisitionYear && acc < a.cost then Min(Annual(a), a.cost - acc) else 0.0
  }

  /** The unrounded depreciation accumulated over years 0 .. y-1. */
  function Accumulated(a: Asset, y: nat): real {
    if y == 0 then 0.0 else Accumulated(a, y - 1) + Charge(a, y - 1, Accumulated(a, y - 1))
  }

  /** The unrounded charge of year y. */
  function Writedown(a: Asset, y: nat): real {
    Charge(a, y, Accumulated(a, y))
  }

  /** A schedule row with each figure rounded to cents on its own. */
  function RoundedRow(y: nat, depreciation: real, accumulated: real, netBookValue: real): AssetYear {
    AssetYear(y, Round2(depreciation), Round2(accumulated), Round2(netBookValue))
  }

  /** Year y of the schedule. */
  function Row(a: Asset, y: nat): AssetYear {
    RoundedRow(y, Writedown(a, y), Accumulated(a, y + 1), a.cost - Accumulated(a, y + 1))
  }

  /** An asset's schedule over `totalYears` years. */
  function Schedule(a: Asset, totalYears: nat): (s: seq<AssetYear>)
    ensures |s| == totalYears
  {
    seq(totalYears, y requires 0 <= y < totalYears => Row(a, y))
  }

  /** `computeAssetDepreciation` as a value. */
  function AssetDepreciationOf(a: Asset, totalYears: nat): AssetDepreciation {
    AssetDepreciation(Round2(Annual(a)), Schedule(a, totalYears))
  }

  /** `computeAssetDepreciation`: a year loop carrying the accumulated
      depreciation. */
  method ComputeAssetDepreciation(a: Asset, totalYears: nat) returns (r: AssetDepreciation)
    ensures r == AssetDepreciationOf(a, totalYears)
  {
    var annual := if a.usefulLife > 0.0 then a.cost / a.usefulLife else 0.0;
    var schedule: seq<AssetYear> := [];
    var accumulated := 0.0;
    var y := 0;
    while y < totalYears
      invariant y <= totalYears && |schedule| == y
      invariant accumulated == Accumulated(a, y)
      invariant forall k :: 0 <= k < y ==> schedule[k] == Row(a, k)
    {
      var depreciation := 0.0;
      if y >= a.acquisitionYear && accumulated < a.cost {
        depreciation := Min(annual, a.cost - accumulated);
      }
      assert depreciation == Writedown(a, y);
      accumulated := accumulated + depreciation;
      assert accumulated == Accumulated(a, y + 1);
      var netBookValue := a.cost - accumulated;
      schedule := schedule + [RoundedRow(y, depreciation, accumulated, netBookValue)];
      y := y + 1;
    }
    r := AssetDepreciation(Round2(annual), schedule);
  }

  /** The first year of the schedule that is charged: the acquisition year,
      or year 0 for an asset acquired before the schedule starts. */
  function FirstCharged(a: Asset): nat {
    if a.acquisitionYear < 0 then 0 else a.acquisitionYear as nat
  }

  /** Years charged among years 0 .. y-1. */
  function YearsInService(a: Asset, y: nat): nat {
    if y <= FirstCharged(a) then 0 else y - FirstCharged(a)
  }

  /** Straight-line write-off after k years, uncapped. */
  function Straight(a: Asset, k: nat): real {
    Annual(a) * k as real
  }

  /** One more year adds one annual charge to the straight line. */
  lemma StraightStep(a: Asset, k: nat)
    ensures Straight(a, k + 1) == Straight(a, k) + Annual(a)
  {
    assert Annual(a) * (k + 1) as real == Annual(a) * k as real + Annual(a) * 1.0;
  }

  /** A non-negative cost gives a non-negative annual charge. */
  lemma AnnualNonNegative(a: Asset)
    requires a.cost >= 0.0
    ensures Annual(a) >= 0.0
  {
    if a.usefulLife > 0.0 {
      assert a.cost / a.usefulLife >= 0.0;
    }
  }

  /** Closed form: with a non-negative cost, the accumulated depreciation is
      the straight-line write-off over the years in service, capped at the
      cost. */
  lemma {:induction false} AccumulatedClosedForm(a: Asset, y: nat)
    requires a.cost >= 0.0
    ensures Accumulated(a, y) == Min(a.cost, Straight(a, YearsInService(a, y)))
  {
    if y > 0 {
      AccumulatedClosedForm(a, y - 1);
      AnnualNonNegative(a);
      var k := YearsInService(a, y - 1);
      var prev := Accumulated(a, y - 1);
      assert Accumulated(a, y) == prev + Charge(a, y - 1, prev);
      if y - 1 >= a.acquisitionYear {
        assert YearsInService(a, y) == k + 1;
        StraightStep(a, k);
        if Straight(a, k) < a.cost {
          assert prev == Straight(a, k);
          assert Charge(a, y - 1, prev) == Min(Annual(a), a.cost - prev);
        } else {
          assert prev == a.cost;
          assert Charge(a, y - 1, prev) == 0.0;
        }
      } else {
        assert YearsInService(a, y) == 0 == k;
      }
    }
  }

  /** With a non-negative cost: nothing is written off before the
      acquisition year; each year's charge lies between 0 and the annual
      charge; the accumulated depreciation never decreases and never exceeds
      the cost, so the book value never goes negative. */
  lemma {:induction false} DepreciationBounds(a: Asset, y: nat)
    requires a.cost >= 0.0
    ensures y < a.acquisitionYear ==> Writedown(a, y) == 0.0
    ensures 0.0 <= Writedown(a, y) <= Annual(a)
    ensures 0.0 <= Accumulated(a, y) <= Accumulated(a, y + 1) <= a.cost
    ensures a.cost - Accumulated(a, y + 1) >= 0.0
  {
    AnnualNonNegative(a);
    if y > 0 {
      DepreciationBounds(a, y - 1);
    }
  }

  /** The accumulated depreciation never decreases from a year to a later one. */
  lemma {:induction false} AccumulatedMonotone(a: Asset, y: nat, y': nat)
    requires a.cost >= 0.0 && y <= y'
    ensures Accumulated(a, y) <= Accumulated(a, y')
  {
    if y < y' {
      AccumulatedMonotone(a, y, y' - 1);
      DepreciationBounds(a, y' - 1);
    }
  }

  /** The schedule has one row per year, numbered from 0; each row's book
      value is the cost less the accumulated depreciation it reports, before
      rounding, and with a non-negative cost no reported figure is negative. */
  lemma ScheduleShape(a: Asset, totalYears: nat, y: nat)
    requires y < totalYears
    ensures |Schedule(a, totalYears)| == totalYears
    ensures Schedule(a, totalYears)[y].year == y
    ensures Schedule(a, totalYears)[y].accumulated == Round2(Accumulated(a, y + 1))
    ensures Schedule(a, totalYears)[y].netBookValue == Round2(a.cost - Accumulated(a, y + 1))
    ensures a.cost >= 0.0 ==>
      Schedule(a, totalYears)[y].depreciation >= 0.0 &&
      Schedule(a, totalYears)[y].accumulated >= 0.0 &&
      Schedule(a, totalYears)[y].netBookValue >= 0.0
  {
    if a.cost >= 0.0 {
      DepreciationBounds(a, y);
      Round2Sign(Writedown(a, y));
      Round2Sign(Accumulated(a, y + 1));
      Round2Sign(a.cost - Accumulated(a, y + 1));
    }
  }

  /** Sample: an asset costing 25000000 with a ten-year life bought in year 0
      is written down by 2500000 a year and is worth 10000000 at the end of
      year 5. */
  lemma SampleAsset(totalYears: nat)
    requires totalYears > 5
    ensures AssetDepreciationOf(Asset("Equipment", 25000000.0, 10.0, 0), totalYears).annualDepreciation == 2500000.0
    ensures AssetDepreciationOf(Asset("Equipment", 25000000.0, 10.0, 0), totalYears).schedule[5].netBookValue == 10000000.0
  {
    var a := Asset("Equipment", 25000000.0, 10.0, 0);
    assert Annual(a) == 2500000.0;
    AccumulatedClosedForm(a, 6);
    assert Straight(a, 6) == 15000000.0;
    Round2OfCents(2500000.0);
    Round2OfCents(10000000.0);
  }

  /** Each asset's cost, in input order. */
  function AssetCosts(assets: seq<Asset>): (c: seq<real>)
    ensures |c| == |assets|
  {
    seq(|assets|, i requires 0 <= i < |assets| => assets[i].cost)
  }

  /** `assets.reduce((sum, a) => sum + a.cost, 0)`. */
  function TotalCost(assets: seq<Asset>): real {
    Sum(AssetCosts(assets))
  }

  /** The rounded yearly depreciation of one asset. */
  function DepreciationSeries(a: Asset, totalYears: nat): (s: seq<real>)
    ensures |s| == totalYears
    ensures forall y :: 0 <= y < totalYears ==> s[y] == Round2(Writedown(a, y))
  {
    seq(totalYears, y requires 0 <= y < totalYears => Schedule(a, totalYears)[y].depreciation)
  }

  /** Each asset's rounded yearly depreciation. */
  function AssetSeries(assets: seq<Asset>, totalYears: nat): (s: seq<seq<real>>)
    ensures |s| == |assets| && Rectangular(s, totalYears)
  {
    seq(|assets|, i requires 0 <= i < |assets| => DepreciationSeries(assets[i], totalYears))
  }

  /** The unrounded yearly total over the assets. */
  function YearlyTotals(assets: seq<Asset>, totalYears: nat): (t: seq<real>)
    ensures |t| == totalYears
  {
    seq(totalYears, y requires 0 <= y < totalYears => ColumnSum(AssetSeries(assets, totalYears), y))
  }

  function ResultOf(a: Asset, totalYears: nat): AssetResult {
    AssetResult(a.name, Round2(Annual(a)), Schedule(a, totalYears))
  }

  /** `computeAllDepreciation` as a value: the yearly totals rounded, and
      the running sum of the unrounded totals rounded into the accumulated
      and net-block series. */
  function AllDepreciation(assets: seq<Asset>, totalYears: nat): DepreciationResult {
    var t := YearlyTotals(assets, totalYears);
    DepreciationResult(
      TotalCost(assets),
      seq(|assets|, i requires 0 <= i < |assets| => ResultOf(assets[i], totalYears)),
      seq(totalYears, y requires 0 <= y < totalYears => Round2(t[y])),
      seq(totalYears, y requires 0 <= y < totalYears => Round2(Sum(t[..y + 1]))),
      seq(totalYears, y requires 0 <= y < totalYears => Round2(TotalCost(assets) - Sum(t[..y + 1]))))
  }

  /** The unrounded total of year y over the first i assets. */
  function TotalUpTo(assets: seq<Asset>, totalYears: nat, i: nat, y: nat): real
    requires i <= |assets| && y < totalYears
  {
    ColumnSum(AssetSeries(assets[..i], totalYears), y)
  }

  /** One more asset adds its rounded charge to every year's total. */
  lemma TotalStep(assets: seq<Asset>, totalYears: nat, i: nat)
    requires i < |assets|
    ensures forall y :: 0 <= y < totalYears ==>
      TotalUpTo(assets, totalYears, i + 1, y) ==
        TotalUpTo(assets, totalYears, i, y) + Schedule(assets[i], totalYears)[y].depreciation
  {
    assert AssetSeries(assets[..i + 1], totalYears)[..i] == AssetSeries(assets[..i], totalYears);
  }

  /** The year loop inside the asset loop: one asset's rounded charges
      added into the yearly totals. */
  method AddCharges(yearlyTotal: seq<real>, schedule: seq<AssetYear>) returns (total: seq<real>)
    requires |schedule| == |yearlyTotal|
    ensures |total| == |yearlyTotal|
    ensures forall y :: 0 <= y < |total| ==> total[y] == yearlyTotal[y] + schedule[y].depreciation
  {
    total := yearlyTotal;
    var y := 0;
    while y < |total|
      invariant y <= |total| == |yearlyTotal|
      invariant forall k :: 0 <= k < y ==> total[k] == yearlyTotal[k] + schedule[k].depreciation
      invariant forall k :: y <= k < |total| ==> total[k] == yearlyTotal[k]
    {
      total := total[y := total[y] + schedule[y].depreciation];
      y := y + 1;
    }
  }

  /** The asset loop of `computeAllDepreciation`: each asset's schedule,
      with its rounded charges added into `yearlyTotal` year by year. */
  method DepreciateAssets(assets: seq<Asset>, totalYears: nat)
    returns (assetResults: seq<AssetResult>, yearlyTotal: seq<real>)
    ensures assetResults == AllDepreciation(assets, totalYears).assets
    ensures yearlyTotal == YearlyTotals(assets, totalYears)
  {
    assetResults := [];
    yearlyTotal := Zeros(totalYears);
    var i := 0;
    while i < |assets|
      invariant i <= |assets| && |assetResults| == i && |yearlyTotal| == totalYears
      invariant forall k :: 0 <= k < i ==> assetResults[k] == ResultOf(assets[k], totalYears)
      invariant forall y :: 0 <= y < totalYears ==> yearlyTotal[y] == TotalUpTo(assets, totalYears, i, y)
    {
      var result := ComputeAssetDepreciation(assets[i], totalYears);
      assetResults := assetResults + [AssetResult(assets[i].name, result.annualDepreciation, result.schedule)];
      TotalStep(assets, totalYears, i);
      yearlyTotal := AddCharges(yearlyTotal, result.schedule);
      i := i + 1;
    }
    assert assets[..i] == assets;
  }

  /** The running-sum loop of `computeAllDepreciation`: accumulated
      depreciation and net block, each rounded from the unrounded running
      sum of the yearly totals. */
  method RunningSums(yearlyTotal: seq<real>, totalCost: real)
    returns (yearlyAccumulated: seq<real>, yearlyNetBlock: seq<real>)
    ensures |yearlyAccumulated| == |yearlyTotal| && |yearlyNetBlock| == |yearlyTotal|
    ensures forall k :: 0 <= k < |yearlyTotal| ==> yearlyAccumulated[k] == Round2(Sum(yearlyTotal[..k + 1]))
    ensures forall k :: 0 <= k < |yearlyTotal| ==> yearlyNetBlock[k] == Round2(totalCost - Sum(yearlyTotal[..k + 1]))
  {
    yearlyAccumulated, yearlyNetBlock := [], [];
    var runningAccumulated := 0.0;
    var y := 0;
    while y < |yearlyTotal|
      invariant y <= |yearlyTotal| && |yearlyAccumulated| == y && |yearlyNetBlock| == y
      invariant runningAccumulated == Sum(yearlyTotal[..y])
      invariant forall k :: 0 <= k < y ==> yearlyAccumulated[k] == Round2(Sum(yearlyTotal[..k + 1]))
      invariant forall k :: 0 <= k < y ==> yearlyNetBlock[k] == Round2(totalCost - Sum(yearlyTotal[..k + 1]))
    {
      assert yearlyTotal[..y + 1][..y] == yearlyTotal[..y];
      runningAccumulated := runningAccumulated + yearlyTotal[y];
      yearlyAccumulated := yearlyAccumulated + [Round2(runningAccumulated)];
      yearlyNetBlock := yearlyNetBlock + [Round2(totalCost - runningAccumulated)];
      y := y + 1;
    }
  }

  /** `computeAllDepreciation`. */
  method ComputeAllDepreciation(assets: seq<Asset>, totalYears: nat) returns (r: DepreciationResult)
    ensures r == AllDepreciation(assets, totalYears)
  {
    var totalCost := TotalCost(assets);
    var assetResults, yearlyTotal := DepreciateAssets(assets, totalYears);
    var yearlyAccumulated, yearlyNetBlock := RunningSums(yearlyTotal, totalCost);
    var rounded := seq(totalYears, k requires 0 <= k < totalYears => Round2(yearlyTotal[k]));
    r := DepreciationResult(totalCost, assetResults, rounded, yearlyAccumulated, yearlyNetBlock);
  }

  /** Without assets the total cost is 0 and every yearly series is zeros. */
  lemma NoAssets(totalYears: nat)
    ensures AllDepreciation([], totalYears).totalCost == 0.0
    ensures AllDepreciation([], totalYears).assets == []
    ensures AllDepreciation([], totalYears).yearlyTotal == Zeros(totalYears)
    ensures AllDepreciation([], totalYears).yearlyAccumulated == Zeros(totalYears)
    ensures AllDepreciation([], totalYears).yearlyNetBlock == Zeros(totalYears)
  {
    var t := YearlyTotals([], totalYears);
    assert forall y :: 0 <= y < totalYears ==> t[y] == 0.0;
    SumOfZeros(t);
    Round2Sign(0.0);
  }

  /** Every prefix of an all-zero series sums to 0. */
  lemma {:induction false} SumOfZeros(t: seq<real>)
    requires forall y :: 0 <= y < |t| ==> t[y] == 0.0
    ensures forall k :: 0 <= k <= |t| ==> Sum(t[..k]) == 0.0
  {
    if |t| > 0 {
      var last := |t| - 1;
      SumOfZeros(t[..last]);
      forall k | 0 <= k <= |t|
        ensures Sum(t[..k]) == 0.0
      {
        if k <= last {
          assert t[..last][..k] == t[..k];
        } else {
          assert t[..k][..last] == t[..last];
        }
      }
    }
  }

  /** With non-negative costs each asset's rounded charges are non-negative,
      so the yearly totals are too, the reported accumulated depreciation
      never decreases and the net block never increases. */
  lemma RunningTotals(assets: seq<Asset>, totalYears: nat, y: nat, y': nat)
    requires forall i :: 0 <= i < |assets| ==> assets[i].cost >= 0.0
    requires y <= y' < totalYears
    ensures YearlyTotals(assets, totalYears)[y] >= 0.0
    ensures AllDepreciation(assets, totalYears).yearlyAccumulated[y] <= AllDepreciation(assets, totalYears).yearlyAccumulated[y']
    ensures AllDepreciation(assets, totalYears).yearlyNetBlock[y'] <= AllDepreciation(assets, totalYears).yearlyNetBlock[y]
  {
    var t := YearlyTotals(assets, totalYears);
    TotalsNonNegative(assets, totalYears);
    PrefixSumMonotone(t, y + 1, y' + 1);
    var s, s' := Sum(t[..y + 1]), Sum(t[..y' + 1]);
    Round2Monotone(s, s');
    Round2Monotone(TotalCost(assets) - s', TotalCost(assets) - s);
  }

  /** Prefix sums of non-negative values never decrease. */
  lemma PrefixSumMonotone(t: seq<real>, k: nat, k': nat)
    requires forall i :: 0 <= i < |t| ==> t[i] >= 0.0
    requires k <= k' <= |t|
    ensures Sum(t[..k]) <= Sum(t[..k'])
  {
    SumSplit(t, k, k');
    SumNonNegative(t[k..k']);
  }

  /** With non-negative costs every yearly total is non-negative. */
  lemma TotalsNonNegative(assets: seq<Asset>, totalYears: nat)
    requires forall i :: 0 <= i < |assets| ==> assets[i].cost >= 0.0
    ensures forall y :: 0 <= y < totalYears ==> YearlyTotals(assets, totalYears)[y] >= 0.0
  {
    var s := AssetSeries(assets, totalYears);
    forall i, y | 0 <= i < |assets| && 0 <= y < totalYears
      ensures s[i][y] >= 0.0
    {
      DepreciationBounds(assets[i], y);
      Round2Sign(Writedown(assets[i], y));
    }
    forall y | 0 <= y < totalYears
      ensures ColumnSum(s, y) >= 0.0
    {
      ColumnSumNonNegative(s, y);
    }
  }

  /** A column of non-negative entries sums to a non-negative value. */
  lemma {:induction false} ColumnSumNonNegative(rows: seq<seq<real>>, m: nat)
    requires forall i :: 0 <= i < |rows| ==> m < |rows[i]| && rows[i][m] >= 0.0
    ensures ColumnSum(rows, m) >= 0.0
  {
    if |rows| > 0 {
      ColumnSumNonNegative(rows[..|rows| - 1], m);
    }
  }
}
