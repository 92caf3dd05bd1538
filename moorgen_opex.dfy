/** The opex engine of the moorgen business plan
    (moorgen/engine/opexEngine.js): each cost item costs its units times its
    price in month 0, that cost stepping up by an inflation rate at the start
    of each fiscal year, keyed by 1-based year number; the items' rounded
    monthly costs add up to a grand total aggregated into fiscal years. */
module MoorgenOpex {
  import opened Money
  import opened Branch
  import opened Growth
  import opened Ledger
  import opened Yearly

  /** `MOORGEN_OPEX_INFLATION.yearlyStepUps`, keyed by 1-based year. */
  const MoorgenInflation: map<nat, real> := map[2 := 0.15, 3 := 0.15, 4 := 0.15, 5 := 0.10]

  datatype CostItem = CostItem(name: string, baseUnits: real, price: real, active: bool)

  datatype MoorgenOpexResult = MoorgenOpexResult(monthlyGrand: seq<real>, yearlyGrand: seq<real>)

  /** An item that costs something: active, with positive units and price. */
  predicate Charges(item: CostItem) {
    item.active && item.baseUnits > 0.0 && item.price > 0.0
  }

  /** `costItem.baseUnits * costItem.price`: the cost of month 0. */
  function InitialCost(item: CostItem): real {
    item.baseUnits * item.price
  }

  /** The unrounded cost of a charging item in month m. */
  function CurrentCost(item: CostItem, m: nat): real {
    Stepped(InitialCost(item), MoorgenInflation, 1, m)
  }

  /** The cost of a charging item in month m, rounded to cents. */
  function MonthCost(item: CostItem, m: nat): real {
    Round2(CurrentCost(item, m))
  }

  /** The rounded monthly costs of one item; 0 throughout when it does not
      charge. */
  function ItemMonthly(item: CostItem, n: nat): (costs: seq<real>)
    ensures |costs| == n
  {
    if !Charges(item) then Zeros(n)
    else seq(n, m requires 0 <= m < n => MonthCost(item, m))
  }

  /** `computeOpexMonthly`: a month loop carrying the unrounded cost. */
  method ComputeOpexMonthly(item: CostItem, n: nat) returns (results: seq<real>)
    ensures results == ItemMonthly(item, n)
  {
    if !Charges(item) {
      return Zeros(n);
    }
    results := [];
    var currentCost := InitialCost(item);
    var m := 0;
    while m < n
      invariant m <= n && |results| == m
      invariant currentCost == CurrentCost(item, if m == 0 then 0 else m - 1)
      invariant forall k :: 0 <= k < m ==> results[k] == MonthCost(item, k)
    {
      ghost var previous := currentCost;
      var yearIdx := YearNumber(m);
      if m > 0 {
        var prevYearIdx := YearNumber(m - 1);
        if yearIdx != prevYearIdx {
          currentCost := Raised(currentCost, MoorgenInflation, yearIdx);
        }
      }
      assert m > 0 ==> currentCost == StepUp(previous, MoorgenInflation, 1, m);
      assert currentCost == CurrentCost(item, m);
      var cost := Round2(currentCost);
      assert cost == MonthCost(item, m);
      results := results + [cost];
      m := m + 1;
    }
  }

  /** The cost of a charging item by fiscal year: units times price in year
      0, then 1.15, 1.3225, 1.520875 and, from year 4 on, 1.6729625 times
      that, rounded to cents. */
  lemma MoorgenCostByYear(item: CostItem, n: nat, m: nat)
    requires Charges(item) && m < n
    ensures var c, y := InitialCost(item), YearIndex(m);
      ItemMonthly(item, n)[m] == Round2(
        if y == 0 then c
        else if y == 1 then 1.15 * c
        else if y == 2 then 1.3225 * c
        else if y == 3 then 1.520875 * c
        else 1.6729625 * c)
  {
    var c := InitialCost(item);
    SteppedClosedForm(c, MoorgenInflation, 1, m);
    assert YearValue(c, MoorgenInflation, 1, 1) == 1.15 * c;
    assert YearValue(c, MoorgenInflation, 1, 2) == 1.3225 * c;
    assert YearValue(c, MoorgenInflation, 1, 3) == 1.520875 * c;
    assert YearValue(c, MoorgenInflation, 1, 4) == 1.6729625 * c;
    if YearIndex(m) > 4 {
      YearValueSettles(c, MoorgenInflation, 1, 4, YearIndex(m));
    }
  }

  /** A charging item's rounded cost never falls from one month to a later
      one and is never negative. */
  lemma MoorgenCostNonDecreasing(item: CostItem, n: nat, m: nat, m': nat)
    requires Charges(item) && m <= m' < n
    ensures 0.0 <= ItemMonthly(item, n)[m] <= ItemMonthly(item, n)[m']
  {
    var c := InitialCost(item);
    assert c >= 0.0 by {
      assert item.baseUnits * item.price > 0.0;
    }
    assert NonNegativeRates(MoorgenInflation);
    SteppedMonotone(c, MoorgenInflation, 1, m, m');
    assert ItemMonthly(item, n)[m] == MonthCost(item, m) && ItemMonthly(item, n)[m'] == MonthCost(item, m');
    Round2Monotone(CurrentCost(item, m), CurrentCost(item, m'));
    Round2Sign(CurrentCost(item, m));
  }

  /** Each item's monthly costs. */
  function ItemCosts(items: seq<CostItem>, n: nat): (a: seq<seq<real>>)
    ensures |a| == |items| && Rectangular(a, n)
  {
    seq(|items|, i requires 0 <= i < |items| => ItemMonthly(items[i], n))
  }

  /** `computeAllOpex`: every item's months added into the grand total,
      which is then aggregated into fiscal years. */
  method ComputeMoorgenOpex(items: seq<CostItem>, n: nat) returns (r: MoorgenOpexResult)
    ensures |r.monthlyGrand| == n
    ensures forall m :: 0 <= m < n ==> r.monthlyGrand[m] == ColumnSum(ItemCosts(items, n), m)
    ensures r.yearlyGrand == Aggregate(r.monthlyGrand)
  {
    ghost var amounts := ItemCosts(items, n);
    var monthlyGrand := Zeros(n);
    var i := 0;
    while i < |items|
      invariant i <= |items| && |monthlyGrand| == n
      invariant forall m :: 0 <= m < n ==> monthlyGrand[m] == ColumnSum(amounts[..i], m)
    {
      var monthly := ComputeOpexMonthly(items[i], n);
      monthlyGrand := AccumulateMonths(monthlyGrand, monthly);
      forall m | 0 <= m < n
        ensures monthlyGrand[m] == ColumnSum(amounts[..i + 1], m)
      {
        assert amounts[..i + 1][..i] == amounts[..i];
      }
      i := i + 1;
    }
    assert amounts[..i] == amounts;
    var yearlyGrand := AggregateYearly(monthlyGrand);
    r := MoorgenOpexResult(monthlyGrand, yearlyGrand);
  }

  /** Sample: five admin staff at 50000 cost 250000 a month through fiscal
      year 0 and 287500 through fiscal year 1. */
  lemma SampleAdmin()
    ensures ItemMonthly(CostItem("Admin", 5.0, 50000.0, true), 72)[6] == 250000.0
    ensures ItemMonthly(CostItem("Admin", 5.0, 50000.0, true), 72)[7] == 287500.0
  {
    var item := CostItem("Admin", 5.0, 50000.0, true);
    assert InitialCost(item) == 250000.0;
    assert YearIndex(6) == 0 && YearIndex(7) == 1;
    MoorgenCostByYear(item, 72, 6);
    MoorgenCostByYear(item, 72, 7);
    assert 1.15 * 250000.0 == 287500.0;
    Round2OfCents(250000.0);
    Round2OfCents(287500.0);
  }
}
