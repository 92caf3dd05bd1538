/** Operating-expense projection (engine/opexEngine.js).

    Each expense has a base monthly amount that is raised at the start of
    every fiscal year by its category's growth profile (a missing year
    counting as 0%), and is multiplied by the month's branch count when the
    expense is per branch. Expenses are grouped by category in first-seen
    order, summed into a monthly grand total and aggregated into fiscal
    years. */
module Opex {
  import opened Common
  import opened Money
  import opened Branch
  import opened Growth
  import opened Ledger
  import opened Yearly

  /** The two growth profiles of `GROWTH_PROFILES`. */
  datatype Profile = Stable | Declining

  /** `GROWTH_PROFILES[p].yearlyRates`: the rate applied when fiscal year y
      opens, keyed by y. Stable costs inflate 1% a year; declining ones jump
      45% and 40% in years 2 and 3 and taper off. */
  function YearlyRates(p: Profile): map<nat, real> {
    match p
    case Stable => map[1 := 0.01, 2 := 0.01, 3 := 0.01, 4 := 0.01, 5 := 0.01]
    case Declining => map[1 := 0.01, 2 := 0.45, 3 := 0.40, 4 := 0.25, 5 := 0.15]
  }

  /** `CATEGORY_PROFILES`. */
  const CategoryProfiles: map<string, Profile> := map[
    "Utilities" := Stable,
    "Salaries" := Stable,
    "Vendor Payments" := Stable,
    "Supplies" := Stable,
    "Payouts" := Stable,
    "Marketing & Promotions" := Declining,
    "Licenses & Registration" := Declining]

  /** `getGrowthProfile`: the category's listed profile, `stable` for any
      category not listed. Exactly the two marketing and licensing
      categories decline. */
  function GetGrowthProfile(category: string): (p: Profile)
    ensures p == Declining <==> category == "Marketing & Promotions" || category == "Licenses & Registration"
  {
    if category in CategoryProfiles then CategoryProfiles[category] else Stable
  }

  /** Every rate of every profile is positive. */
  lemma ProfileRatesPositive(p: Profile)
    ensures forall k :: k in YearlyRates(p) ==> YearlyRates(p)[k] > 0.0
    ensures NonNegativeRates(YearlyRates(p))
    ensures forall k :: k in YearlyRates(p) ==> 1 <= k <= 5
  {
  }

  datatype Expense = Expense(name: string, category: string, amount: real, perBranch: bool, active: bool)

  datatype ExpenseMonth = ExpenseMonth(month: nat, cost: real)

  /** One expense's entry in its category. */
  datatype ExpenseItem = ExpenseItem(name: string, monthly: seq<ExpenseMonth>)

  datatype OpexResult = OpexResult(
    categories: seq<Group<ExpenseItem>>,
    monthlyGrand: seq<real>,
    yearlyGrand: seq<real>,
    yearlyByCategory: seq<NamedSeries>)

  /** An expense that costs something: active with a positive amount. */
  predicate Incurs(e: Expense) {
    e.active && e.amount > 0.0
  }

  /** Every incurred expense can read the schedule. */
  predicate AllCovered(expenses: seq<Expense>, schedule: seq<MonthEntry>, n: nat) {
    forall i :: 0 <= i < |expenses| ==> !Incurs(expenses[i]) || Covers(schedule, n)
  }

  /** The growth table of an expense. */
  function Rates(e: Expense): map<nat, real> {
    YearlyRates(GetGrowthProfile(e.category))
  }

  /** The base cost (per branch or flat) in month m. */
  function BaseCost(e: Expense, m: nat): real {
    Stepped(e.amount, Rates(e), 0, m)
  }

  /** The unrounded cost of month m given the base cost and branch count. */
  function Scaled(e: Expense, base: real, branches: int): real {
    if e.perBranch then base * branches as real else base
  }

  /** Month m of an incurred expense. */
  function IncurredMonth(e: Expense, schedule: seq<MonthEntry>, m: nat): ExpenseMonth
    requires |schedule| > 0
  {
    ExpenseMonth(m, Round2(Scaled(e, BaseCost(e, m), GetBranches(schedule, m))))
  }

  /** The n months of one expense. */
  function ExpenseMonthly(e: Expense, schedule: seq<MonthEntry>, n: nat): seq<ExpenseMonth>
    requires !Incurs(e) || Covers(schedule, n)
  {
    if !Incurs(e) then seq(n, m requires 0 <= m < n => ExpenseMonth(m, 0.0))
    else seq(n, m requires 0 <= m < n => IncurredMonth(e, schedule, m))
  }

  /** `computeExpenseMonthly`: a month loop carrying the base cost. */
  method ComputeExpenseMonthly(e: Expense, schedule: seq<MonthEntry>, n: nat) returns (results: seq<ExpenseMonth>)
    requires !Incurs(e) || Covers(schedule, n)
    ensures results == ExpenseMonthly(e, schedule, n)
  {
    if !e.active || e.amount <= 0.0 {
      return seq(n, m requires 0 <= m < n => ExpenseMonth(m, 0.0));
    }
    var rates := YearlyRates(GetGrowthProfile(e.category));
    results := [];
    var baseCost := e.amount;
    var m := 0;
    while m < n
      invariant m <= n && |results| == m
      invariant m > 0 ==> baseCost == BaseCost(e, m - 1)
      invariant m == 0 ==> baseCost == e.amount
      invariant forall k :: 0 <= k < m ==> results[k] == IncurredMonth(e, schedule, k)
    {
      var yearIdx := YearIndex(m);
      var branches := if m < |schedule| then schedule[m].branches else schedule[|schedule| - 1].branches;
      if m > 0 {
        var prevYearIdx := YearIndex(m - 1);
        if yearIdx != prevYearIdx {
          baseCost := Raised(baseCost, rates, yearIdx);
        }
      }
      assert baseCost == BaseCost(e, m);
      var cost := Scaled(e, baseCost, branches);
      var month := ExpenseMonth(m, Round2(cost));
      assert month == IncurredMonth(e, schedule, m);
      results := results + [month];
      m := m + 1;
    }
  }

  /** Shape of an expense's months: one per month, numbered from 0; an
      inactive or non-positive expense costs 0 every month; otherwise the
      cost is the base cost, times the month's branches when per branch,
      rounded to cents. */
  lemma ExpenseMonthlyShape(e: Expense, schedule: seq<MonthEntry>, n: nat, m: nat)
    requires !Incurs(e) || Covers(schedule, n)
    requires m < n
    ensures |ExpenseMonthly(e, schedule, n)| == n
    ensures ExpenseMonthly(e, schedule, n)[m].month == m
    ensures !Incurs(e) ==> ExpenseMonthly(e, schedule, n)[m].cost == 0.0
    ensures Incurs(e) && e.perBranch ==>
      ExpenseMonthly(e, schedule, n)[m].cost == Round2(BaseCost(e, m) * GetBranches(schedule, m) as real)
    ensures Incurs(e) && !e.perBranch ==>
      ExpenseMonthly(e, schedule, n)[m].cost == Round2(BaseCost(e, m))
    ensures Incurs(e) ==> IsCents(ExpenseMonthly(e, schedule, n)[m].cost)
  {
    if Incurs(e) {
      assert ExpenseMonthly(e, schedule, n)[m] == IncurredMonth(e, schedule, m);
    }
  }

  /** The base cost starts at the amount and changes only in a month that
      opens a fiscal year, where it is raised by that year's rate. */
  lemma BaseCostSteps(e: Expense, m: nat)
    ensures BaseCost(e, 0) == e.amount
    ensures m > 0 && !IsYearStart(m) ==> BaseCost(e, m) == BaseCost(e, m - 1)
    ensures m > 0 && IsYearStart(m) ==>
      BaseCost(e, m) == BaseCost(e, m - 1) * (1.0 + RateOr0(Rates(e), YearIndex(m)))
  {
  }

  /** The base cost during fiscal year y is the amount raised by the rates of
      years 1 .. y; in particular it is the amount through fiscal year 0. */
  lemma BaseCostByYear(e: Expense, m: nat)
    ensures BaseCost(e, m) == YearValue(e.amount, Rates(e), 0, YearIndex(m))
    ensures m < 7 ==> BaseCost(e, m) == e.amount
  {
    SteppedClosedForm(e.amount, Rates(e), 0, m);
  }

  /** A flat expense costs the same in every month of a fiscal year. */
  lemma FlatCostWithinYear(e: Expense, schedule: seq<MonthEntry>, n: nat, m: nat, m': nat)
    requires !Incurs(e) || Covers(schedule, n)
    requires !e.perBranch && m < n && m' < n
    requires YearIndex(m) == YearIndex(m')
    ensures ExpenseMonthly(e, schedule, n)[m].cost == ExpenseMonthly(e, schedule, n)[m'].cost
  {
    ExpenseMonthlyShape(e, schedule, n, m);
    ExpenseMonthlyShape(e, schedule, n, m');
    SteppedWithinYear(e.amount, Rates(e), 0, m, m');
  }

  /** Every profile rate is positive, so a flat expense's cost never falls
      from one month to a later one. */
  lemma FlatCostNonDecreasing(e: Expense, schedule: seq<MonthEntry>, n: nat, m: nat, m': nat)
    requires !Incurs(e) || Covers(schedule, n)
    requires !e.perBranch && m <= m' < n
    ensures ExpenseMonthly(e, schedule, n)[m].cost <= ExpenseMonthly(e, schedule, n)[m'].cost
  {
    ExpenseMonthlyShape(e, schedule, n, m);
    ExpenseMonthlyShape(e, schedule, n, m');
    if Incurs(e) {
      ProfileRatesPositive(GetGrowthProfile(e.category));
      SteppedMonotone(e.amount, Rates(e), 0, m, m');
      Round2Monotone(BaseCost(e, m), BaseCost(e, m'));
    }
  }

  /** Sample: rent of 295000 per branch, filed under Utilities, costs
      1475000 in month 4 when five branches are open. */
  lemma SampleRent(schedule: seq<MonthEntry>, n: nat)
    requires |schedule| > 4 && schedule[4].branches == 5 && n > 4
    ensures ExpenseMonthly(Expense("Rent", "Utilities", 295000.0, true, true), schedule, n)[4].cost == 1475000.0
  {
    var e := Expense("Rent", "Utilities", 295000.0, true, true);
    ExpenseMonthlyShape(e, schedule, n, 4);
    BaseCostByYear(e, 4);
    Round2OfCents(1475000.0);
  }

  /** The category names of the expenses, in input order. */
  function CategoryKeys(expenses: seq<Expense>): (keys: seq<string>)
    ensures |keys| == |expenses|
    ensures forall i :: 0 <= i < |expenses| ==> keys[i] == expenses[i].category
  {
    seq(|expenses|, i requires 0 <= i < |expenses| => expenses[i].category)
  }

  /** An expense's entry in its category. */
  function Item(e: Expense, schedule: seq<MonthEntry>, n: nat): ExpenseItem
    requires !Incurs(e) || Covers(schedule, n)
  {
    ExpenseItem(e.name, ExpenseMonthly(e, schedule, n))
  }

  /** The entry each expense contributes to its category. */
  function Items(expenses: seq<Expense>, schedule: seq<MonthEntry>, n: nat): (d: seq<ExpenseItem>)
    requires AllCovered(expenses, schedule, n)
    ensures |d| == |expenses|
  {
    seq(|expenses|, i requires 0 <= i < |expenses| => Item(expenses[i], schedule, n))
  }

  /** The cost column of an expense's months. */
  function CostSeries(monthly: seq<ExpenseMonth>): (r: seq<real>)
    ensures |r| == |monthly|
    ensures forall m :: 0 <= m < |monthly| ==> r[m] == monthly[m].cost
  {
    seq(|monthly|, m requires 0 <= m < |monthly| => monthly[m].cost)
  }

  /** Each expense's monthly costs. */
  function Costs(expenses: seq<Expense>, schedule: seq<MonthEntry>, n: nat): (a: seq<seq<real>>)
    requires AllCovered(expenses, schedule, n)
    ensures |a| == |expenses| && Rectangular(a, n)
  {
    seq(|expenses|, i requires 0 <= i < |expenses| => CostSeries(ExpenseMonthly(expenses[i], schedule, n)))
  }

  /** The categories: expenses grouped by category in first-seen order. */
  function Categories(expenses: seq<Expense>, schedule: seq<MonthEntry>, n: nat): seq<Group<ExpenseItem>>
    requires AllCovered(expenses, schedule, n)
  {
    Grouped(CategoryKeys(expenses), Items(expenses, schedule, n), Costs(expenses, schedule, n), n)
  }

  /** Adding one more expense to the grouping inserts it into the categories
      of the expenses before it. */
  lemma CategoriesStep(expenses: seq<Expense>, schedule: seq<MonthEntry>, n: nat, i: nat)
    requires AllCovered(expenses, schedule, n) && i < |expenses|
    ensures AllCovered(expenses[..i], schedule, n) && AllCovered(expenses[..i + 1], schedule, n)
    ensures Categories(expenses[..i + 1], schedule, n) ==
      Insert(Categories(expenses[..i], schedule, n), expenses[i].category,
             Item(expenses[i], schedule, n), CostSeries(ExpenseMonthly(expenses[i], schedule, n)))
  {
    var p, q := expenses[..i + 1], expenses[..i];
    assert p[..i] == q;
    assert CategoryKeys(p)[..i] == CategoryKeys(q);
    assert Items(p, schedule, n)[..i] == Items(q, schedule, n);
    assert Costs(p, schedule, n)[..i] == Costs(q, schedule, n);
  }

  /** The grouping loop of `computeAllOpex`: each expense's months are
      appended to its category, opened on first sight. */
  method GroupExpenses(expenses: seq<Expense>, schedule: seq<MonthEntry>, n: nat)
    returns (categories: seq<Group<ExpenseItem>>)
    requires AllCovered(expenses, schedule, n)
    ensures categories == Categories(expenses, schedule, n)
  {
    categories := [];
    var i := 0;
    while i < |expenses|
      invariant i <= |expenses|
      invariant AllCovered(expenses[..i], schedule, n)
      invariant categories == Categories(expenses[..i], schedule, n)
    {
      var e := expenses[i];
      var monthly := ComputeExpenseMonthly(e, schedule, n);
      var costs := seq(n, m requires 0 <= m < n => monthly[m].cost);
      assert costs == CostSeries(monthly);
      CategoriesStep(expenses, schedule, n, i);
      categories := AddMember(categories, e.category, ExpenseItem(e.name, monthly), costs);
      i := i + 1;
    }
    assert expenses[..i] == expenses;
  }

  /** `computeAllOpex`: group the expenses' months by category, add up the
      monthly grand total over the categories, and aggregate the grand total
      and each category into fiscal years. */
  method ComputeAllOpex(expenses: seq<Expense>, schedule: seq<MonthEntry>, n: nat) returns (r: OpexResult)
    requires AllCovered(expenses, schedule, n)
    ensures r.categories == Categories(expenses, schedule, n)
    ensures |r.monthlyGrand| == n
    ensures forall m :: 0 <= m < n ==> r.monthlyGrand[m] == ColumnSum(Totals(r.categories), m)
    ensures forall m :: 0 <= m < n ==> r.monthlyGrand[m] == ColumnSum(Costs(expenses, schedule, n), m)
    ensures r.yearlyGrand == Aggregate(r.monthlyGrand)
    ensures r.yearlyByCategory == YearlyByName(r.categories)
  {
    var categories := GroupExpenses(expenses, schedule, n);
    var grand := GrandTotal(categories, n);
    var keys, items, costs := CategoryKeys(expenses), Items(expenses, schedule, n), Costs(expenses, schedule, n);
    forall m | 0 <= m < n
      ensures grand[m] == ColumnSum(costs, m)
    {
      GroupedColumn(keys, items, costs, n, m);
    }
    var yearly := AggregateYearly(grand);
    var byCategory := AggregateGroups(categories);
    r := OpexResult(categories, grand, yearly, byCategory);
  }

  /** The categories, as `computeAllOpex` leaves them: no two share a name; a
      name has a category exactly when some expense carries it; a category's
      monthly total is the sum of the costs of exactly the expenses filed
      under it, and its items are those, in input order. */
  lemma CategoryContents(expenses: seq<Expense>, schedule: seq<MonthEntry>, n: nat, name: string, j: nat, m: nat)
    requires AllCovered(expenses, schedule, n)
    requires j < |Categories(expenses, schedule, n)| && m < n
    ensures DistinctNames(Categories(expenses, schedule, n))
    ensures Find(Categories(expenses, schedule, n), name).Some? <==> name in CategoryKeys(expenses)
    ensures var c := Categories(expenses, schedule, n)[j];
      c.monthlyTotal[m] == KeySum(CategoryKeys(expenses), Costs(expenses, schedule, n), c.name, m) &&
      c.members == KeyMembers(CategoryKeys(expenses), Items(expenses, schedule, n), c.name)
  {
    var keys, items, costs := CategoryKeys(expenses), Items(expenses, schedule, n), Costs(expenses, schedule, n);
    GroupedDistinct(keys, items, costs, n);
    GroupedFind(keys, items, costs, n, name);
    GroupedTotals(keys, items, costs, n, j, m);
  }
}
