/** The AIROC engine (airoc/engine_airoc/revenue.js, opex.js, pnl.js): a
    72-month revenue projection of units and price compounded by optional
    per-month growth factors, a branch-scaled expense projection from fixed
    base costs, and a monthly P&L with EBITDA and its margin. */
module Airoc {

  /** Months projected by every AIROC engine. */
  const Months: nat := 72

  /** Month m's growth factors for units and for price. */
  datatype GrowthFactor = GrowthFactor(qty: real, price: real)

  datatype RevenueRow = RevenueRow(month: nat, units: real, price: real, revenue: real)

  // ---------------------------------------------------------------- revenue

  /** `x * f`. */
  function Times(x: real, f: real): real {
    x * f
  }

  /** Month m's units factor: the configured one, 1 when there is none. */
  function QtyFactor(g: map<nat, GrowthFactor>, m: nat): real {
    if m in g then g[m].qty else 1.0
  }

  /** Month m's price factor: the configured one, 1 when there is none. */
  function PriceFactor(g: map<nat, GrowthFactor>, m: nat): real {
    if m in g then g[m].price else 1.0
  }

  /** Units in month m (1-based): the starting units, compounded by the
      factors of months 2 .. m. */
  function UnitsAt(start: real, g: map<nat, GrowthFactor>, m: nat): real
    requires m >= 1
  {
    if m == 1 then start else Times(UnitsAt(start, g, m - 1), QtyFactor(g, m))
  }

  /** Price in month m (1-based), compounded like the units. */
  function PriceAt(start: real, g: map<nat, GrowthFactor>, m: nat): real
    requires m >= 1
  {
    if m == 1 then start else Times(PriceAt(start, g, m - 1), PriceFactor(g, m))
  }

  /** Month m's revenue row. */
  function RevenueRowAt(branches: real, unitsPerBranch: real, pricePerUnit: real, g: map<nat, GrowthFactor>, m: nat): RevenueRow
    requires m >= 1
  {
    var units := UnitsAt(Times(unitsPerBranch, branches), g, m);
    var price := PriceAt(pricePerUnit, g, m);
    RevenueRow(m, units, price, Times(units, price))
  }

  /** The 72 revenue rows, months 1 .. 72. */
  function RevenueProjection(branches: real, unitsPerBranch: real, pricePerUnit: real, g: map<nat, GrowthFactor>): (rows: seq<RevenueRow>)
    ensures |rows| == Months
  {
    seq(Months, i requires 0 <= i < Months => RevenueRowAt(branches, unitsPerBranch, pricePerUnit, g, i + 1))
  }

  /** `calculateRevenue`: a month loop compounding units and price from
      month 2 on. */
  method CalculateRevenue(branches: real, unitsPerBranch: real, pricePerUnit: real, g: map<nat, GrowthFactor>)
    returns (projections: seq<RevenueRow>)
    ensures projections == RevenueProjection(branches, unitsPerBranch, pricePerUnit, g)
  {
    projections := [];
    var currentUnits := Times(unitsPerBranch, branches);
    var currentPrice := pricePerUnit;
    var m := 1;
    while m <= Months
      invariant 1 <= m <= Months + 1 && |projections| == m - 1
      invariant currentUnits == UnitsAt(Times(unitsPerBranch, branches), g, if m == 1 then 1 else m - 1)
      invariant currentPrice == PriceAt(pricePerUnit, g, if m == 1 then 1 else m - 1)
      invariant forall k :: 0 <= k < m - 1 ==> projections[k] == RevenueRowAt(branches, unitsPerBranch, pricePerUnit, g, k + 1)
    {
      var growthQty := QtyFactor(g, m);
      var growthPrice := PriceFactor(g, m);
      if m > 1 {
        currentUnits := Times(currentUnits, growthQty);
        currentPrice := Times(currentPrice, growthPrice);
      }
      var totalRevenue := Times(currentUnits, currentPrice);
      projections := projections + [RevenueRow(m, currentUnits, currentPrice, totalRevenue)];
      m := m + 1;
    }
  }

  /** Month 1's factors are never used: the projection is the same whatever
      month 1 is given. */
  lemma {:induction false} FirstMonthFactorUnused(start: real, g: map<nat, GrowthFactor>, f: GrowthFactor, m: nat)
    requires m >= 1
    ensures UnitsAt(start, g, m) == UnitsAt(start, g[1 := f], m)
    ensures PriceAt(start, g, m) == PriceAt(start, g[1 := f], m)
  {
    if m > 1 {
      FirstMonthFactorUnused(start, g, f, m - 1);
      assert QtyFactor(g, m) == QtyFactor(g[1 := f], m);
      assert PriceFactor(g, m) == PriceFactor(g[1 := f], m);
    }
  }

  /** Without growth factors units and price never change. */
  lemma {:induction false} NoGrowthConstant(start: real, m: nat)
    requires m >= 1
    ensures UnitsAt(start, map[], m) == start && PriceAt(start, map[], m) == start
  {
    if m > 1 {
      NoGrowthConstant(start, m - 1);
    }
  }

  /** Every units factor is at least 1. */
  predicate NonShrinking(g: map<nat, GrowthFactor>) {
    forall k :: k in g ==> g[k].qty >= 1.0
  }

  /** With non-negative starting units and no units factor below 1, the
      units never fall from one month to the next. */
  lemma {:induction false} UnitsNonDecreasing(start: real, g: map<nat, GrowthFactor>, m: nat)
    requires start >= 0.0 && NonShrinking(g) && m >= 1
    ensures 0.0 <= start <= UnitsAt(start, g, m) <= UnitsAt(start, g, m + 1)
  {
    if m > 1 {
      UnitsNonDecreasing(start, g, m - 1);
    }
    var u, q := UnitsAt(start, g, m), QtyFactor(g, m + 1);
    assert u * (q - 1.0) >= 0.0;
  }

  /** Without growth factors every month earns the starting units times the
      starting price. */
  lemma RevenueWithoutGrowth(branches: real, unitsPerBranch: real, pricePerUnit: real, i: nat)
    requires i < Months
    ensures var start := Times(unitsPerBranch, branches);
      RevenueProjection(branches, unitsPerBranch, pricePerUnit, map[])[i] ==
        RevenueRow(i + 1, start, pricePerUnit, Times(start, pricePerUnit))
  {
    NoGrowthConstant(Times(unitsPerBranch, branches), i + 1);
    NoGrowthConstant(pricePerUnit, i + 1);
  }

  // ---------------------------------------------------------------- expenses

  /** Monthly base costs per branch: a first-year total spread over 9 months. */
  const StaffBase: real := 5740000.0 / 9.0
  const ConsumablesBase: real := 352035.0 / 9.0
  const RentBase: real := 5546000.0 / 9.0
  const UtilitiesBase: real := (1500000.0 + 900000.0) / 9.0
  const IndirectStaffBase: real := 2500000.0 / 9.0
  const MarketingBase: real := 463708.0 / 9.0

  datatype ExpenseRow = ExpenseRow(
    month: nat, staff: real, rent: real, utilities: real, indirectStaff: real,
    marketing: real, consumables: real, totalOpex: real)

  /** Month m's expenses: every base cost times the branches, and their sum. */
  function ExpenseRowAt(branches: real, m: nat): ExpenseRow {
    var staff, rent, utilities := StaffBase * branches, RentBase * branches, UtilitiesBase * branches;
    var indirectStaff, marketing := IndirectStaffBase * branches, MarketingBase * branches;
    var consumables := ConsumablesBase * branches;
    ExpenseRow(m, staff, rent, utilities, indirectStaff, marketing, consumables,
      staff + rent + utilities + indirectStaff + marketing + consumables)
  }

  /** The 72 expense rows, months 1 .. 72. */
  function ExpenseProjection(branches: real): (rows: seq<ExpenseRow>)
    ensures |rows| == Months
  {
    seq(Months, i requires 0 <= i < Months => ExpenseRowAt(branches, i + 1))
  }

  /** `calculateExpenses`. The monthly revenue argument is not used. */
  method CalculateExpenses(branches: real, monthlyRevenueTotal: real) returns (projections: seq<ExpenseRow>)
    ensures projections == ExpenseProjection(branches)
  {
    projections := [];
    var m := 1;
    while m <= Months
      invariant 1 <= m <= Months + 1 && |projections| == m - 1
      invariant forall k :: 0 <= k < m - 1 ==> projections[k] == ExpenseRowAt(branches, k + 1)
    {
      var staffExp := StaffBase * branches;
      var rentExp := RentBase * branches;
      var utilExp := UtilitiesBase * branches;
      var indirectStaffExp := IndirectStaffBase * branches;
      var marketingExp := MarketingBase * branches;
      var consumablesExp := ConsumablesBase * branches;
      var totalOpex := staffExp + rentExp + utilExp + indirectStaffExp + marketingExp + consumablesExp;
      projections := projections + [ExpenseRow(m, staffExp, rentExp, utilExp, indirectStaffExp, marketingExp, consumablesExp, totalOpex)];
      m := m + 1;
    }
  }

  /** Every month costs the same: 17001743 / 9 per branch in total, so
      nothing at all without branches; the rows differ only in their month
      number. */
  lemma ExpensesFlat(branches: real, i: nat)
    requires i < Months
    ensures var rows := ExpenseProjection(branches);
      rows[i].month == i + 1 &&
      rows[i].totalOpex == branches * 17001743.0 / 9.0 &&
      rows[i].(month := 1) == rows[0] &&
      (branches == 0.0 ==> rows[i] == ExpenseRow(i + 1, 0.0, 0.0, 0.0, 0.0, 0.0, 0.0, 0.0))
  {
  }

  // ---------------------------------------------------------------- P&L

  datatype AirocConfig = AirocConfig(branches: real, product: string, units: real, price: real)

  datatype PnLRow = PnLRow(
    month: nat, product: string, revenue: real,
    staff: real, rent: real, marketing: real, consumables: real,
    totalExpenses: real, ebitda: real, ebitdaMargin: real)

  /** EBITDA as a percentage of revenue, 0 when there is no revenue. */
  function MarginPercent(ebitda: real, revenue: real): (margin: real)
    ensures revenue > 0.0 ==> margin * revenue == ebitda * 100.0
    ensures revenue <= 0.0 ==> margin == 0.0
  {
    if revenue > 0.0 then (ebitda / revenue) * 100.0 else 0.0
  }

  /** One P&L row from the month's revenue and expense rows. */
  function PnLRowOf(rev: RevenueRow, exp: ExpenseRow, product: string, m: nat): PnLRow {
    var ebitda := rev.revenue - exp.totalOpex;
    PnLRow(m + 1, product, rev.revenue, exp.staff, exp.rent, exp.marketing, exp.consumables,
      exp.totalOpex, ebitda, MarginPercent(ebitda, rev.revenue))
  }

  /** `generatePnL` as a value: no growth factors, expenses by branches. */
  function AirocPnL(config: AirocConfig): (pnl: seq<PnLRow>)
    ensures |pnl| == Months
  {
    var revenue := RevenueProjection(config.branches, config.units, config.price, map[]);
    var expenses := ExpenseProjection(config.branches);
    seq(Months, m requires 0 <= m < Months => PnLRowOf(revenue[m], expenses[m], config.product, m))
  }

  /** `generatePnL`. */
  method GeneratePnL(config: AirocConfig) returns (pnl: seq<PnLRow>)
    ensures pnl == AirocPnL(config)
  {
    var growthFactors: map<nat, GrowthFactor> := map[];
    var revenueProjections := CalculateRevenue(config.branches, config.units, config.price, growthFactors);
    var expenseProjections := CalculateExpenses(config.branches, 0.0);
    pnl := [];
    var m := 0;
    while m < Months
      invariant m <= Months && |pnl| == m
      invariant forall k :: 0 <= k < m ==> pnl[k] == PnLRowOf(revenueProjections[k], expenseProjections[k], config.product, k)
    {
      var rev := revenueProjections[m];
      var exp := expenseProjections[m];
      pnl := pnl + [PnLRowOf(rev, exp, config.product, m)];
      m := m + 1;
    }
  }

  /** Each month of the P&L: numbered from 1 and labelled with the product;
      revenue is the branches' units times the price, the same every month;
      total expenses are the flat branch-scaled total; EBITDA is their
      difference; the margin times the revenue is a hundred times EBITDA when
      there is revenue, and 0 otherwise. */
  lemma AirocPnLFigures(config: AirocConfig, m: nat)
    requires m < Months
    ensures var row := AirocPnL(config)[m];
      row.month == m + 1 && row.product == config.product &&
      row.revenue == Times(Times(config.units, config.branches), config.price) &&
      row.totalExpenses == config.branches * 17001743.0 / 9.0 &&
      row.ebitda == row.revenue - row.totalExpenses &&
      (row.revenue > 0.0 ==> row.ebitdaMargin * row.revenue == row.ebitda * 100.0) &&
      (row.revenue <= 0.0 ==> row.ebitdaMargin == 0.0)
  {
    RevenueWithoutGrowth(config.branches, config.units, config.price, m);
    ExpensesFlat(config.branches, m);
  }

  /** Sample: one branch selling 100 units at 2500 earns 250000 a month
      against 17001743 / 9 of expenses, a monthly loss. */
  lemma SampleOneBranch()
    ensures var row := AirocPnL(AirocConfig(1.0, "Radiotherapy Test", 100.0, 2500.0))[0];
      row.revenue == 250000.0 && row.totalExpenses == 17001743.0 / 9.0 &&
      row.ebitda == 250000.0 - 17001743.0 / 9.0 && row.ebitda < 0.0
  {
    AirocPnLFigures(AirocConfig(1.0, "Radiotherapy Test", 100.0, 2500.0), 0);
  }
}
