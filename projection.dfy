/** The projection orchestrator (engine/index.js): build the branch schedule,
    project revenue and opex over it, depreciate the assets over whole
    years, and consolidate into yearly and monthly P&L and a summary. */
module Projection {
  import opened Common
  import opened Money
  import opened Branch
  import opened Ledger
  import opened Yearly
  import opened Revenue
  import opened Opex
  import opened Depreciation
  import opened PnL

  /** The orchestrator's input. Omitted members are `None`. */
  datatype Input = Input(
    branchSchedule: Option<seq<ScheduleEntry>>,
    services: seq<Service>,
    expenses: seq<Expense>,
    assets: Option<seq<Asset>>,
    growthConfig: Option<GrowthConfig>,
    taxRate: Option<real>)

  datatype MonthlyOutput = MonthlyOutput(
    revenue: seq<real>,
    opex: seq<real>,
    pnl: seq<MonthRow>,
    byStream: seq<Group<ServiceDetail>>,
    byCategory: seq<Group<ExpenseItem>>)

  datatype ProjectionResult = ProjectionResult(monthly: MonthlyOutput, yearly: seq<YearRow>, summary: Summary)

  /** The schedule to build from: the input's, or the built-in one. */
  function ScheduleOf(input: Input): seq<ScheduleEntry> {
    match input.branchSchedule
    case Some(s) => s
    case None => DefaultBranchSchedule
  }

  /** The revenue growth: the input's, or the default. */
  function GrowthOf(input: Input): GrowthConfig {
    match input.growthConfig
    case Some(g) => g
    case None => DefaultRevenueGrowth
  }

  /** The assets: the input's, or none. */
  function AssetsOf(input: Input): seq<Asset> {
    match input.assets
    case Some(a) => a
    case None => []
  }

  /** `Math.ceil(totalMonths / 12)`: the years the depreciation covers. */
  function DepreciationYears(totalMonths: nat): (years: nat)
    ensures 12 * years >= totalMonths
    ensures years > 0 ==> 12 * (years - 1) < totalMonths
  {
    (totalMonths + 11) / 12
  }

  /** A built schedule of n months answers every month for every service and
      every expense. */
  lemma FullScheduleCovers(schedule: seq<ScheduleEntry>, n: nat)
    requires Extendable(schedule, n)
    ensures Covers(FullSchedule(schedule, n), n)
  {
  }

  /** `runProjection`. The only demand on the input is that the schedule can
      be extended to the horizon: a supplied empty schedule cannot. */
  method RunProjection(input: Input, totalMonths: nat, pow: (real, real) -> real) returns (r: ProjectionResult)
    requires Extendable(ScheduleOf(input), totalMonths)
    ensures var full := FullSchedule(ScheduleOf(input), totalMonths);
      r.monthly.byStream == Streams(input.services, full, GrowthOf(input), totalMonths) &&
      r.monthly.byCategory == Categories(input.expenses, full, totalMonths)
    ensures |r.monthly.revenue| == totalMonths && |r.monthly.opex| == totalMonths
    ensures var full := FullSchedule(ScheduleOf(input), totalMonths);
      forall m :: 0 <= m < totalMonths ==>
        r.monthly.revenue[m] == ColumnSum(Revenue.Revenues(input.services, full, GrowthOf(input), totalMonths), m) &&
        r.monthly.opex[m] == ColumnSum(Costs(input.expenses, full, totalMonths), m)
    ensures r.monthly.pnl == MonthlyPnL(r.monthly.revenue, r.monthly.opex, input.taxRate)
    ensures r.yearly == YearlyPnL(YearlyParams(
      Aggregate(r.monthly.revenue), Aggregate(r.monthly.opex),
      AllDepreciation(AssetsOf(input), DepreciationYears(totalMonths)).yearlyTotal,
      YearlyByName(r.monthly.byStream), YearlyByName(r.monthly.byCategory),
      input.taxRate))
    ensures |r.yearly| == ReportedYears
    ensures r.summary == SummaryOf(r.yearly, pow)
  {
    var branchSchedule := BuildBranchSchedule(ScheduleOf(input), totalMonths);
    FullScheduleCovers(ScheduleOf(input), totalMonths);
    var revenueData := ComputeAllRevenue(input.services, branchSchedule, GrowthOf(input), totalMonths);
    var opexData := ComputeAllOpex(input.expenses, branchSchedule, totalMonths);
    var totalYears := DepreciationYears(totalMonths);
    var depreciationData := ComputeAllDepreciation(AssetsOf(input), totalYears);
    var params := YearlyParams(revenueData.yearlyGrand, opexData.yearlyGrand, depreciationData.yearlyTotal,
      revenueData.yearlyByStream, opexData.yearlyByCategory, input.taxRate);
    var yearlyPnL := ComputeYearlyPnL(params);
    var monthlyPnL := ComputeMonthlyPnL(revenueData.monthlyGrand, opexData.monthlyGrand, input.taxRate);
    var summary := ComputeSummary(yearlyPnL, pow);
    r := ProjectionResult(
      MonthlyOutput(revenueData.monthlyGrand, opexData.monthlyGrand, monthlyPnL, revenueData.streams, opexData.categories),
      yearlyPnL, summary);
  }

  /** The yearly P&L's revenue and opex are the fiscal-year sums of the
      monthly grand totals, unchanged by the second rounding, and its
      depreciation is the rounded yearly total of the assets, 0 past the
      depreciation horizon. */
  lemma YearlyFigures(monthlyRevenue: seq<real>, monthlyOpex: seq<real>, assets: seq<Asset>, totalMonths: nat,
                      byStream: seq<NamedSeries>, byCategory: seq<NamedSeries>, taxRate: Option<real>, y: nat)
    requires y < ReportedYears
    ensures var p := YearlyParams(Aggregate(monthlyRevenue), Aggregate(monthlyOpex),
        AllDepreciation(assets, DepreciationYears(totalMonths)).yearlyTotal, byStream, byCategory, taxRate);
      var row := YearlyPnL(p)[y];
      row.revenue == Aggregate(monthlyRevenue)[y] && row.opex == Aggregate(monthlyOpex)[y] &&
      row.depreciation == (if y < DepreciationYears(totalMonths)
                           then Round2(YearlyTotals(assets, DepreciationYears(totalMonths))[y]) else 0.0)
  {
    var rev, opex := Aggregate(monthlyRevenue), Aggregate(monthlyOpex);
    Round2OfCents(rev[y]);
    Round2OfCents(opex[y]);
    var years := DepreciationYears(totalMonths);
    if y < years {
      Round2OfCents(Round2(YearlyTotals(assets, years)[y]));
    } else {
      Round2Sign(0.0);
    }
  }
}
