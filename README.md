# Business-plan projection engines, modelled in Dafny

The repository turns a small business-plan configuration into monthly and
yearly figures. The Docty engine has five stages, chained by the
orchestrator in `engine/index.js`:

- a branch-expansion schedule;
- revenue per service, grouped by stream;
- operating expense per item, grouped by category;
- straight-line depreciation of fixed assets;
- a consolidated P&L with a summary.

Every figure is reported on a fiscal calendar whose first year is the
seven months 0-6; each later year is twelve months. Several business
plans carry their own smaller engines, and these are modelled too:

- instalette and sakiru: a branchless revenue engine with 1-based year
  step-up tables;
- moorgen: an opex engine of inflating cost items;
- cyncura and sakiru: a flat-tax P&L;
- AIROC: a revenue, expense and P&L engine driven by growth factors;
- a unit-economics calculator for role rates, a marketing funnel and
  product pricing.

Each JavaScript function that loops, pushes or accumulates becomes a Dafny
`method` with the same loop. The method is proved equal to a specification
function of its inputs. The properties the engines promise are then proved
about those functions as lemmas:

- fiscal-year partition;
- closed forms of the step-ups;
- depreciation bounds;
- tax only on profit;
- the break-even year;
- grouping by name;
- the pricing identities.

Money is a mathematical `real`. `Math.round(x * 100) / 100` is `Money.Round2`.

| file | module | source |
|---|---|---|
| common.dfy | Common | `Math.min`, `Math.max` |
| money.dfy | Money | rounding to cents, sums, `table[k] ?? 0` |
| branch.dfy | Branch | Docty-Healthcare/engine/branchEngine.js |
| growth.dfy | Growth | year-boundary step-ups shared by the Docty opex and the variant engines |
| ledger.dfy | Ledger | grouping by stream or category inside `computeAllRevenue` / `computeAllOpex` |
| yearly.dfy | Yearly | `aggregateYearly` (the same code in four engines) |
| revenue.dfy | Revenue | Docty-Healthcare/engine/revenueEngine.js |
| opex.dfy | Opex | engine/opexEngine.js |
| depreciation.dfy | Depreciation | Docty-Healthcare/engine/depreciationEngine.js |
| pnl.dfy | PnL | Docty-Healthcare/engine/pnlEngine.js |
| projection.dfy | Projection | engine/index.js |
| unit_economics.dfy | UnitEconomics | unit-economics/engine/index.js |
| variant_revenue.dfy | VariantRevenue | instalette/engine/revenueEngine.js, sakiru/engine/revenueEngine.js |
| moorgen_opex.dfy | MoorgenOpex | moorgen/engine/opexEngine.js |
| flat_pnl.dfy | FlatPnL | cyncura/engine/pnlEngine.js, sakiru/engine/pnlEngine.js |
| airoc.dfy | Airoc | airoc/engine_airoc/revenue.js, opex.js, pnl.js |

## Behaviour of the code worth knowing

- **Empty schedule.** A supplied empty branch schedule, with months still to
  fill, fails in `buildBranchSchedule`: it reads the last entry of an empty
  array. The model requires `Branch.Extendable`.
- **Growth factor past the schedule.** `getGrowthFactor` returns 1 past the
  end of the schedule. It does not clamp to the last entry's factor.
- **Number of years.** `aggregateYearly` always reports six fiscal years,
  whatever the horizon. Months from 67 on are never counted
  (`Yearly.AggregateIgnoresTail`).
- **Manual ramp.** The Docty revenue engine has no manual-ramp override, so
  none is modelled.
- **Margin guard.** Margins are guarded by `revenue > 0`, so a negative
  revenue also gives a 0 margin, not only a zero revenue.
- **Net block.** The net block is the total cost less the *unrounded*
  running total of depreciation. It is not the total cost less the reported
  accumulated figure.
- **Malformed input.** No engine raises an error on malformed input. Where
  the JavaScript would crash or produce `NaN`, the model states the
  condition as a precondition instead.

## Model

| member | source | states |
|---|---|---|
| Money.Round2 | Docty-Healthcare/engine/revenueEngine.js:99-101 | the result is a whole number of cents within half a cent of the input (rounding half up) |
| Money.Round2Monotone | Docty-Healthcare/engine/depreciationEngine.js:49-51 | rounding to cents preserves order |
| Money.Round2OfCents | Docty-Healthcare/engine/revenueEngine.js:189 | a value already in whole cents is unchanged by rounding |
| Money.Round2Sign | Docty-Healthcare/engine/depreciationEngine.js:49-51 | rounding never changes the sign, and 0 rounds to 0 |
| Money.CentsAddSub | Docty-Healthcare/engine/pnlEngine.js:152-154 | sums and differences of whole cents are whole cents |
| Money.SumAppend | Docty-Healthcare/engine/revenueEngine.js:182 | the `reduce` sum of a concatenation is the sum of the parts |
| Money.SumSplit | Docty-Healthcare/engine/revenueEngine.js:182-188 | a prefix sum splits at any cut point |
| Money.SumOfCents | Docty-Healthcare/engine/pnlEngine.js:152-154 | a sum of whole-cent values is whole cents |
| Money.SumNonNegative | Docty-Healthcare/engine/depreciationEngine.js:90-91 | a sum of non-negative values is non-negative |
| Money.RateOr0 | Docty-Healthcare/engine/revenueEngine.js:82 | `table[k] ?? 0`: the table's rate when the key is present, 0 otherwise |
| Branch.DefaultScheduleShape | Docty-Healthcare/engine/branchEngine.js:19-42 | the default plan has 19 entries, starts with one new branch and ends at ten; the count never falls and each month's `newBranches` is the rise in the count |
| Branch.DefaultOpeningMonths | Docty-Healthcare/engine/branchEngine.js:20-27 | in months 1-6 the count does not fall and `newBranches` is its rise |
| Branch.DefaultSteadyMonths | Docty-Healthcare/engine/branchEngine.js:29-41 | in months 7-18 there are ten branches and no openings |
| Branch.BuildBranchSchedule | Docty-Healthcare/engine/branchEngine.js:53-73 | the month loop builds exactly `FullSchedule`: the input entry while it lasts, then the last entry with zero growth and zero openings |
| Branch.FullScheduleEntries | Docty-Healthcare/engine/branchEngine.js:53-73 | one entry per month, numbered from 0; inside the input it copies the entry's fields; past it, the last entry's branches and subscriptions with growth 0 and no openings |
| Branch.AccessorsOnFullSchedule | Docty-Healthcare/engine/branchEngine.js:81-106 | for any month however large: branches and subscriptions are those of the input entry at the clamped index; the growth factor is 1 + growth inside the input and 1 past it |
| Branch.YearIndex | Docty-Healthcare/engine/branchEngine.js:116-119 | the returned year's months contain m: year 0 is months 0-6, year k is the twelve months from 7 + 12(k-1) |
| Branch.YearIndexUnique | Docty-Healthcare/engine/branchEngine.js:108-119 | a month lies in exactly one fiscal year |
| Branch.YearIndexMonotone | Docty-Healthcare/engine/branchEngine.js:116-119 | the year index never decreases |
| Branch.YearIndexStep | Docty-Healthcare/engine/branchEngine.js:116-119 | consecutive months differ by at most one year; the index changes exactly at months 7 + 12k |
| Growth.YearNumber | instalette/engine/revenueEngine.js:15-18 | the variant engines' year index is the Docty year index plus 1 |
| Growth.YearValueAdvance | engine/opexEngine.js:107-113 | month m's step-up takes the value of the previous month's year to the value of m's year |
| Growth.SteppedClosedForm | engine/opexEngine.js:101-114 | the value carried by the step-up loop in month m is the start value raised once for each fiscal year opened up to m |
| Growth.SteppedWithinYear | engine/opexEngine.js:107-113 | two months of the same fiscal year carry the same stepped value |
| Growth.RaisedAtLeast | engine/opexEngine.js:111-112 | a non-negative rate never lowers a non-negative value |
| Growth.RaisedByZero | Docty-Healthcare/engine/revenueEngine.js:89-90 | a missing or zero rate leaves the value unchanged |
| Growth.StepUpAtLeast | engine/opexEngine.js:107-113 | a step-up with non-negative rates never lowers a non-negative value |
| Growth.YearValueMonotone | engine/opexEngine.js:107-113 | with a non-negative start and non-negative rates, the yearly value is non-negative and non-decreasing |
| Growth.SteppedMonotone | engine/opexEngine.js:101-114 | with a non-negative start and non-negative rates, the stepped value never decreases over the months |
| Growth.YearValueSettles | instalette/engine/revenueEngine.js:7-12 | once the table's last key has passed, the value stops changing |
| Ledger.Find | Docty-Healthcare/engine/revenueEngine.js:135 | a lookup that finds a position holds a group of that name; a failed lookup means no group has it |
| Ledger.Grouped | Docty-Healthcare/engine/revenueEngine.js:132-152 | grouping keeps every group's monthly total at the horizon's length |
| Ledger.AddMember | Docty-Healthcare/engine/revenueEngine.js:135-151 | the loop body opens a zero group on first sight, pushes the member and adds its months, giving `Insert` |
| Ledger.AccumulateMonths | instalette/engine/revenueEngine.js:70-73 | `grand[m] += row[m]` over every month yields the pointwise sum |
| Ledger.GroupedDistinct | Docty-Healthcare/engine/revenueEngine.js:135-141 | no two groups share a name |
| Ledger.GroupedFind | Docty-Healthcare/engine/revenueEngine.js:135-141 | a name has a group exactly when some item carries it |
| Ledger.GroupedTotals | Docty-Healthcare/engine/revenueEngine.js:143-151 | a group's monthly total is the sum over exactly the items filed under its name; its members are those items in input order |
| Ledger.ColumnSumInsert | Docty-Healthcare/engine/revenueEngine.js:135-151 | inserting an item adds its month-m amount to the sum of the group totals |
| Ledger.GroupedColumn | Docty-Healthcare/engine/revenueEngine.js:154-160 | summing the group totals of a month gives the sum of all items of that month |
| Ledger.GrandTotal | Docty-Healthcare/engine/revenueEngine.js:155-160 | the grand-total loop leaves in month m the sum of all group totals of month m |
| Yearly.Slice | Docty-Healthcare/engine/revenueEngine.js:187 | `slice` clamps its bounds to the length and copies the elements in between |
| Yearly.Aggregate | Docty-Healthcare/engine/revenueEngine.js:179-190 | six yearly figures, each a whole number of cents |
| Yearly.AggregateYearly | Docty-Healthcare/engine/revenueEngine.js:179-190 | the loop pushes the first-year sum and five 12-month sums, then rounds, giving `Aggregate` |
| Yearly.BlockIsFiscalYear | Docty-Healthcare/engine/revenueEngine.js:182-188 | block y is exactly the months with year index y, and is YearLength(y) long when the series is long enough |
| Yearly.AggregateIgnoresTail | Docty-Healthcare/engine/revenueEngine.js:184-188 | months from 67 on never change the yearly figures |
| Yearly.BlockSumsPartition | Docty-Healthcare/engine/revenueEngine.js:179-190 | the first k blocks sum to the months before the start of year k |
| Yearly.AggregatePartition | Docty-Healthcare/engine/revenueEngine.js:179-190 | before rounding, the six years add up to the total of months 0-66 |
| Yearly.YearlyByName | Docty-Healthcare/engine/revenueEngine.js:164-167 | one yearly series per group, under its name, in group order |
| Yearly.AggregateGroups | Docty-Healthcare/engine/revenueEngine.js:164-167 | the per-stream yearly loop gives `YearlyByName` |
| Revenue.PricedMonth | Docty-Healthcare/engine/revenueEngine.js:94-102 | quantity and revenue are each rounded to cents from the unrounded quantity; the price is kept |
| Revenue.QuantityOf | Docty-Healthcare/engine/revenueEngine.js:76-94 | the quantity is the running units times the month's branch count, the last entry's past the schedule |
| Revenue.ComputeServiceMonthly | Docty-Healthcare/engine/revenueEngine.js:58-106 | the month loop that carries the units gives `ServiceMonthly` |
| Revenue.ServiceMonthlyShape | Docty-Healthcare/engine/revenueEngine.js:64-102 | one entry per month, numbered from 0; a non-earning service is all zeros; an earning one keeps its price and rounds quantity and revenue separately |
| Revenue.GrownAtLeast | Docty-Healthcare/engine/revenueEngine.js:78-91 | with non-negative rates, one month's step-up and compounding never lower the units |
| Revenue.UnitsMonotone | Docty-Healthcare/engine/revenueEngine.js:71-91 | with non-negative rates the units never fall and stay at least the base |
| Revenue.RevenueNonNegative | Docty-Healthcare/engine/revenueEngine.js:93-101 | with non-negative branch counts and rates no reported revenue is negative |
| Revenue.DefaultGrown | Docty-Healthcare/engine/revenueEngine.js:25-43 | default growth: nothing in months 1-6, 25% a month in months 7-18, only the year-start step-up from month 19 |
| Revenue.DefaultUnitsYearZero | Docty-Healthcare/engine/revenueEngine.js:25-43 | under the default growth the units equal the base through months 0-6 |
| Revenue.DefaultUnitsYearOne | Docty-Healthcare/engine/revenueEngine.js:25-43 | under the default growth, month m of 7-18 has the base compounded m - 6 times at 25% |
| Revenue.UnitsFollowStepUps | Docty-Healthcare/engine/revenueEngine.js:78-91 | once monthly rates are zero, the units change only by the year-start step-ups |
| Revenue.DefaultUnitsLaterYears | Docty-Healthcare/engine/revenueEngine.js:36-42 | under the default growth, from month 18 the units are the month-18 units raised by +20%, +10%, +10%, +15% at months 19, 31, 43, 55 |
| Revenue.SampleMonthZero | Docty-Healthcare/engine/revenueEngine.js:94-101 | 8 units at 5500 with one branch earn 44000 in month 0 |
| Revenue.StreamsStep | Docty-Healthcare/engine/revenueEngine.js:132-152 | one more service inserts its entry and revenue into the streams so far |
| Revenue.GroupServices | Docty-Healthcare/engine/revenueEngine.js:129-152 | the service loop gives `Streams`: services grouped by stream in first-seen order |
| Revenue.ComputeAllRevenue | Docty-Healthcare/engine/revenueEngine.js:123-170 | returns the streams, the monthly grand total as the column sum of every service's revenue, and the yearly grand and per-stream figures |
| Revenue.StreamContents | Docty-Healthcare/engine/revenueEngine.js:129-160 | distinct stream names; a stream exists exactly for names some service carries; its total and services are exactly those of the services with its name |
| Opex.GetGrowthProfile | engine/opexEngine.js:62-80 | the two marketing and licensing categories decline; any other category, listed or not, is stable |
| Opex.ProfileRatesPositive | engine/opexEngine.js:30-58 | every rate of both profiles is positive |
| Opex.ComputeExpenseMonthly | engine/opexEngine.js:94-128 | the month loop carrying the base cost gives `ExpenseMonthly` |
| Opex.ExpenseMonthlyShape | engine/opexEngine.js:95-124 | one entry per month; an inactive or non-positive expense costs 0; otherwise the base cost, times branches when per branch, rounded to cents |
| Opex.BaseCostSteps | engine/opexEngine.js:101-113 | the base cost starts at the amount and changes only at year starts, raised by that year's rate |
| Opex.BaseCostByYear | engine/opexEngine.js:101-113 | in fiscal year y the base cost is the amount raised by the rates of years 1..y |
| Opex.FlatCostWithinYear | engine/opexEngine.js:103-124 | a flat expense costs the same every month of a fiscal year |
| Opex.FlatCostNonDecreasing | engine/opexEngine.js:103-124 | a flat expense's cost never falls |
| Opex.SampleRent | engine/opexEngine.js:117-123 | rent 295000 per branch costs 1475000 in month 4 with five branches |
| Opex.CategoriesStep | engine/opexEngine.js:147-166 | one more expense inserts its item and costs into the categories so far |
| Opex.GroupExpenses | engine/opexEngine.js:145-166 | the expense loop gives `Categories`: expenses grouped by category in first-seen order |
| Opex.ComputeAllOpex | engine/opexEngine.js:144-184 | returns the categories, the monthly grand total as the column sum of every expense's cost, and the yearly figures |
| Opex.CategoryContents | engine/opexEngine.js:145-174 | distinct category names; a category exists exactly for names some expense carries; its total and items are exactly those of its expenses |
| Depreciation.Schedule | Docty-Healthcare/engine/depreciationEngine.js:37-53 | one row per year |
| Depreciation.ComputeAssetDepreciation | Docty-Healthcare/engine/depreciationEngine.js:29-56 | the year loop carrying the accumulated charge gives `AssetDepreciationOf` |
| Depreciation.AccumulatedClosedForm | Docty-Healthcare/engine/depreciationEngine.js:37-45 | the accumulated charge is cost/life times the years in service, capped at the cost |
| Depreciation.DepreciationBounds | Docty-Healthcare/engine/depreciationEngine.js:37-45 | nothing before acquisition; each charge is between 0 and the annual charge; accumulated stays between 0 and the cost and never decreases; book value is never negative |
| Depreciation.AccumulatedMonotone | Docty-Healthcare/engine/depreciationEngine.js:40-44 | the accumulated charge never decreases over the years |
| Depreciation.ScheduleShape | Docty-Healthcare/engine/depreciationEngine.js:47-52 | rows numbered from 0; accumulated and book value are rounded from the unrounded accumulation; no reported figure is negative for a non-negative cost |
| Depreciation.SampleAsset | Docty-Healthcare/engine/depreciationEngine.js:29-56 | 25000000 over 10 years: 2500000 a year, net book value 10000000 at the end of year 5 |
| Depreciation.AddCharges | Docty-Healthcare/engine/depreciationEngine.js:80-82 | adds each year's rounded charge into that year's total |
| Depreciation.DepreciateAssets | Docty-Healthcare/engine/depreciationEngine.js:76-83 | the asset loop gives each asset's result and the unrounded column sums of the rounded charges |
| Depreciation.RunningSums | Docty-Healthcare/engine/depreciationEngine.js:86-94 | accumulated and net block in year k are rounded from the running sum of years 0..k |
| Depreciation.ComputeAllDepreciation | Docty-Healthcare/engine/depreciationEngine.js:71-103 | the whole computation gives `AllDepreciation` |
| Depreciation.NoAssets | Docty-Healthcare/engine/depreciationEngine.js:72-74 | without assets, total cost 0 and every series zeros |
| Depreciation.RunningTotals | Docty-Healthcare/engine/depreciationEngine.js:88-94 | with non-negative costs, yearly totals are non-negative, accumulated never falls and net block never rises |
| Depreciation.TotalsNonNegative | Docty-Healthcare/engine/depreciationEngine.js:80-82 | with non-negative costs every yearly total is non-negative |
| PnL.ValueOr0 | Docty-Healthcare/engine/pnlEngine.js:55 | `a[i] \|\| 0`: the entry when present, 0 past the end |
| PnL.DecimalString | Docty-Healthcare/engine/pnlEngine.js:87 | the decimal notation is non-empty and all digits |
| PnL.DecimalRoundTrip | Docty-Healthcare/engine/pnlEngine.js:87 | reading the notation back gives the number |
| PnL.Breakdown | Docty-Healthcare/engine/pnlEngine.js:73-83 | each name with its year value, 0 when its series is short |
| PnL.YearlyPnL | Docty-Healthcare/engine/pnlEngine.js:49-52 | one row per revenue year |
| PnL.ComputeYearlyPnL | Docty-Healthcare/engine/pnlEngine.js:41-105 | the year loop gives `YearlyPnL` |
| PnL.TaxOnlyOnProfit | Docty-Healthcare/engine/pnlEngine.js:61-62 | no tax without profit; with a rate in [0,1] tax and PAT lie between 0 and PBT; a positive rate taxes exactly positive PBT |
| PnL.YearlyRowFigures | Docty-Healthcare/engine/pnlEngine.js:52-101 | year y + 1 labelled "Y" and the number; depreciation 0 when missing; PBT, tax and PAT rounded from the unrounded chain; with a rate in [0,1], tax ≥ 0 and PAT ≤ PBT |
| PnL.YearlyRowGuards | Docty-Healthcare/engine/pnlEngine.js:59-71 | margins 0 without positive revenue; growth 0 in year 1 or after a non-positive year, otherwise the rounded percentage change |
| PnL.YearlyRowBreakdowns | Docty-Healthcare/engine/pnlEngine.js:73-83 | every stream and category appears in order with its year value, or 0 |
| PnL.MonthlyPnL | Docty-Healthcare/engine/pnlEngine.js:121 | as many months as the shorter series |
| PnL.ComputeMonthlyPnL | Docty-Healthcare/engine/pnlEngine.js:116-143 | the month loop gives `MonthlyPnL` |
| PnL.MonthlyRowFigures | Docty-Healthcare/engine/pnlEngine.js:124-139 | month m; EBITDA rounded; no tax on a loss; margin 0 without revenue; PAT ≤ EBITDA with a rate in [0,1] |
| PnL.FirstNonNegativeIsFirst | Docty-Healthcare/engine/pnlEngine.js:166-173 | the index found is the first non-negative one; none exactly when all are negative |
| PnL.CumulativePat | Docty-Healthcare/engine/pnlEngine.js:166-170 | entry k is the sum of PAT over years 0..k |
| PnL.BreakEven | Docty-Healthcare/engine/pnlEngine.js:166-173 | the loop gives `BreakEvenYear` |
| PnL.ComputeSummary | Docty-Healthcare/engine/pnlEngine.js:151-186 | the whole summary equals `SummaryOf` |
| PnL.BreakEvenCharacterized | Docty-Healthcare/engine/pnlEngine.js:165-173 | break-even is the `year` of the first row with non-negative cumulative PAT; none exactly when it stays negative |
| PnL.SummaryPeaks | Docty-Healthcare/engine/pnlEngine.js:183-184 | peak revenue and peak PAT are each at least every year's rounded figure and equal to some year's rounded figure |
| PnL.SummaryFigures | Docty-Healthcare/engine/pnlEngine.js:152-185 | total EBITDA is total revenue less total opex; the peaks bound every year and both peak revenue and peak PAT are attained by some year; CAGR 0 without positive first revenue or with one year |
| Projection.DepreciationYears | engine/index.js:59 | `ceil(totalMonths / 12)`: the least number of whole years covering the horizon |
| Projection.FullScheduleCovers | engine/index.js:41-56 | the built schedule answers every month for revenue and opex |
| Projection.RunProjection | engine/index.js:30-95 | streams, categories and monthly totals as grouped; monthly P&L from the grand totals; yearly P&L from aggregated totals, depreciation and breakdowns; six years; summary of the yearly P&L |
| Projection.YearlyFigures | engine/index.js:58-70 | the yearly P&L's revenue and opex are the fiscal-year sums; depreciation is the rounded total, 0 past the horizon |
| UnitEconomics.HourlyRate | unit-economics/engine/index.js:10-13 | rate × actual hours = salary when hours are positive; 0 otherwise |
| UnitEconomics.HourlyRateNonNegative | unit-economics/engine/index.js:10-13 | a non-negative salary gives a non-negative rate |
| UnitEconomics.RoleRates | unit-economics/engine/index.js:8-14 | the keys are exactly the role ids |
| UnitEconomics.RoleRateOfLast | unit-economics/engine/index.js:9-14 | a repeated id keeps the last role's rate |
| UnitEconomics.ComputeRoleRates | unit-economics/engine/index.js:8-14 | the roles loop gives `RoleRates` |
| UnitEconomics.ConversionRateSnoc | unit-economics/engine/index.js:18-20 | appending a step multiplies the overall rate by its percentage |
| UnitEconomics.CustomersClosedForm | unit-economics/engine/index.js:17-20 | customers = leads × the product of the step rates |
| UnitEconomics.FunnelNarrows | unit-economics/engine/index.js:17-20 | with fractional steps, customers lie between 0 and the leads |
| UnitEconomics.ComputeCustomers | unit-economics/engine/index.js:17-20 | the funnel loop gives `Customers` |
| UnitEconomics.Coa | unit-economics/engine/index.js:21 | COA × customers = spend when customers are positive; 0 otherwise |
| UnitEconomics.ComputeLaborCost | unit-economics/engine/index.js:27-30 | the labour loop gives `LaborCost` |
| UnitEconomics.LaborCostIgnoresUnusedRates | unit-economics/engine/index.js:28-30 | rates of roles the product does not use do not affect its labour cost |
| UnitEconomics.LaborCostNonNegative | unit-economics/engine/index.js:28-30 | non-negative hours and rates give a non-negative labour cost |
| UnitEconomics.GovtCostOf | unit-economics/engine/index.js:33-38 | the sum of the government costs, 0 when none are listed |
| UnitEconomics.ComputeGovtCost | unit-economics/engine/index.js:33-38 | the government loop gives `GovtCostOf` |
| UnitEconomics.LtvCacRatio | unit-economics/engine/index.js:58 | ratio × direct cost = LTV when the cost is positive; 0 otherwise |
| UnitEconomics.CalculateUnitEconomics | unit-economics/engine/index.js:6-82 | the whole calculation gives `UnitEconomicsOf` |
| UnitEconomics.ProductFigures | unit-economics/engine/index.js:44-58 | direct cost = labour + government + COA; sale price = cost + margin; LTV = price + 4 × ARR × retention; ratio × cost = LTV |
| UnitEconomics.SalePriceCoversCost | unit-economics/engine/index.js:51-52 | a non-negative margin prices at or above direct cost |
| UnitEconomics.ProductsInOrder | unit-economics/engine/index.js:24-72 | one result per product in order, with its id and name and the shared COA |
| UnitEconomics.MarketingFigures | unit-economics/engine/index.js:17-21 | customers = leads × conversion; COA spreads the spend over them |
| UnitEconomics.SampleFunnel | unit-economics/engine/index.js:9-21 | 740 leads through 40/50/70/30% give 31.08 customers; a 20000 salary at 208 h and 80% gives 20000/166.4 an hour |
| VariantRevenue.ComputeVariantServiceMonthly | instalette/engine/revenueEngine.js:20-54 | the month loop gives `VariantServiceMonthly` |
| VariantRevenue.VariantMonthlyShape | instalette/engine/revenueEngine.js:20-54 | month-numbered; zeros when not earning; otherwise the price kept and quantity and revenue rounded from the units of the month's fiscal year |
| VariantRevenue.PricedRevenueMonotone | instalette/engine/revenueEngine.js:42-49 | more units at a non-negative price earn no less, never negative |
| VariantRevenue.VariantRevenueNonDecreasing | instalette/engine/revenueEngine.js:31-50 | with non-negative rates, revenue never falls |
| VariantRevenue.InstaletteUnits | instalette/engine/revenueEngine.js:5-13 | units by year: base, ×1.2, ×1.38, ×1.587, then ×1.7457 from year 4 |
| VariantRevenue.SakiruUnits | sakiru/engine/revenueEngine.js:5-13 | units by year: base, ×1.25, ×1.5625, ×1.875, then ×2.15625 from year 4 |
| VariantRevenue.SamplePremix | instalette/engine/revenueEngine.js:20-54 | 1000 at 50: 50000 in month 0, 60000 on 1200 units in month 7 |
| VariantRevenue.StreamSeries | instalette/engine/revenueEngine.js:63-68 | each stream keeps its name and monthly total |
| VariantRevenue.GroupStep | instalette/engine/revenueEngine.js:60-74 | one more service: inserted into its stream, its revenue added to every month's grand total |
| VariantRevenue.GroupedAll | instalette/engine/revenueEngine.js:60-74 | after all services, the groups and grand totals of the whole list |
| VariantRevenue.AddService | instalette/engine/revenueEngine.js:61-73 | the loop body inserts the service's revenue into its stream and the grand total |
| VariantRevenue.GroupVariantServices | instalette/engine/revenueEngine.js:57-74 | the service loop gives `StreamGroups` and the column sums |
| VariantRevenue.ComputeVariantRevenue | instalette/engine/revenueEngine.js:56-78 | streams, monthly grand as column sums, yearly grand as `Aggregate` |
| VariantRevenue.VariantStreamContents | instalette/engine/revenueEngine.js:56-78 | distinct stream names; streams exactly for carried names; totals are the per-name sums; the grand total is the sum over streams |
| MoorgenOpex.ItemMonthly | moorgen/engine/opexEngine.js:19-42 | one cost per month |
| MoorgenOpex.ComputeOpexMonthly | moorgen/engine/opexEngine.js:19-42 | the month loop gives `ItemMonthly` |
| MoorgenOpex.MoorgenCostByYear | moorgen/engine/opexEngine.js:5-42 | by year: units × price, ×1.15, ×1.3225, ×1.520875, then ×1.6729625, rounded |
| MoorgenOpex.MoorgenCostNonDecreasing | moorgen/engine/opexEngine.js:25-39 | a charging item's cost is non-negative and never falls |
| MoorgenOpex.ItemCosts | moorgen/engine/opexEngine.js:47-48 | one monthly series per item |
| MoorgenOpex.ComputeMoorgenOpex | moorgen/engine/opexEngine.js:44-56 | monthly grand as column sums of the items, yearly grand aggregated |
| MoorgenOpex.SampleAdmin | moorgen/engine/opexEngine.js:19-42 | 5 × 50000: 250000 in month 6, 287500 in month 7 |
| FlatPnL.FlatTax | cyncura/engine/pnlEngine.js:20 | a positive EBITDA pays a tax between 0 and itself; otherwise no tax |
| FlatPnL.ComputeFlatPnL | cyncura/engine/pnlEngine.js:6-30 | the year loop gives `FlatPnLOf` |
| FlatPnL.FlatPnLFigures | sakiru/engine/pnlEngine.js:5-28 | inputs returned as given; EBITDA = revenue − opex; net = 75% of a positive EBITDA, else EBITDA; net ≤ EBITDA; net positive iff EBITDA positive |
| Airoc.RevenueProjection | airoc/engine_airoc/revenue.js:6-34 | 72 rows |
| Airoc.CalculateRevenue | airoc/engine_airoc/revenue.js:6-34 | the month loop gives `RevenueProjection` |
| Airoc.FirstMonthFactorUnused | airoc/engine_airoc/revenue.js:13-21 | month 1's factors never affect the projection |
| Airoc.NoGrowthConstant | airoc/engine_airoc/revenue.js:14-21 | without factors, units and price never change |
| Airoc.UnitsNonDecreasing | airoc/engine_airoc/revenue.js:18-21 | factors ≥ 1 never lower non-negative units |
| Airoc.RevenueWithoutGrowth | airoc/engine_airoc/revenue.js:10-30 | without factors, every month earns branches × units × price, numbered from 1 |
| Airoc.ExpenseProjection | airoc/engine_airoc/opex.js:6-47 | 72 rows |
| Airoc.CalculateExpenses | airoc/engine_airoc/opex.js:6-47 | the month loop gives `ExpenseProjection` |
| Airoc.ExpensesFlat | airoc/engine_airoc/opex.js:11-43 | every month totals branches × 17001743/9; rows differ only in month; no branches, no cost |
| Airoc.MarginPercent | airoc/engine_airoc/pnl.js:25 | margin × revenue = 100 × EBITDA when revenue is positive; 0 otherwise |
| Airoc.AirocPnL | airoc/engine_airoc/pnl.js:9-42 | 72 rows |
| Airoc.GeneratePnL | airoc/engine_airoc/pnl.js:9-42 | the month loop gives `AirocPnL` |
| Airoc.AirocPnLFigures | airoc/engine_airoc/pnl.js:20-38 | months from 1 with the product; revenue constant; expenses the flat total; EBITDA their difference; the margin identity |
| Airoc.SampleOneBranch | airoc/engine_airoc/pnl.js:9-42 | one branch, 100 units at 2500: 250000 revenue and an EBITDA loss |

## Left out

- IEEE double arithmetic, `NaN` and `Infinity`: amounts are reals, and `Math.round` is exact half-up rounding to cents.
- Inputs that make the JavaScript crash or produce `NaN` are preconditions, not modelled error paths:
  - an empty supplied branch schedule with months to fill (`Branch.Extendable`, `Branch.Covers`);
  - a yearly opex shorter than the yearly revenue (`PnL.ComputeYearlyPnL`, `FlatPnL.ComputeFlatPnL`);
  - an empty yearly P&L given to the summary (`PnL.ComputeSummary`).
- `Math.pow` in the CAGR is a parameter `pow`. Its value is not modelled, so the CAGR is stated only for its guard.
- `round(value, decimals)` is modelled for 2 decimals only. That is the only precision any call uses.
- Objects used as dictionaries are lists of named groups in first-seen order. JavaScript enumerates an object's string keys in insertion order only when the key is not an integer-like name: names that are canonical array indices ("0", "2025") come first, in ascending numeric order, in `Object.values` and `Object.entries` (Docty-Healthcare/engine/revenueEngine.js:156,165, engine/opexEngine.js:170,179 and the breakdowns at Docty-Healthcare/engine/pnlEngine.js:75-83). The order of streams, categories, yearly series and breakdowns for such names is not modelled; the model lists every group in first-seen order.
- Keys that collide with `Object.prototype` members are not modelled. An example is a category named `constructor`, found through `CATEGORY_PROFILES[category]`.
- `growthConfig` is total in the model. A partial configuration without `monthlyRates` or `yearlyStepUps`, which would throw in the JavaScript, is not modelled.
- `service.customGrowth` and `subStreamName` are carried but never used by the code.
  - The Docty stream entry keeps `subStream`.
  - The variant engines reuse the Docty `Service` record.
- The per-service `monthly` arrays kept in the Docty streams and categories are modelled as the member lists of the groups. The variant engines keep only names and totals (`VariantRevenue.StreamSeries`).
- In the variant revenue loop, the per-stream update and the grand-total update share one month loop. The model does them one after the other, with the same result.
- `UnitEconomics.ComputeLaborCost`: `laborHours` is a list of (role, hours) entries. A duplicate role in a JavaScript object would keep only the last entry.
- The `|| 0` lookups turn a missing role rate into 0. Stored `NaN` values are not modelled.
- AIROC growth-factor entries missing `qty` or `price` are not modelled. An entry is a pair of reals.
- AIROC `pharmacy_cost_ratio` is declared but never used.
- Not part of this model:
  - the per-plan orchestrators (`cyncura/engine/index.js`, `instalette/engine/index.js`, `sakiru/engine/index.js`, `moorgen/engine/index.js`);
  - the moorgen revenue engine;
  - the spreadsheet writers, HTTP routes, pages and test scripts.
