/** Profit-and-loss consolidation (Docty-Healthcare/engine/pnlEngine.js).

    A year's EBITDA is revenue less opex; PBT is EBITDA less depreciation;
    tax is charged at the tax rate on a positive PBT only; PAT is PBT less
    tax. Margins and growth rates are guarded against non-positive
    denominators. Every figure is computed unrounded and rounded to cents
    only when the row is written; `round(v, 2)` is `Round2`, the only
    precision any call uses. */
module PnL {
  import opened Common
  import opened Money
  import opened Ledger

  /** `DEFAULT_TAX_RATE`: 25.17%. */
  const DefaultTaxRate: real := 0.2517

  /** A name with one year's value, as in `revenueBreakdown[stream]`. */
  datatype NamedValue = NamedValue(name: string, value: real)

  /** The parameters of `computeYearlyPnL`. An omitted depreciation list or
      breakdown is the empty one; an omitted tax rate is `None`. */
  datatype YearlyParams = YearlyParams(
    yearlyRevenue: seq<real>,
    yearlyOpex: seq<real>,
    yearlyDepreciation: seq<real>,
    yearlyRevenueByStream: seq<NamedSeries>,
    yearlyOpexByCategory: seq<NamedSeries>,
    taxRate: Option<real>)

  datatype YearRow = YearRow(
    year: nat, fy: string,
    revenue: real, opex: real, ebitda: real, ebitdaMargin: real, depreciation: real,
    pbt: real, tax: real, pat: real, patMargin: real,
    revenueGrowth: real, opexGrowth: real,
    revenueBreakdown: seq<NamedValue>, opexBreakdown: seq<NamedValue>)

  datatype MonthRow = MonthRow(month: nat, revenue: real, opex: real, ebitda: real,
                               ebitdaMargin: real, tax: real, pat: real)

  datatype Summary = Summary(
    totalRevenue: real, totalOpex: real, totalEbitda: real, totalPat: real,
    avgEbitdaMargin: real, revenueCagr: real, breakEvenYear: Option<nat>,
    peakRevenue: real, peakPat: real)

  /** The tax rate in force: the given one, the default when omitted. */
  function RateOf(taxRate: Option<real>): real {
    match taxRate
    case Some(rate) => rate
    case None => DefaultTaxRate
  }

  /** `a[i] || 0`: a missing entry counts as 0. */
  function ValueOr0(a: seq<real>, i: nat): (v: real)
    ensures i < |a| ==> v == a[i]
    ensures i >= |a| ==> v == 0.0
  {
    if i < |a| then a[i] else 0.0
  }

  /** Tax on a profit before tax: charged only when the profit is positive. */
  function Tax(pbt: real, rate: real): real {
    if pbt > 0.0 then pbt * rate else 0.0
  }

  /** `x / base`, or 0 when `base` is not positive. */
  function Ratio(x: real, base: real): real {
    if base > 0.0 then x / base else 0.0
  }

  /** `Ratio` as a percentage. */
  function MarginPct(x: real, base: real): real {
    Ratio(x, base) * 100.0
  }

  /** Growth over the previous value: `cur / prev - 1`, or 0 when the
      previous value is not positive. */
  function Growth(cur: real, prev: real): real {
    if prev > 0.0 then cur / prev - 1.0 else 0.0
  }

  /** `Growth` as a percentage. */
  function GrowthPct(cur: real, prev: real): real {
    Growth(cur, prev) * 100.0
  }

  /** The character of a decimal digit. */
  function DigitChar(d: nat): (c: char)
    requires d < 10
    ensures '0' <= c <= '9'
  {
    ('0' as int + d) as char
  }

  /** The decimal notation of a natural number, as JavaScript prints it. */
  function DecimalString(n: nat): (s: string)
    ensures |s| > 0
    ensures forall i :: 0 <= i < |s| ==> '0' <= s[i] <= '9'
  {
    if n < 10 then [DigitChar(n)] else DecimalString(n / 10) + [DigitChar(n % 10)]
  }

  /** The number a string of decimal digits denotes. */
  function DecimalValue(s: string): nat
    requires forall i :: 0 <= i < |s| ==> '0' <= s[i] <= '9'
  {
    if |s| == 0 then 0
    else DecimalValue(s[..|s| - 1]) * 10 + (s[|s| - 1] as int - '0' as int)
  }

  /** Reading the decimal notation back gives the number. */
  lemma {:induction false} DecimalRoundTrip(n: nat)
    ensures DecimalValue(DecimalString(n)) == n
  {
    var s := DecimalString(n);
    if n >= 10 {
      DecimalRoundTrip(n / 10);
      assert s[..|s| - 1] == DecimalString(n / 10);
    }
  }

  /** The fiscal-year label of year index y: "Y1", "Y2", ... */
  function FiscalLabel(y: nat): string {
    "Y" + DecimalString(y + 1)
  }

  /** The breakdown of year y: each name with its value for that year, 0
      when its series is too short. */
  function Breakdown(byName: seq<NamedSeries>, y: nat): (b: seq<NamedValue>)
    ensures |b| == |byName|
    ensures forall j :: 0 <= j < |byName| ==> b[j] == NamedValue(byName[j].name, ValueOr0(byName[j].values, y))
  {
    seq(|byName|, j requires 0 <= j < |byName| => NamedValue(byName[j].name, ValueOr0(byName[j].values, y)))
  }

  /** The unrounded profit before tax of year y. */
  function Pbt(p: YearlyParams, y: nat): real
    requires y < |p.yearlyRevenue| <= |p.yearlyOpex|
  {
    (p.yearlyRevenue[y] - p.yearlyOpex[y]) - ValueOr0(p.yearlyDepreciation, y)
  }

  /** Row y of the yearly P&L. */
  function YearlyRow(p: YearlyParams, y: nat): YearRow
    requires y < |p.yearlyRevenue| <= |p.yearlyOpex|
  {
    var revenue, opex := p.yearlyRevenue[y], p.yearlyOpex[y];
    var depreciation := ValueOr0(p.yearlyDepreciation, y);
    var ebitda := revenue - opex;
    var pbt := ebitda - depreciation;
    var tax := Tax(pbt, RateOf(p.taxRate));
    var pat := pbt - tax;
    var revenueGrowth := if y > 0 then GrowthPct(revenue, p.yearlyRevenue[y - 1]) else 0.0;
    var opexGrowth := if y > 0 then GrowthPct(opex, p.yearlyOpex[y - 1]) else 0.0;
    RoundedYearRow(y + 1, FiscalLabel(y), revenue, opex, ebitda, MarginPct(ebitda, revenue),
      depreciation, pbt, tax, pat, MarginPct(pat, revenue), revenueGrowth, opexGrowth,
      Breakdown(p.yearlyRevenueByStream, y), Breakdown(p.yearlyOpexByCategory, y))
  }

  /** A year row written from unrounded figures: every figure rounded to
      cents. */
  function RoundedYearRow(year: nat, fy: string, revenue: real, opex: real, ebitda: real, ebitdaMargin: real,
                          depreciation: real, pbt: real, tax: real, pat: real, patMargin: real,
                          revenueGrowth: real, opexGrowth: real,
                          revenueBreakdown: seq<NamedValue>, opexBreakdown: seq<NamedValue>): YearRow
  {
    YearRow(year, fy,
      Round2(revenue), Round2(opex), Round2(ebitda), Round2(ebitdaMargin),
      Round2(depreciation), Round2(pbt), Round2(tax), Round2(pat), Round2(patMargin),
      Round2(revenueGrowth), Round2(opexGrowth),
      revenueBreakdown, opexBreakdown)
  }

  /** The yearly P&L: one row per year of revenue. */
  function YearlyPnL(p: YearlyParams): (rows: seq<YearRow>)
    requires |p.yearlyRevenue| <= |p.yearlyOpex|
    ensures |rows| == |p.yearlyRevenue|
  {
    seq(|p.yearlyRevenue|, y requires 0 <= y < |p.yearlyRevenue| => YearlyRow(p, y))
  }

  /** `computeYearlyPnL`. Every year of revenue needs a year of opex (a
      missing one would make every figure of the row NaN). */
  method ComputeYearlyPnL(p: YearlyParams) returns (results: seq<YearRow>)
    requires |p.yearlyRevenue| <= |p.yearlyOpex|
    ensures results == YearlyPnL(p)
  {
    var taxRate := RateOf(p.taxRate);
    var years := |p.yearlyRevenue|;
    results := [];
    var y := 0;
    while y < years
      invariant y <= years && |results| == y
      invariant forall k :: 0 <= k < y ==> results[k] == YearlyRow(p, k)
    {
      var revenue := p.yearlyRevenue[y];
      var opex := p.yearlyOpex[y];
      var depreciation := if y < |p.yearlyDepreciation| then p.yearlyDepreciation[y] else 0.0;
      var ebitda := revenue - opex;
      var pbt := ebitda - depreciation;
      var tax := Tax(pbt, taxRate);
      var pat := pbt - tax;
      var revenueGrowth := if y > 0 then GrowthPct(revenue, p.yearlyRevenue[y - 1]) else 0.0;
      var opexGrowth := if y > 0 then GrowthPct(opex, p.yearlyOpex[y - 1]) else 0.0;
      var revenueBreakdown := Breakdown(p.yearlyRevenueByStream, y);
      var opexBreakdown := Breakdown(p.yearlyOpexByCategory, y);
      var row := RoundedYearRow(y + 1, "Y" + DecimalString(y + 1), revenue, opex, ebitda, MarginPct(ebitda, revenue),
        depreciation, pbt, tax, pat, MarginPct(pat, revenue), revenueGrowth, opexGrowth,
        revenueBreakdown, opexBreakdown);
      assert row == YearlyRow(p, y);
      results := results + [row];
      y := y + 1;
    }
  }

  /** Tax is charged only on a positive profit; with a rate between 0 and 1
      it is then between 0 and the profit, so profit after tax is between 0
      and the profit before tax; otherwise profit after tax is the profit
      before tax itself. */
  lemma TaxOnlyOnProfit(pbt: real, rate: real)
    ensures pbt <= 0.0 ==> Tax(pbt, rate) == 0.0 && pbt - Tax(pbt, rate) == pbt
    ensures pbt > 0.0 && 0.0 <= rate <= 1.0 ==>
      0.0 <= Tax(pbt, rate) <= pbt && 0.0 <= pbt - Tax(pbt, rate) <= pbt
    ensures rate > 0.0 ==> (Tax(pbt, rate) > 0.0 <==> pbt > 0.0)
  {
    if pbt > 0.0 && rate > 0.0 {
      assert pbt * rate > 0.0;
    }
    if pbt > 0.0 && 0.0 <= rate <= 1.0 {
      assert pbt * rate <= pbt * 1.0;
    }
  }

  /** Row y of the yearly P&L: year y + 1 labelled "Y" and its decimal
      number; PBT is revenue less opex less depreciation (0 when the
      depreciation list is short); tax and PAT follow `Tax` on the unrounded
      PBT; with a rate between 0 and 1 neither tax nor PAT is negative on a
      profit, and PAT never exceeds PBT. */
  lemma YearlyRowFigures(p: YearlyParams, y: nat)
    requires y < |p.yearlyRevenue| <= |p.yearlyOpex|
    ensures var row := YearlyPnL(p)[y];
      row.year == y + 1 && row.fy[0] == 'Y' && DecimalValue(row.fy[1..]) == y + 1 &&
      row.depreciation == Round2(ValueOr0(p.yearlyDepreciation, y)) &&
      row.pbt == Round2(Pbt(p, y)) &&
      row.tax == Round2(Tax(Pbt(p, y), RateOf(p.taxRate))) &&
      row.pat == Round2(Pbt(p, y) - Tax(Pbt(p, y), RateOf(p.taxRate)))
    ensures 0.0 <= RateOf(p.taxRate) <= 1.0 ==>
      var row := YearlyPnL(p)[y];
      0.0 <= row.tax && row.pat <= row.pbt && (Pbt(p, y) > 0.0 ==> 0.0 <= row.pat)
  {
    var row := YearlyPnL(p)[y];
    var pbt, rate := Pbt(p, y), RateOf(p.taxRate);
    assert row.fy[1..] == DecimalString(y + 1);
    DecimalRoundTrip(y + 1);
    if 0.0 <= rate <= 1.0 {
      TaxOnlyOnProfit(pbt, rate);
      if pbt > 0.0 {
        Round2Sign(Tax(pbt, rate));
        Round2Sign(pbt - Tax(pbt, rate));
      } else {
        Round2Sign(0.0);
      }
      Round2Monotone(pbt - Tax(pbt, rate), pbt);
    }
  }

  /** The guarded ratios of row y: both margins are 0 without positive
      revenue; both growth rates are 0 in the first year and whenever the
      previous year's value is not positive, and otherwise are the percentage
      change over it. */
  lemma YearlyRowGuards(p: YearlyParams, y: nat)
    requires y < |p.yearlyRevenue| <= |p.yearlyOpex|
    ensures p.yearlyRevenue[y] <= 0.0 ==> YearlyPnL(p)[y].ebitdaMargin == 0.0 && YearlyPnL(p)[y].patMargin == 0.0
    ensures y == 0 || p.yearlyRevenue[y - 1] <= 0.0 ==> YearlyPnL(p)[y].revenueGrowth == 0.0
    ensures y == 0 || p.yearlyOpex[y - 1] <= 0.0 ==> YearlyPnL(p)[y].opexGrowth == 0.0
    ensures y > 0 && p.yearlyRevenue[y - 1] > 0.0 ==>
      YearlyPnL(p)[y].revenueGrowth == Round2(GrowthPct(p.yearlyRevenue[y], p.yearlyRevenue[y - 1]))
    ensures y > 0 && p.yearlyOpex[y - 1] > 0.0 ==>
      YearlyPnL(p)[y].opexGrowth == Round2(GrowthPct(p.yearlyOpex[y], p.yearlyOpex[y - 1]))
  {
    Round2Sign(0.0);
  }

  /** The breakdowns of row y list every stream and every category, in
      order, with its value for year y, or 0 when its series is too short. */
  lemma YearlyRowBreakdowns(p: YearlyParams, y: nat, j: nat)
    requires y < |p.yearlyRevenue| <= |p.yearlyOpex|
    ensures |YearlyPnL(p)[y].revenueBreakdown| == |p.yearlyRevenueByStream|
    ensures |YearlyPnL(p)[y].opexBreakdown| == |p.yearlyOpexByCategory|
    ensures j < |p.yearlyRevenueByStream| ==>
      YearlyPnL(p)[y].revenueBreakdown[j].name == p.yearlyRevenueByStream[j].name &&
      YearlyPnL(p)[y].revenueBreakdown[j].value ==
        (if y < |p.yearlyRevenueByStream[j].values| then p.yearlyRevenueByStream[j].values[y] else 0.0)
    ensures j < |p.yearlyOpexByCategory| ==>
      YearlyPnL(p)[y].opexBreakdown[j].name == p.yearlyOpexByCategory[j].name &&
      YearlyPnL(p)[y].opexBreakdown[j].value ==
        (if y < |p.yearlyOpexByCategory[j].values| then p.yearlyOpexByCategory[j].values[y] else 0.0)
  {
  }

  /** Month m of the monthly P&L: EBITDA is taxed directly, with no
      depreciation. */
  function MonthlyRow(revenue: real, opex: real, m: nat, rate: real): MonthRow {
    var ebitda := revenue - opex;
    var tax := Tax(ebitda, rate);
    MonthRow(m, Round2(revenue), Round2(opex), Round2(ebitda),
      if revenue > 0.0 then Round2(MarginPct(ebitda, revenue)) else 0.0,
      Round2(tax), Round2(ebitda - tax))
  }

  /** The monthly P&L over the months both series have. */
  function MonthlyPnL(monthlyRevenue: seq<real>, monthlyOpex: seq<real>, taxRate: Option<real>): (rows: seq<MonthRow>)
    ensures |rows| == MinNat(|monthlyRevenue|, |monthlyOpex|)
  {
    var months := MinNat(|monthlyRevenue|, |monthlyOpex|);
    seq(months, m requires 0 <= m < months => MonthlyRow(monthlyRevenue[m], monthlyOpex[m], m, RateOf(taxRate)))
  }

  /** `computeMonthlyPnL`. */
  method ComputeMonthlyPnL(monthlyRevenue: seq<real>, monthlyOpex: seq<real>, taxRate: Option<real>)
    returns (results: seq<MonthRow>)
    ensures results == MonthlyPnL(monthlyRevenue, monthlyOpex, taxRate)
  {
    var rate := RateOf(taxRate);
    var months := MinNat(|monthlyRevenue|, |monthlyOpex|);
    results := [];
    var m := 0;
    while m < months
      invariant m <= months && |results| == m
      invariant forall k :: 0 <= k < m ==> results[k] == MonthlyRow(monthlyRevenue[k], monthlyOpex[k], k, rate)
    {
      var revenue := monthlyRevenue[m];
      var opex := monthlyOpex[m];
      var ebitda := revenue - opex;
      var tax := Tax(ebitda, rate);
      var pat := ebitda - tax;
      var row := MonthRow(m, Round2(revenue), Round2(opex), Round2(ebitda),
        if revenue > 0.0 then Round2(MarginPct(ebitda, revenue)) else 0.0,
        Round2(tax), Round2(pat));
      assert row == MonthlyRow(monthlyRevenue[m], monthlyOpex[m], m, rate);
      results := results + [row];
      m := m + 1;
    }
  }

  /** Month m of the monthly P&L: numbered m; taxed on EBITDA only when it
      is positive; with a rate between 0 and 1 PAT never exceeds EBITDA;
      margin 0 without positive revenue. */
  lemma MonthlyRowFigures(monthlyRevenue: seq<real>, monthlyOpex: seq<real>, taxRate: Option<real>, m: nat)
    requires m < |monthlyRevenue| && m < |monthlyOpex|
    ensures var row := MonthlyPnL(monthlyRevenue, monthlyOpex, taxRate)[m];
      var ebitda := monthlyRevenue[m] - monthlyOpex[m];
      row.month == m && row.ebitda == Round2(ebitda) &&
      (ebitda <= 0.0 ==> row.tax == 0.0 && row.pat == row.ebitda) &&
      (monthlyRevenue[m] <= 0.0 ==> row.ebitdaMargin == 0.0) &&
      (0.0 <= RateOf(taxRate) <= 1.0 ==> row.pat <= row.ebitda)
  {
    var ebitda := monthlyRevenue[m] - monthlyOpex[m];
    var rate := RateOf(taxRate);
    TaxOnlyOnProfit(ebitda, rate);
    Round2Sign(0.0);
    if 0.0 <= rate <= 1.0 {
      Round2Monotone(ebitda - Tax(ebitda, rate), ebitda);
    }
  }

  /** A column of the yearly rows. */
  function Revenues(rows: seq<YearRow>): (s: seq<real>)
    ensures |s| == |rows| && forall i :: 0 <= i < |rows| ==> s[i] == rows[i].revenue
  {
    seq(|rows|, i requires 0 <= i < |rows| => rows[i].revenue)
  }

  function Opexes(rows: seq<YearRow>): (s: seq<real>)
    ensures |s| == |rows| && forall i :: 0 <= i < |rows| ==> s[i] == rows[i].opex
  {
    seq(|rows|, i requires 0 <= i < |rows| => rows[i].opex)
  }

  function Pats(rows: seq<YearRow>): (s: seq<real>)
    ensures |s| == |rows| && forall i :: 0 <= i < |rows| ==> s[i] == rows[i].pat
  {
    seq(|rows|, i requires 0 <= i < |rows| => rows[i].pat)
  }

  function Margins(rows: seq<YearRow>): (s: seq<real>)
    ensures |s| == |rows| && forall i :: 0 <= i < |rows| ==> s[i] == rows[i].ebitdaMargin
  {
    seq(|rows|, i requires 0 <= i < |rows| => rows[i].ebitdaMargin)
  }

  /** The index of the first non-negative value, if any. */
  function FirstNonNegative(c: seq<real>): Option<nat> {
    if |c| == 0 then None
    else
      var before := FirstNonNegative(c[..|c| - 1]);
      if before.Some? then before
      else if c[|c| - 1] >= 0.0 then Some(|c| - 1)
      else None
  }

  /** `FirstNonNegative` finds exactly the first non-negative value: the
      index it returns holds one and no earlier index does, and it returns
      nothing only when every value is negative. */
  lemma {:induction false} FirstNonNegativeIsFirst(c: seq<real>)
    ensures FirstNonNegative(c).Some? ==>
      FirstNonNegative(c).value < |c| && c[FirstNonNegative(c).value] >= 0.0 &&
      forall j :: 0 <= j < FirstNonNegative(c).value ==> c[j] < 0.0
    ensures FirstNonNegative(c).None? <==> forall j :: 0 <= j < |c| ==> c[j] < 0.0
  {
    if |c| > 0 {
      var k := |c| - 1;
      FirstNonNegativeIsFirst(c[..k]);
      assert forall j :: 0 <= j < k ==> c[..k][j] == c[j];
    }
  }

  /** Cumulative PAT after each year. */
  function CumulativePat(rows: seq<YearRow>): (c: seq<real>)
    ensures |c| == |rows|
    ensures forall k :: 0 <= k < |rows| ==> c[k] == Sum(Pats(rows)[..k + 1])
  {
    seq(|rows|, k requires 0 <= k < |rows| => Sum(Pats(rows)[..k + 1]))
  }

  /** The break-even year: the `year` of the first row at which cumulative
      PAT is no longer negative. */
  function BreakEvenYear(rows: seq<YearRow>): Option<nat> {
    YearAt(rows, FirstNonNegative(CumulativePat(rows)))
  }

  /** The `year` of row k, if there is a row k. */
  function YearAt(rows: seq<YearRow>, k: Option<nat>): Option<nat> {
    match k
    case None => None
    case Some(k) => if k < |rows| then Some(rows[k].year) else None
  }

  /** `computeSummary` as a value. `pow` stands for `Math.pow`. */
  function SummaryOf(rows: seq<YearRow>, pow: (real, real) -> real): Summary
    requires |rows| > 0
  {
    var totalRevenue, totalOpex := Sum(Revenues(rows)), Sum(Opexes(rows));
    var first, last, n := rows[0].revenue, rows[|rows| - 1].revenue, |rows| - 1;
    RoundedSummary(totalRevenue, totalOpex, Sum(Pats(rows)), Sum(Margins(rows)) / |rows| as real,
      Cagr(first, last, n, pow), BreakEvenYear(rows), Max(Revenues(rows)), Max(Pats(rows)))
  }

  /** The compound annual growth from `first` to `last` over n years, 0
      without a positive start or without a second year. */
  function Cagr(first: real, last: real, n: nat, pow: (real, real) -> real): real {
    if first > 0.0 && n > 0 then pow(last / first, 1.0 / n as real) - 1.0 else 0.0
  }

  /** The summary written from unrounded figures: every amount rounded to
      cents, total EBITDA as total revenue less total opex, the CAGR as a
      percentage. */
  function RoundedSummary(totalRevenue: real, totalOpex: real, totalPat: real, avgEbitdaMargin: real,
                          cagr: real, breakEvenYear: Option<nat>, peakRevenue: real, peakPat: real): Summary
  {
    Summary(Round2(totalRevenue), Round2(totalOpex), Round2(totalRevenue - totalOpex), Round2(totalPat),
      Round2(avgEbitdaMargin), Round2(cagr * 100.0), breakEvenYear, Round2(peakRevenue), Round2(peakPat))
  }

  /** The break-even loop of `computeSummary`. */
  method BreakEven(rows: seq<YearRow>) returns (breakEvenYear: Option<nat>)
    ensures breakEvenYear == BreakEvenYear(rows)
  {
    ghost var c := CumulativePat(rows);
    var cumulativePat := 0.0;
    breakEvenYear := None;
    var i := 0;
    while i < |rows|
      invariant i <= |rows|
      invariant cumulativePat == Sum(Pats(rows)[..i])
      invariant FirstNonNegative(c[..i]).Some? ==> FirstNonNegative(c[..i]).value < i
      invariant breakEvenYear == YearAt(rows, FirstNonNegative(c[..i]))
    {
      assert Pats(rows)[..i + 1][..i] == Pats(rows)[..i];
      assert c[..i + 1][..i] == c[..i];
      cumulativePat := cumulativePat + rows[i].pat;
      assert cumulativePat == c[i];
      if cumulativePat >= 0.0 && breakEvenYear == None {
        breakEvenYear := Some(rows[i].year);
      }
      i := i + 1;
    }
    assert c[..i] == c;
  }

  /** `computeSummary`: totals by `reduce`, the average margin, the CAGR, the
      break-even loop and the peaks. An empty P&L would divide by zero and
      take the maximum of nothing. */
  method ComputeSummary(rows: seq<YearRow>, pow: (real, real) -> real) returns (s: Summary)
    requires |rows| > 0
    ensures s == SummaryOf(rows, pow)
  {
    var totalRevenue := Sum(Revenues(rows));
    var totalOpex := Sum(Opexes(rows));
    var totalPat := Sum(Pats(rows));
    var avgEbitdaMargin := Sum(Margins(rows)) / |rows| as real;
    var firstRevenue := rows[0].revenue;
    var lastRevenue := rows[|rows| - 1].revenue;
    var n := |rows| - 1;
    var revenueCagr := Cagr(firstRevenue, lastRevenue, n, pow);
    var breakEvenYear := BreakEven(rows);
    s := RoundedSummary(totalRevenue, totalOpex, totalPat, avgEbitdaMargin, revenueCagr, breakEvenYear,
      Max(Revenues(rows)), Max(Pats(rows)));
  }

  /** The break-even year is the `year` of the first row whose cumulative
      PAT is non-negative, and there is none exactly when cumulative PAT
      stays negative throughout. */
  lemma BreakEvenCharacterized(rows: seq<YearRow>)
    ensures var c := CumulativePat(rows);
      BreakEvenYear(rows).None? <==> forall k :: 0 <= k < |rows| ==> c[k] < 0.0
    ensures var c := CumulativePat(rows);
      BreakEvenYear(rows).Some? ==>
        exists k :: 0 <= k < |rows| && c[k] >= 0.0 && BreakEvenYear(rows).value == rows[k].year &&
          forall j :: 0 <= j < k ==> c[j] < 0.0
  {
    var c := CumulativePat(rows);
    FirstNonNegativeIsFirst(c);
    if FirstNonNegative(c).Some? {
      var k := FirstNonNegative(c).value;
      assert c[k] >= 0.0 && BreakEvenYear(rows).value == rows[k].year;
    }
  }

  /** The summary's peaks: the peak revenue and peak PAT are each at least
      every year's rounded figure, and each is some year's rounded figure. */
  lemma SummaryPeaks(rows: seq<YearRow>, pow: (real, real) -> real)
    requires |rows| > 0
    ensures forall i :: 0 <= i < |rows| ==> Round2(rows[i].revenue) <= SummaryOf(rows, pow).peakRevenue
    ensures forall i :: 0 <= i < |rows| ==> Round2(rows[i].pat) <= SummaryOf(rows, pow).peakPat
    ensures exists i :: 0 <= i < |rows| && SummaryOf(rows, pow).peakRevenue == Round2(rows[i].revenue)
    ensures exists i :: 0 <= i < |rows| && SummaryOf(rows, pow).peakPat == Round2(rows[i].pat)
  {
    var rev, pats := Revenues(rows), Pats(rows);
    var s := SummaryOf(rows, pow);
    assert s.peakRevenue == Round2(Max(rev)) && s.peakPat == Round2(Max(pats));
    forall i | 0 <= i < |rows|
      ensures Round2(rows[i].revenue) <= s.peakRevenue && Round2(rows[i].pat) <= s.peakPat
    {
      Round2Monotone(rows[i].revenue, Max(rev));
      Round2Monotone(rows[i].pat, Max(pats));
    }
    var j :| 0 <= j < |rev| && rev[j] == Max(rev);
    var k :| 0 <= k < |pats| && pats[k] == Max(pats);
  }

  /** The summary's totals: total EBITDA is total revenue less total opex,
      rounded once; the peaks are the largest revenue and PAT of any year
      (`SummaryPeaks`); the CAGR is 0 unless there is positive first-year
      revenue and more than one year. */
  lemma SummaryFigures(rows: seq<YearRow>, pow: (real, real) -> real)
    requires |rows| > 0
    ensures SummaryOf(rows, pow).totalEbitda == Round2(Sum(Revenues(rows)) - Sum(Opexes(rows)))
    ensures forall i :: 0 <= i < |rows| ==> Round2(rows[i].revenue) <= SummaryOf(rows, pow).peakRevenue
    ensures forall i :: 0 <= i < |rows| ==> Round2(rows[i].pat) <= SummaryOf(rows, pow).peakPat
    ensures exists i :: 0 <= i < |rows| && SummaryOf(rows, pow).peakRevenue == Round2(rows[i].revenue)
    ensures exists i :: 0 <= i < |rows| && SummaryOf(rows, pow).peakPat == Round2(rows[i].pat)
    ensures rows[0].revenue <= 0.0 || |rows| == 1 ==> SummaryOf(rows, pow).revenueCagr == 0.0
  {
    SummaryPeaks(rows, pow);
    Round2Sign(0.0);
  }

}
