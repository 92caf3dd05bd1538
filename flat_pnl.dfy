/** The P&L engine of the cyncura and sakiru business plans
    (cyncura/engine/pnlEngine.js, sakiru/engine/pnlEngine.js; the same
    code): per year, EBITDA is revenue less opex, and a flat 25% tax is
    taken from a positive EBITDA only. */
module FlatPnL {

  /** The flat tax rate on a positive EBITDA. */
  const FlatTaxRate: real := 0.25

  datatype FlatPnLResult = FlatPnLResult(
    grossReceipts: seq<real>,
    totalExpenses: seq<real>,
    ebitda: seq<real>,
    netProfit: seq<real>)

  /** The tax on one year's EBITDA: 25% of it when positive, 0 otherwise. */
  function FlatTax(ebitda: real): (tax: real)
    ensures ebitda > 0.0 ==> 0.0 < tax < ebitda
    ensures ebitda <= 0.0 ==> tax == 0.0
  {
    if ebitda > 0.0 then ebitda * FlatTaxRate else 0.0
  }

  /** One year's net profit: the EBITDA less its tax. */
  function NetProfit(ebitda: real): real {
    ebitda - FlatTax(ebitda)
  }

  /** `computePnL` as a value: as many years as there are revenue years. */
  function FlatPnLOf(yearlyRevenue: seq<real>, yearlyOpex: seq<real>): FlatPnLResult
    requires |yearlyOpex| >= |yearlyRevenue|
  {
    var years := |yearlyRevenue|;
    var ebitda := seq(years, y requires 0 <= y < years => yearlyRevenue[y] - yearlyOpex[y]);
    FlatPnLResult(yearlyRevenue, yearlyOpex, ebitda,
      seq(years, y requires 0 <= y < years => NetProfit(ebitda[y])))
  }

  /** `computePnL`: a year loop pushing EBITDA and net profit. */
  method ComputeFlatPnL(yearlyRevenue: seq<real>, yearlyOpex: seq<real>) returns (r: FlatPnLResult)
    requires |yearlyOpex| >= |yearlyRevenue|
    ensures r == FlatPnLOf(yearlyRevenue, yearlyOpex)
  {
    var years := |yearlyRevenue|;
    var ebitda: seq<real> := [];
    var netProfit: seq<real> := [];
    var y := 0;
    while y < years
      invariant y <= years && |ebitda| == y && |netProfit| == y
      invariant forall k :: 0 <= k < y ==> ebitda[k] == yearlyRevenue[k] - yearlyOpex[k]
      invariant forall k :: 0 <= k < y ==> netProfit[k] == NetProfit(ebitda[k])
    {
      var currentEbitda := yearlyRevenue[y] - yearlyOpex[y];
      ebitda := ebitda + [currentEbitda];
      var tax := FlatTax(currentEbitda);
      netProfit := netProfit + [currentEbitda - tax];
      y := y + 1;
    }
    r := FlatPnLResult(yearlyRevenue, yearlyOpex, ebitda, netProfit);
  }

  /** The statement: revenue and opex are returned as given; there is one
      EBITDA and one net profit per revenue year; EBITDA is revenue less
      opex; a profitable year keeps three quarters of its EBITDA, a loss or
      break-even year keeps all of it; so net profit never exceeds EBITDA
      and is positive exactly when EBITDA is. */
  lemma FlatPnLFigures(yearlyRevenue: seq<real>, yearlyOpex: seq<real>, y: nat)
    requires |yearlyOpex| >= |yearlyRevenue| && y < |yearlyRevenue|
    ensures var r := FlatPnLOf(yearlyRevenue, yearlyOpex);
      r.grossReceipts == yearlyRevenue && r.totalExpenses == yearlyOpex &&
      |r.ebitda| == |yearlyRevenue| && |r.netProfit| == |yearlyRevenue| &&
      r.ebitda[y] == yearlyRevenue[y] - yearlyOpex[y] &&
      (r.ebitda[y] > 0.0 ==> r.netProfit[y] == 0.75 * r.ebitda[y]) &&
      (r.ebitda[y] <= 0.0 ==> r.netProfit[y] == r.ebitda[y]) &&
      r.netProfit[y] <= r.ebitda[y] &&
      (r.netProfit[y] > 0.0 <==> r.ebitda[y] > 0.0)
  {
  }
}
