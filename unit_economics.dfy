/** The unit-economics engine (unit-economics/engine/index.js): an hourly
    rate per role, the customers a marketing funnel converts and the cost of
    acquiring each, and per product its labour, government and acquisition
    costs, its sale price after the margin, its five-year lifetime value and
    the ratio of that value to its direct cost. */
module UnitEconomics {
  import opened Common

  datatype Role = Role(id: string, name: string, salary: real, standardHours: real, outputPercentage: real)
  datatype FunnelStep = FunnelStep(name: string, conversionPct: real)
  datatype Marketing = Marketing(totalMonthlySpend: real, totalLeads: real, conversionFunnel: seq<FunnelStep>)
  /** One `[roleId, hours]` entry of a product's `laborHours` object. */
  datatype LaborEntry = LaborEntry(roleId: string, hours: real)
  datatype GovtCost = GovtCost(name: string, amount: real)
  /** A product; `govtCosts` is `None` when the product has none. */
  datatype Product = Product(
    id: string, name: string,
    laborHours: seq<LaborEntry>,
    govtCosts: Option<seq<GovtCost>>,
    marginPct: real, arr: real, retentionRate: real)
  datatype UnitData = UnitData(roles: seq<Role>, marketing: Marketing, products: seq<Product>)

  datatype ProductResult = ProductResult(
    id: string, name: string,
    laborCost: real, govtCost: real, coa: real,
    totalDirectCost: real, marginAmount: real, salePrice: real,
    ltv: real, ltvCacRatio: real)
  datatype MarketingResult = MarketingResult(coa: real, totalCustomers: real)
  datatype UnitResult = UnitResult(roleRates: map<string, real>, marketing: MarketingResult, products: seq<ProductResult>)

  // ---------------------------------------------------------------- roles

  /** The hours a role actually delivers: standard hours times output. */
  function ActualHours(r: Role): real {
    r.standardHours * r.outputPercentage
  }

  /** Cost per delivered hour: the salary spread over the actual hours, and 0
      when the role delivers no hours. */
  function HourlyRate(r: Role): (rate: real)
    ensures ActualHours(r) > 0.0 ==> rate * ActualHours(r) == r.salary
    ensures ActualHours(r) <= 0.0 ==> rate == 0.0
  {
    if ActualHours(r) > 0.0 then r.salary / ActualHours(r) else 0.0
  }

  /** A role with a non-negative salary costs a non-negative rate. */
  lemma HourlyRateNonNegative(r: Role)
    requires r.salary >= 0.0
    ensures HourlyRate(r) >= 0.0
  {
    if ActualHours(r) > 0.0 {
      assert HourlyRate(r) * ActualHours(r) >= 0.0;
    }
  }

  /** The `roleRates` object after the first roles: one key per role id, a
      later role overwriting an earlier one with the same id. */
  function RoleRates(roles: seq<Role>): (rates: map<string, real>)
    ensures rates.Keys == set r | r in roles :: r.id
  {
    if |roles| == 0 then map[]
    else
      var last := roles[|roles| - 1];
      assert roles == roles[..|roles| - 1] + [last];
      RoleRates(roles[..|roles| - 1])[last.id := HourlyRate(last)]
  }

  /** The rate kept under a role's id is the rate of the last role listed
      with that id. */
  lemma {:induction false} RoleRateOfLast(roles: seq<Role>, i: nat)
    requires i < |roles|
    requires forall j :: i < j < |roles| ==> roles[j].id != roles[i].id
    ensures roles[i].id in RoleRates(roles)
    ensures RoleRates(roles)[roles[i].id] == HourlyRate(roles[i])
  {
    if i < |roles| - 1 {
      RoleRateOfLast(roles[..|roles| - 1], i);
    }
  }

  /** The loop over `data.roles` that fills `roleRates`. */
  method ComputeRoleRates(roles: seq<Role>) returns (rates: map<string, real>)
    ensures rates == RoleRates(roles)
  {
    rates := map[];
    var i := 0;
    while i < |roles|
      invariant i <= |roles|
      invariant rates == RoleRates(roles[..i])
    {
      assert roles[..i + 1][..i] == roles[..i];
      rates := rates[roles[i].id := HourlyRate(roles[i])];
      i := i + 1;
    }
    assert roles[..i] == roles;
  }

  // ---------------------------------------------------------------- funnel

  /** `x * pct`: what one funnel step lets through. */
  function Converted(x: real, pct: real): real {
    x * pct
  }

  /** The customers left after the funnel's steps, applied in order to the
      leads. */
  function Customers(leads: real, steps: seq<FunnelStep>): real {
    if |steps| == 0 then leads
    else Converted(Customers(leads, steps[..|steps| - 1]), steps[|steps| - 1].conversionPct)
  }

  /** The funnel's overall conversion rate: the product of its steps' rates. */
  function ConversionRate(steps: seq<FunnelStep>): real {
    if |steps| == 0 then 1.0 else steps[0].conversionPct * ConversionRate(steps[1..])
  }

  /** The overall rate of a funnel with one more step at its end. */
  lemma {:induction false} ConversionRateSnoc(steps: seq<FunnelStep>, s: FunnelStep)
    ensures ConversionRate(steps + [s]) == ConversionRate(steps) * s.conversionPct
  {
    if |steps| > 0 {
      assert (steps + [s])[1..] == steps[1..] + [s];
      ConversionRateSnoc(steps[1..], s);
      var p, q := steps[0].conversionPct, ConversionRate(steps[1..]);
      assert p * (q * s.conversionPct) == (p * q) * s.conversionPct;
    }
  }

  /** Closed form: the customers are the leads times the funnel's overall
      conversion rate. */
  lemma {:induction false} CustomersClosedForm(leads: real, steps: seq<FunnelStep>)
    ensures Customers(leads, steps) == leads * ConversionRate(steps)
  {
    if |steps| > 0 {
      var init, last := steps[..|steps| - 1], steps[|steps| - 1];
      CustomersClosedForm(leads, init);
      assert steps == init + [last];
      ConversionRateSnoc(init, last);
      assert (leads * ConversionRate(init)) * last.conversionPct
          == leads * (ConversionRate(init) * last.conversionPct);
    }
  }

  /** Every step converts a fraction between 0 and 1. */
  predicate Fractions(steps: seq<FunnelStep>) {
    forall i :: 0 <= i < |steps| ==> 0.0 <= steps[i].conversionPct <= 1.0
  }

  /** A funnel of fractional steps only narrows: from non-negative leads it
      ends with between 0 and that many customers. */
  lemma {:induction false} FunnelNarrows(leads: real, steps: seq<FunnelStep>)
    requires leads >= 0.0 && Fractions(steps)
    ensures 0.0 <= Customers(leads, steps) <= leads
  {
    if |steps| > 0 {
      var init := steps[..|steps| - 1];
      FunnelNarrows(leads, init);
      var x, p := Customers(leads, init), steps[|steps| - 1].conversionPct;
      assert Customers(leads, steps) == x * p;
      assert x * (1.0 - p) >= 0.0;
      assert x * p >= 0.0;
    }
  }

  /** The funnel loop: `totalCustomers *= step.conversionPct` per step. */
  method ComputeCustomers(m: Marketing) returns (totalCustomers: real)
    ensures totalCustomers == Customers(m.totalLeads, m.conversionFunnel)
  {
    var steps := m.conversionFunnel;
    totalCustomers := m.totalLeads;
    var i := 0;
    while i < |steps|
      invariant i <= |steps|
      invariant totalCustomers == Customers(m.totalLeads, steps[..i])
    {
      assert steps[..i + 1][..i] == steps[..i];
      totalCustomers := Converted(totalCustomers, steps[i].conversionPct);
      i := i + 1;
    }
    assert steps[..i] == steps;
  }

  /** Cost of acquisition: the monthly spend per customer won, and 0 when the
      funnel wins none. */
  function Coa(spend: real, customers: real): (coa: real)
    ensures customers > 0.0 ==> coa * customers == spend
    ensures customers <= 0.0 ==> coa == 0.0
  {
    if customers > 0.0 then spend / customers else 0.0
  }

  // ---------------------------------------------------------------- products

  /** `roleRates[roleId] || 0`: an unknown role costs nothing. */
  function RateFor(rates: map<string, real>, id: string): real {
    if id in rates then rates[id] else 0.0
  }

  /** What one entry of `laborHours` costs. */
  function EntryCost(e: LaborEntry, rates: map<string, real>): real {
    e.hours * RateFor(rates, e.roleId)
  }

  /** The labour cost of the first entries, summed in order. */
  function LaborCost(entries: seq<LaborEntry>, rates: map<string, real>): real {
    if |entries| == 0 then 0.0
    else LaborCost(entries[..|entries| - 1], rates) + EntryCost(entries[|entries| - 1], rates)
  }

  /** The inner labour loop of one product. */
  method ComputeLaborCost(entries: seq<LaborEntry>, rates: map<string, real>) returns (laborCost: real)
    ensures laborCost == LaborCost(entries, rates)
  {
    laborCost := 0.0;
    var i := 0;
    while i < |entries|
      invariant i <= |entries|
      invariant laborCost == LaborCost(entries[..i], rates)
    {
      assert entries[..i + 1][..i] == entries[..i];
      laborCost := laborCost + EntryCost(entries[i], rates);
      i := i + 1;
    }
    assert entries[..i] == entries;
  }

  /** A rate that no entry names does not enter the labour cost: changing or
      adding it leaves the cost as it was. */
  lemma {:induction false} LaborCostIgnoresUnusedRates(entries: seq<LaborEntry>, rates: map<string, real>, id: string, v: real)
    requires forall i :: 0 <= i < |entries| ==> entries[i].roleId != id
    ensures LaborCost(entries, rates[id := v]) == LaborCost(entries, rates)
  {
    if |entries| > 0 {
      LaborCostIgnoresUnusedRates(entries[..|entries| - 1], rates, id, v);
    }
  }

  /** With non-negative hours and rates the labour cost is non-negative. */
  lemma {:induction false} LaborCostNonNegative(entries: seq<LaborEntry>, rates: map<string, real>)
    requires forall i :: 0 <= i < |entries| ==> entries[i].hours >= 0.0
    requires forall k :: k in rates ==> rates[k] >= 0.0
    ensures LaborCost(entries, rates) >= 0.0
  {
    if |entries| > 0 {
      LaborCostNonNegative(entries[..|entries| - 1], rates);
      var e := entries[|entries| - 1];
      assert e.hours * RateFor(rates, e.roleId) >= 0.0;
    }
  }

  /** The sum of the first government costs' amounts. */
  function GovtTotal(costs: seq<GovtCost>): real {
    if |costs| == 0 then 0.0 else GovtTotal(costs[..|costs| - 1]) + costs[|costs| - 1].amount
  }

  /** A product's government costs: their sum, 0 when it lists none. */
  function GovtCostOf(p: Product): (c: real)
    ensures p.govtCosts == None ==> c == 0.0
  {
    match p.govtCosts
    case None => 0.0
    case Some(costs) => GovtTotal(costs)
  }

  /** The government-cost loop of one product. */
  method ComputeGovtCost(p: Product) returns (govtCost: real)
    ensures govtCost == GovtCostOf(p)
  {
    govtCost := 0.0;
    if p.govtCosts.Some? {
      var costs := p.govtCosts.value;
      var i := 0;
      while i < |costs|
        invariant i <= |costs|
        invariant govtCost == GovtTotal(costs[..i])
      {
        assert costs[..i + 1][..i] == costs[..i];
        govtCost := govtCost + costs[i].amount;
        i := i + 1;
      }
      assert costs[..i] == costs;
    }
  }

  /** `totalProductCost * product.marginPct`. */
  function MarginAmount(total: real, marginPct: real): real {
    total * marginPct
  }

  /** `product.arr * product.retentionRate * 4`: the recurring revenue of the
      four years after the sale. */
  function Recurring(arr: real, retentionRate: real): real {
    arr * retentionRate * 4.0
  }

  /** Lifetime value over direct cost, and 0 when the direct cost is not
      positive. */
  function LtvCacRatio(ltv: real, totalDirectCost: real): (ratio: real)
    ensures totalDirectCost > 0.0 ==> ratio * totalDirectCost == ltv
    ensures totalDirectCost <= 0.0 ==> ratio == 0.0
  {
    if totalDirectCost > 0.0 then ltv / totalDirectCost else 0.0
  }

  /** The figures of one product given its labour and government costs and
      the shared cost of acquisition. */
  function Priced(p: Product, laborCost: real, govtCost: real, coa: real): ProductResult {
    var total := laborCost + govtCost + coa;
    var margin := MarginAmount(total, p.marginPct);
    var salePrice := total + margin;
    var ltv := salePrice + Recurring(p.arr, p.retentionRate);
    ProductResult(p.id, p.name, laborCost, govtCost, coa, total, margin, salePrice, ltv, LtvCacRatio(ltv, total))
  }

  /** One product's result under the role rates and the cost of acquisition. */
  function ProductResultOf(p: Product, rates: map<string, real>, coa: real): ProductResult {
    Priced(p, LaborCost(p.laborHours, rates), GovtCostOf(p), coa)
  }

  /** The whole calculation. */
  function UnitEconomicsOf(data: UnitData): UnitResult {
    var rates := RoleRates(data.roles);
    var customers := Customers(data.marketing.totalLeads, data.marketing.conversionFunnel);
    var coa := Coa(data.marketing.totalMonthlySpend, customers);
    UnitResult(rates, MarketingResult(coa, customers),
      seq(|data.products|, i requires 0 <= i < |data.products| => ProductResultOf(data.products[i], rates, coa)))
  }

  /** `calculateUnitEconomics`. */
  method CalculateUnitEconomics(data: UnitData) returns (r: UnitResult)
    ensures r == UnitEconomicsOf(data)
  {
    var roleRates := ComputeRoleRates(data.roles);
    var totalCustomers := ComputeCustomers(data.marketing);
    var coa := Coa(data.marketing.totalMonthlySpend, totalCustomers);
    var products := data.products;
    var productResults: seq<ProductResult> := [];
    var i := 0;
    while i < |products|
      invariant i <= |products|
      invariant |productResults| == i
      invariant forall k :: 0 <= k < i ==> productResults[k] == ProductResultOf(products[k], roleRates, coa)
    {
      var laborCost := ComputeLaborCost(products[i].laborHours, roleRates);
      var govtCost := ComputeGovtCost(products[i]);
      var result := Priced(products[i], laborCost, govtCost, coa);
      productResults := productResults + [result];
      i := i + 1;
    }
    r := UnitResult(roleRates, MarketingResult(coa, totalCustomers), productResults);
  }

  /** Per product: the direct cost is labour plus government plus the cost
      of acquisition; the sale price is that cost raised by the margin; the
      lifetime value adds four years of retained recurring revenue to the
      sale price; and the ratio times the direct cost gives the lifetime
      value back whenever the direct cost is positive. */
  lemma ProductFigures(p: Product, rates: map<string, real>, coa: real)
    ensures var r := ProductResultOf(p, rates, coa);
      r.totalDirectCost == r.laborCost + r.govtCost + r.coa &&
      r.salePrice == r.totalDirectCost * (1.0 + p.marginPct) &&
      r.ltv - r.salePrice == 4.0 * p.arr * p.retentionRate &&
      (r.totalDirectCost > 0.0 ==> r.ltvCacRatio * r.totalDirectCost == r.ltv) &&
      (r.totalDirectCost <= 0.0 ==> r.ltvCacRatio == 0.0)
  {
    var r := ProductResultOf(p, rates, coa);
    assert r.totalDirectCost * (1.0 + p.marginPct) == r.totalDirectCost + r.totalDirectCost * p.marginPct;
  }

  /** A non-negative margin never prices a product below its direct cost. */
  lemma SalePriceCoversCost(p: Product, rates: map<string, real>, coa: real)
    requires p.marginPct >= 0.0
    requires ProductResultOf(p, rates, coa).totalDirectCost >= 0.0
    ensures ProductResultOf(p, rates, coa).salePrice >= ProductResultOf(p, rates, coa).totalDirectCost
  {
    var t := ProductResultOf(p, rates, coa).totalDirectCost;
    assert t * p.marginPct >= 0.0;
  }

  /** One result per product, in the products' order, carrying the product's
      id and name, and all charged the same cost of acquisition as the
      marketing figures report. */
  lemma ProductsInOrder(data: UnitData)
    ensures var r := UnitEconomicsOf(data);
      |r.products| == |data.products| &&
      forall i :: 0 <= i < |data.products| ==>
        r.products[i].id == data.products[i].id &&
        r.products[i].name == data.products[i].name &&
        r.products[i].coa == r.marketing.coa
  {
  }

  /** The customers are the leads times the overall conversion rate, and
      each costs the spend divided among them. */
  lemma MarketingFigures(data: UnitData)
    ensures var m := UnitEconomicsOf(data).marketing;
      m.totalCustomers == data.marketing.totalLeads * ConversionRate(data.marketing.conversionFunnel) &&
      (m.totalCustomers > 0.0 ==> m.coa * m.totalCustomers == data.marketing.totalMonthlySpend)
  {
    CustomersClosedForm(data.marketing.totalLeads, data.marketing.conversionFunnel);
  }

  /** The sample funnel: 740 leads through 40%, 50%, 70% and 30% conversion
      leave 31.08 customers, and a Junior Accountant on 20000 for 208 hours
      at 80% output costs 20000 / 166.4 an hour. */
  lemma SampleFunnel()
    ensures Customers(740.0, [FunnelStep("MQL", 0.4), FunnelStep("SQL", 0.5),
                              FunnelStep("Proposals", 0.7), FunnelStep("Closed Won", 0.3)]) == 31.08
    ensures HourlyRate(Role("jr_acct", "Junior Accountant", 20000.0, 208.0, 0.8)) * 166.4 == 20000.0
  {
    var steps := [FunnelStep("MQL", 0.4), FunnelStep("SQL", 0.5),
                  FunnelStep("Proposals", 0.7), FunnelStep("Closed Won", 0.3)];
    assert Customers(740.0, steps[..1]) == 296.0 by {
      assert steps[..1][..0] == [];
    }
    assert Customers(740.0, steps[..2]) == 148.0 by {
      assert steps[..2][..1] == steps[..1];
    }
    assert Customers(740.0, steps[..3]) == 103.6 by {
      assert steps[..3][..2] == steps[..2];
    }
    assert steps[..4][..3] == steps[..3];
  }
}
