/** The revenue engine of the instalette and sakiru business plans
    (instalette/engine/revenueEngine.js, sakiru/engine/revenueEngine.js):
    the two files are the same code over different step-up tables. There
    are no branches: a service earns its own units times its own price, the
    units stepping up at the start of each fiscal year by the rate its
    1-based year number has in the table. */
module VariantRevenue {
  import opened Money
  import opened Branch
  import opened Growth
  import opened Ledger
  import opened Yearly
  import opened Revenue

  /** Months projected when the caller gives no horizon. */
  const DefaultMonths: nat := 72

  /** `INSTALETTE_REVENUE_GROWTH.yearlyStepUps`, keyed by 1-based year. */
  const InstaletteStepUps: map<nat, real> := map[2 := 0.20, 3 := 0.15, 4 := 0.15, 5 := 0.10]

  /** `SAKIRU_REVENUE_GROWTH.yearlyStepUps`, keyed by 1-based year. */
  const SakiruStepUps: map<nat, real> := map[2 := 0.25, 3 := 0.25, 4 := 0.20, 5 := 0.15]

  /** The units of an earning service in month m. */
  function VariantUnits(s: Service, table: map<nat, real>, m: nat): real {
    Stepped(s.baseUnits, table, 1, m)
  }

  /** Month m of an earning service: quantity and revenue rounded to cents
      separately, from the unrounded units. */
  function VariantMonth(s: Service, table: map<nat, real>, m: nat): ServiceMonth {
    PricedMonth(m, VariantUnits(s, table, m), s.price)
  }

  /** The months of one service. */
  function VariantServiceMonthly(s: Service, table: map<nat, real>, n: nat): (r: seq<ServiceMonth>)
    ensures |r| == n
  {
    if !Earns(s) then seq(n, m requires 0 <= m < n => ServiceMonth(m, 0.0, 0.0, 0.0))
    else seq(n, m requires 0 <= m < n => VariantMonth(s, table, m))
  }

  /** `computeServiceMonthly` of these engines. */
  method ComputeVariantServiceMonthly(s: Service, table: map<nat, real>, n: nat) returns (results: seq<ServiceMonth>)
    ensures results == VariantServiceMonthly(s, table, n)
  {
    if !Earns(s) {
      return seq(n, m requires 0 <= m < n => ServiceMonth(m, 0.0, 0.0, 0.0));
    }
    results := [];
    var currentUnits := s.baseUnits;
    var currentPrice := s.price;
    var m := 0;
    while m < n
      invariant m <= n && |results| == m
      invariant currentUnits == VariantUnits(s, table, if m == 0 then 0 else m - 1)
      invariant forall k :: 0 <= k < m ==> results[k] == VariantMonth(s, table, k)
    {
      ghost var previous := currentUnits;
      var yearIdx := YearNumber(m);
      if m > 0 {
        var prevYearIdx := YearNumber(m - 1);
        if yearIdx != prevYearIdx {
          currentUnits := Raised(currentUnits, table, yearIdx);
        }
      }
      assert m > 0 ==> currentUnits == StepUp(previous, table, 1, m);
      assert currentUnits == VariantUnits(s, table, m);
      var month := PricedMonth(m, currentUnits, currentPrice);
      results := results + [month];
      m := m + 1;
    }
  }

  /** Closed form of a service's months: numbered from 0; a service that
      does not earn has quantity, price and revenue 0; an earning one keeps
      its price, and its quantity and revenue are rounded to cents,
      separately, from the unrounded units of the month's fiscal year. */
  lemma VariantMonthlyShape(s: Service, table: map<nat, real>, n: nat, m: nat)
    requires m < n
    ensures VariantServiceMonthly(s, table, n)[m].month == m
    ensures !Earns(s) ==> VariantServiceMonthly(s, table, n)[m] == ServiceMonth(m, 0.0, 0.0, 0.0)
    ensures Earns(s) ==>
      VariantServiceMonthly(s, table, n)[m] == PricedMonth(m, YearValue(s.baseUnits, table, 1, YearIndex(m)), s.price)
  {
    if Earns(s) {
      assert VariantServiceMonthly(s, table, n)[m] == VariantMonth(s, table, m);
      SteppedClosedForm(s.baseUnits, table, 1, m);
    }
  }

  /** More units at a non-negative price earn no less, and nothing negative. */
  lemma PricedRevenueMonotone(m: nat, m': nat, q: real, q': real, price: real)
    requires 0.0 <= q <= q' && price >= 0.0
    ensures 0.0 <= PricedMonth(m, q, price).revenue <= PricedMonth(m', q', price).revenue
  {
    assert (q' - q) * price >= 0.0;
    assert q * price >= 0.0;
    Round2Monotone(q * price, q' * price);
    Round2Sign(q * price);
  }

  /** An earning service's revenue never falls from one month to a later
      one, when every rate of the table is non-negative. */
  lemma VariantRevenueNonDecreasing(s: Service, table: map<nat, real>, n: nat, m: nat, m': nat)
    requires Earns(s) && NonNegativeRates(table)
    requires m <= m' < n
    ensures 0.0 <= VariantServiceMonthly(s, table, n)[m].revenue <= VariantServiceMonthly(s, table, n)[m'].revenue
  {
    assert VariantServiceMonthly(s, table, n)[m] == VariantMonth(s, table, m);
    assert VariantServiceMonthly(s, table, n)[m'] == VariantMonth(s, table, m');
    SteppedMonotone(s.baseUnits, table, 1, m, m');
    PricedRevenueMonotone(m, m', VariantUnits(s, table, m), VariantUnits(s, table, m'), s.price);
  }

  /** The instalette units by fiscal year: the base in year 0, then 1.2,
      1.38, 1.587 and, from year 4 on, 1.7457 times the base, the last rate
      being used at the start of year 4. */
  lemma InstaletteUnits(x: real)
    ensures YearValue(x, InstaletteStepUps, 1, 0) == x
    ensures YearValue(x, InstaletteStepUps, 1, 1) == 1.2 * x
    ensures YearValue(x, InstaletteStepUps, 1, 2) == 1.38 * x
    ensures YearValue(x, InstaletteStepUps, 1, 3) == 1.587 * x
    ensures forall y :: y >= 4 ==> YearValue(x, InstaletteStepUps, 1, y) == 1.7457 * x
  {
    assert YearValue(x, InstaletteStepUps, 1, 1) == 1.2 * x;
    assert YearValue(x, InstaletteStepUps, 1, 2) == 1.38 * x;
    assert YearValue(x, InstaletteStepUps, 1, 3) == 1.587 * x;
    assert YearValue(x, InstaletteStepUps, 1, 4) == 1.7457 * x;
    forall y | y >= 4
      ensures YearValue(x, InstaletteStepUps, 1, y) == 1.7457 * x
    {
      YearValueSettles(x, InstaletteStepUps, 1, 4, y);
    }
  }

  /** The sakiru units by fiscal year: 1.25, 1.5625, 1.875 and, from year 4
      on, 2.15625 times the base. */
  lemma SakiruUnits(x: real)
    ensures YearValue(x, SakiruStepUps, 1, 0) == x
    ensures YearValue(x, SakiruStepUps, 1, 1) == 1.25 * x
    ensures YearValue(x, SakiruStepUps, 1, 2) == 1.5625 * x
    ensures YearValue(x, SakiruStepUps, 1, 3) == 1.875 * x
    ensures forall y :: y >= 4 ==> YearValue(x, SakiruStepUps, 1, y) == 2.15625 * x
  {
    assert YearValue(x, SakiruStepUps, 1, 1) == 1.25 * x;
    assert YearValue(x, SakiruStepUps, 1, 2) == 1.5625 * x;
    assert YearValue(x, SakiruStepUps, 1, 3) == 1.875 * x;
    assert YearValue(x, SakiruStepUps, 1, 4) == 2.15625 * x;
    forall y | y >= 4
      ensures YearValue(x, SakiruStepUps, 1, y) == 2.15625 * x
    {
      YearValueSettles(x, SakiruStepUps, 1, 4, y);
    }
  }

  /** Sample: 1000 units of premix sold online at 50 earn 50000 in month 0
      and, after the 20% step-up opening fiscal year 1, 60000 on 1200 units
      in month 7. */
  lemma SamplePremix()
    ensures var months := VariantServiceMonthly(Service("Online sale", "Instalette Instant snack premix", "", 1000.0, 50.0, true),
                                                InstaletteStepUps, DefaultMonths);
      months[0] == ServiceMonth(0, 1000.0, 50.0, 50000.0) &&
      months[7] == ServiceMonth(7, 1200.0, 50.0, 60000.0)
  {
    var s := Service("Online sale", "Instalette Instant snack premix", "", 1000.0, 50.0, true);
    VariantMonthlyShape(s, InstaletteStepUps, DefaultMonths, 0);
    VariantMonthlyShape(s, InstaletteStepUps, DefaultMonths, 7);
    InstaletteUnits(1000.0);
    Round2OfCents(1000.0);
    Round2OfCents(50000.0);
    Round2OfCents(1200.0);
    Round2OfCents(60000.0);
  }

  /** Each service's monthly revenues. */
  function VariantRevenues(services: seq<Service>, table: map<nat, real>, n: nat): (a: seq<seq<real>>)
    ensures |a| == |services| && Rectangular(a, n)
  {
    seq(|services|, i requires 0 <= i < |services| => RevenueSeries(VariantServiceMonthly(services[i], table, n)))
  }

  /** The services grouped by stream name in first-seen order. */
  function StreamGroups(services: seq<Service>, table: map<nat, real>, n: nat): seq<Group<Service>> {
    Grouped(StreamKeys(services), services, VariantRevenues(services, table, n), n)
  }

  /** A stream as these engines keep it: its name and monthly total. */
  function StreamSeries(groups: seq<Group<Service>>): (streams: seq<NamedSeries>)
    ensures |streams| == |groups|
    ensures forall j :: 0 <= j < |groups| ==>
      streams[j].name == groups[j].name && streams[j].values == groups[j].monthlyTotal
  {
    seq(|groups|, j requires 0 <= j < |groups| => NamedSeries(groups[j].name, groups[j].monthlyTotal))
  }

  datatype VariantRevenueResult = VariantRevenueResult(
    streams: seq<NamedSeries>,
    monthlyGrand: seq<real>,
    yearlyGrand: seq<real>)

  /** The groups of the first i services. */
  function GroupsUpTo(services: seq<Service>, table: map<nat, real>, n: nat, i: nat): (g: seq<Group<Service>>)
    requires i <= |services|
    ensures Shaped(g, n)
  {
    var keys, amounts := StreamKeys(services), VariantRevenues(services, table, n);
    Grouped(keys[..i], services[..i], amounts[..i], n)
  }

  /** The grand total of month m over the first i services. */
  function GrandUpTo(services: seq<Service>, table: map<nat, real>, n: nat, i: nat, m: nat): real
    requires i <= |services| && m < n
  {
    ColumnSum(VariantRevenues(services, table, n)[..i], m)
  }

  /** One more service grouped: the groups of the services before it with
      this service inserted, and its revenue added to every month's grand
      total. */
  lemma GroupStep(services: seq<Service>, table: map<nat, real>, n: nat, i: nat)
    requires i < |services|
    ensures GroupsUpTo(services, table, n, i + 1) ==
      Insert(GroupsUpTo(services, table, n, i), services[i].streamName, services[i],
             RevenueSeries(VariantServiceMonthly(services[i], table, n)))
    ensures forall m :: 0 <= m < n ==>
      GrandUpTo(services, table, n, i + 1, m) ==
        GrandUpTo(services, table, n, i, m) + RevenueSeries(VariantServiceMonthly(services[i], table, n))[m]
  {
    var keys, amounts := StreamKeys(services), VariantRevenues(services, table, n);
    assert keys[..i + 1][..i] == keys[..i];
    assert services[..i + 1][..i] == services[..i];
    assert amounts[..i + 1][..i] == amounts[..i];
  }

  /** All services grouped: the groups and grand totals of the whole list. */
  lemma GroupedAll(services: seq<Service>, table: map<nat, real>, n: nat)
    ensures GroupsUpTo(services, table, n, |services|) == StreamGroups(services, table, n)
    ensures forall m :: 0 <= m < n ==>
      GrandUpTo(services, table, n, |services|, m) == ColumnSum(VariantRevenues(services, table, n), m)
  {
    var keys, amounts := StreamKeys(services), VariantRevenues(services, table, n);
    assert keys[..|services|] == keys && services[..|services|] == services && amounts[..|amounts|] == amounts;
  }

  /** The body of the service loop: compute the service's months, then add
      its revenue to its stream and to the grand total. */
  method AddService(groups: seq<Group<Service>>, grand: seq<real>, s: Service, table: map<nat, real>, n: nat)
    returns (groups': seq<Group<Service>>, grand': seq<real>)
    requires Shaped(groups, n) && |grand| == n
    ensures groups' == Insert(groups, s.streamName, s, RevenueSeries(VariantServiceMonthly(s, table, n)))
    ensures grand' == AddPointwise(grand, RevenueSeries(VariantServiceMonthly(s, table, n)))
  {
    var monthly := ComputeVariantServiceMonthly(s, table, n);
    var revenue := seq(n, m requires 0 <= m < n => monthly[m].revenue);
    assert revenue == RevenueSeries(monthly);
    groups' := AddMember(groups, s.streamName, s, revenue);
    grand' := AccumulateMonths(grand, revenue);
  }

  /** The service loop of `computeAllRevenue`: each service's revenue is
      added to its stream, opened on first sight, and to the monthly grand
      total. */
  method GroupVariantServices(services: seq<Service>, table: map<nat, real>, n: nat)
    returns (groups: seq<Group<Service>>, monthlyGrand: seq<real>)
    ensures groups == StreamGroups(services, table, n)
    ensures |monthlyGrand| == n
    ensures forall m :: 0 <= m < n ==> monthlyGrand[m] == ColumnSum(VariantRevenues(services, table, n), m)
  {
    groups := [];
    monthlyGrand := Zeros(n);
    var i := 0;
    while i < |services|
      invariant i <= |services|
      invariant groups == GroupsUpTo(services, table, n, i)
      invariant |monthlyGrand| == n
      invariant forall m :: 0 <= m < n ==> monthlyGrand[m] == GrandUpTo(services, table, n, i, m)
    {
      GroupStep(services, table, n, i);
      groups, monthlyGrand := AddService(groups, monthlyGrand, services[i], table, n);
      i := i + 1;
    }
    GroupedAll(services, table, n);
  }

  /** `computeAllRevenue` of these engines: the service loop, then the grand
      total aggregated into fiscal years. */
  method ComputeVariantRevenue(services: seq<Service>, table: map<nat, real>, n: nat) returns (r: VariantRevenueResult)
    ensures r.streams == StreamSeries(StreamGroups(services, table, n))
    ensures |r.monthlyGrand| == n
    ensures forall m :: 0 <= m < n ==> r.monthlyGrand[m] == ColumnSum(VariantRevenues(services, table, n), m)
    ensures r.yearlyGrand == Aggregate(r.monthlyGrand)
  {
    var groups, monthlyGrand := GroupVariantServices(services, table, n);
    var yearlyGrand := AggregateYearly(monthlyGrand);
    r := VariantRevenueResult(StreamSeries(groups), monthlyGrand, yearlyGrand);
  }

  /** The streams these engines return: no two share a name; a name has a
      stream exactly when some service carries it; a stream's monthly total
      is the sum of the revenues of exactly the services carrying its name;
      and the grand total of a month is the sum over the streams. */
  lemma VariantStreamContents(services: seq<Service>, table: map<nat, real>, n: nat, name: string, j: nat, m: nat)
    requires j < |StreamGroups(services, table, n)| && m < n
    ensures DistinctNames(StreamGroups(services, table, n))
    ensures Find(StreamGroups(services, table, n), name).Some? <==> name in StreamKeys(services)
    ensures var st := StreamSeries(StreamGroups(services, table, n))[j];
      st.values[m] == KeySum(StreamKeys(services), VariantRevenues(services, table, n), st.name, m)
    ensures ColumnSum(Totals(StreamGroups(services, table, n)), m) == ColumnSum(VariantRevenues(services, table, n), m)
  {
    var keys, amounts := StreamKeys(services), VariantRevenues(services, table, n);
    GroupedDistinct(keys, services, amounts, n);
    GroupedFind(keys, services, amounts, n, name);
    GroupedTotals(keys, services, amounts, n, j, m);
    GroupedColumn(keys, services, amounts, n, m);
  }
}
