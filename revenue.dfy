/** Revenue projection of the Docty engine
    (Docty-Healthcare/engine/revenueEngine.js).

    Each service sells `baseUnits` per branch per month at a fixed price.
    From month 1 on its units are first stepped up when the month opens a
    new fiscal year and then compounded by that year's monthly rate; month
    m's quantity is units times the month's branch count. Services are
    grouped by stream in first-seen order, summed into a monthly grand total
    and aggregated into fiscal years. */
module Revenue {
  import opened Common
  import opened Money
  import opened Branch
  import opened Growth
  import opened Ledger
  import opened Yearly

  /** Monthly compounding rates and year-start step-ups, keyed by the
      0-based fiscal-year index. */
  datatype GrowthConfig = GrowthConfig(monthlyRates: map<nat, real>, yearlyStepUps: map<nat, real>)

  /** `DEFAULT_REVENUE_GROWTH`: 25% a month through fiscal year 1, then
      step-ups of 20%, 10%, 10% and 15% at the starts of years 2-5. */
  const DefaultRevenueGrowth: GrowthConfig := GrowthConfig(
    map[0 := 0.0, 1 := 0.25, 2 := 0.0, 3 := 0.0, 4 := 0.0, 5 := 0.0],
    map[2 := 0.20, 3 := 0.10, 4 := 0.10, 5 := 0.15])

  datatype Service = Service(name: string, streamName: string, subStreamName: string,
                             baseUnits: real, price: real, active: bool)

  datatype ServiceMonth = ServiceMonth(month: nat, quantity: real, price: real, revenue: real)

  /** One service's entry in its stream. */
  datatype ServiceDetail = ServiceDetail(name: string, subStream: string, monthly: seq<ServiceMonth>)

  datatype RevenueResult = RevenueResult(
    streams: seq<Group<ServiceDetail>>,
    monthlyGrand: seq<real>,
    yearlyGrand: seq<real>,
    yearlyByStream: seq<NamedSeries>)

  /** A service that earns: active, with positive units and price. */
  predicate Earns(s: Service) {
    s.active && s.baseUnits > 0.0 && s.price > 0.0
  }

  /** Every earning service can read the schedule. */
  predicate AllCovered(services: seq<Service>, schedule: seq<MonthEntry>, n: nat) {
    forall i :: 0 <= i < |services| ==> !Earns(services[i]) || Covers(schedule, n)
  }

  /** Month m's growth of the units: the step-up when m opens a fiscal
      year, then the compounding by the year's monthly rate. */
  function Grown(u: real, g: GrowthConfig, m: nat): real {
    Raised(StepUp(u, g.yearlyStepUps, 0, m), g.monthlyRates, YearIndex(m))
  }

  /** Units per branch in month m; month 0 is left alone. */
  function Units(base: real, g: GrowthConfig, m: nat): real {
    if m == 0 then base else Grown(Units(base, g, m - 1), g, m)
  }

  /** Unrounded quantity sold in month m: units per branch times branches. */
  function Quantity(s: Service, schedule: seq<MonthEntry>, g: GrowthConfig, m: nat): real
    requires |schedule| > 0
  {
    Units(s.baseUnits, g, m) * GetBranches(schedule, m) as real
  }

  /** A month's entry from its unrounded quantity: quantity and revenue are
      rounded to cents separately. */
  function PricedMonth(m: nat, quantity: real, price: real): (r: ServiceMonth)
    ensures r.month == m && r.price == price
    ensures IsCents(r.quantity) && IsCents(r.revenue)
  {
    ServiceMonth(m, Round2(quantity), price, Round2(quantity * price))
  }

  /** Month m of an earning service. */
  function EarningMonth(s: Service, schedule: seq<MonthEntry>, g: GrowthConfig, m: nat): ServiceMonth
    requires |schedule| > 0
  {
    PricedMonth(m, Quantity(s, schedule, g, m), s.price)
  }

  /** The n months of one service. */
  function ServiceMonthly(s: Service, schedule: seq<MonthEntry>, g: GrowthConfig, n: nat): seq<ServiceMonth>
    requires !Earns(s) || Covers(schedule, n)
  {
    if !Earns(s) then seq(n, m requires 0 <= m < n => ServiceMonth(m, 0.0, 0.0, 0.0))
    else seq(n, m requires 0 <= m < n => EarningMonth(s, schedule, g, m))
  }

  /** The quantity of month m from the running units and the branch count. */
  lemma QuantityOf(s: Service, schedule: seq<MonthEntry>, g: GrowthConfig, m: nat, units: real, branches: int)
    requires |schedule| > 0
    requires units == Units(s.baseUnits, g, m) && branches == GetBranches(schedule, m)
    ensures units * branches as real == Quantity(s, schedule, g, m)
  {
  }

  /** `computeServiceMonthly`: a month loop carrying the current units. */
  method ComputeServiceMonthly(s: Service, schedule: seq<MonthEntry>, g: GrowthConfig, n: nat)
    returns (results: seq<ServiceMonth>)
    requires !Earns(s) || Covers(schedule, n)
    ensures results == ServiceMonthly(s, schedule, g, n)
  {
    if !Earns(s) {
      return seq(n, m requires 0 <= m < n => ServiceMonth(m, 0.0, 0.0, 0.0));
    }
    results := [];
    var currentUnits := s.baseUnits;
    var m := 0;
    while m < n
      invariant m <= n && |results| == m
      invariant m > 0 ==> currentUnits == Units(s.baseUnits, g, m - 1)
      invariant m == 0 ==> currentUnits == s.baseUnits
      invariant forall k :: 0 <= k < m ==> results[k] == EarningMonth(s, schedule, g, k)
    {
      var yearIdx := YearIndex(m);
      var branches := if m < |schedule| then schedule[m].branches else schedule[|schedule| - 1].branches;
      ghost var previous := currentUnits;
      if m > 0 {
        var prevYearIdx := YearIndex(m - 1);
        if yearIdx != prevYearIdx {
          currentUnits := Raised(currentUnits, g.yearlyStepUps, yearIdx);
        }
      }
      assert m > 0 ==> currentUnits == StepUp(previous, g.yearlyStepUps, 0, m);
      if m > 0 {
        currentUnits := Raised(currentUnits, g.monthlyRates, yearIdx);
      }
      assert currentUnits == Units(s.baseUnits, g, m);
      var quantity := currentUnits * branches as real;
      QuantityOf(s, schedule, g, m, currentUnits, branches);
      var month := PricedMonth(m, quantity, s.price);
      assert month == EarningMonth(s, schedule, g, m);
      results := results + [month];
      m := m + 1;
    }
  }

  /** Shape of a service's months: one per month, numbered from 0; a
      service that does not earn has quantity, price and revenue 0 every
      month; an earning one keeps its own price and rounds quantity and
      revenue to whole cents, separately, from the unrounded quantity. */
  lemma ServiceMonthlyShape(s: Service, schedule: seq<MonthEntry>, g: GrowthConfig, n: nat, m: nat)
    requires !Earns(s) || Covers(schedule, n)
    requires m < n
    ensures |ServiceMonthly(s, schedule, g, n)| == n
    ensures ServiceMonthly(s, schedule, g, n)[m].month == m
    ensures !Earns(s) ==> ServiceMonthly(s, schedule, g, n)[m] == ServiceMonth(m, 0.0, 0.0, 0.0)
    ensures Earns(s) ==> ServiceMonthly(s, schedule, g, n)[m] == PricedMonth(m, Quantity(s, schedule, g, m), s.price)
  {
    if Earns(s) {
      assert ServiceMonthly(s, schedule, g, n)[m] == EarningMonth(s, schedule, g, m);
    }
  }

  /** With non-negative rates, one month's growth never lowers non-negative
      units. */
  lemma GrownAtLeast(u: real, g: GrowthConfig, m: nat)
    requires NonNegativeRates(g.monthlyRates) && NonNegativeRates(g.yearlyStepUps)
    requires u >= 0.0
    ensures u <= Grown(u, g, m)
  {
    StepUpAtLeast(u, g.yearlyStepUps, 0, m);
    RaisedAtLeast(StepUp(u, g.yearlyStepUps, 0, m), g.monthlyRates, YearIndex(m));
  }

  /** With non-negative rates, units never fall and stay at least the base. */
  lemma {:induction false} UnitsMonotone(base: real, g: GrowthConfig, m: nat, m': nat)
    requires base >= 0.0 && NonNegativeRates(g.monthlyRates) && NonNegativeRates(g.yearlyStepUps)
    requires m <= m'
    ensures base <= Units(base, g, m) <= Units(base, g, m')
  {
    if m' > 0 {
      if m < m' {
        UnitsMonotone(base, g, m, m' - 1);
      } else {
        UnitsMonotone(base, g, m' - 1, m' - 1);
      }
      GrownAtLeast(Units(base, g, m' - 1), g, m');
    }
  }

  /** A service earning at its price with non-negative branch counts and
      rates never reports negative revenue. */
  lemma RevenueNonNegative(s: Service, schedule: seq<MonthEntry>, g: GrowthConfig, n: nat, m: nat)
    requires Earns(s) && Covers(schedule, n) && m < n
    requires forall k :: 0 <= k < |schedule| ==> schedule[k].branches >= 0
    requires NonNegativeRates(g.monthlyRates) && NonNegativeRates(g.yearlyStepUps)
    ensures ServiceMonthly(s, schedule, g, n)[m].quantity >= 0.0
    ensures ServiceMonthly(s, schedule, g, n)[m].revenue >= 0.0
  {
    UnitsMonotone(s.baseUnits, g, m, m);
    var u := Units(s.baseUnits, g, m);
    var b := GetBranches(schedule, m) as real;
    assert b >= 0.0;
    assert u * b >= 0.0;
    assert (u * b) * s.price >= 0.0;
    Round2Sign(u * b);
    Round2Sign((u * b) * s.price);
  }

  /** The default growth month by month: nothing in months 1-6, 25% in
      months 7-18, and from month 19 on only the year-start step-up. */
  lemma DefaultGrown(u: real, m: nat)
    requires m > 0
    ensures m < 7 ==> Grown(u, DefaultRevenueGrowth, m) == u
    ensures 7 <= m <= 18 ==> Grown(u, DefaultRevenueGrowth, m) == u * (1.0 + 0.25)
    ensures m >= 19 ==> Grown(u, DefaultRevenueGrowth, m) == StepUp(u, DefaultRevenueGrowth.yearlyStepUps, 0, m)
  {
    var d := DefaultRevenueGrowth;
    var stepped := StepUp(u, d.yearlyStepUps, 0, m);
    if m < 7 {
      assert YearIndex(m) == 0 && YearIndex(m - 1) == 0;
      RaisedByZero(u, d.monthlyRates, 0);
    } else if m <= 18 {
      assert YearIndex(m) == 1;
      RaisedByZero(u, d.yearlyStepUps, 1);
      assert stepped == u;
    } else {
      assert YearIndex(m) >= 2;
      RaisedByZero(stepped, d.monthlyRates, YearIndex(m));
    }
  }

  /** Under the default growth, units stay at the base through fiscal
      year 0 (months 0-6). */
  lemma {:induction false} DefaultUnitsYearZero(base: real, m: nat)
    requires m < 7
    ensures Units(base, DefaultRevenueGrowth, m) == base
  {
    if m > 0 {
      DefaultUnitsYearZero(base, m - 1);
      DefaultGrown(base, m);
    }
  }

  /** `init` compounded k times at `rate`. */
  function Compounded(init: real, rate: real, k: nat): real {
    if k == 0 then init else Compounded(init, rate, k - 1) * (1.0 + rate)
  }

  /** Under the default growth, units compound by 25% a month through fiscal
      year 1: in month m of months 7-18 they are the base compounded m - 6
      times. */
  lemma {:induction false} DefaultUnitsYearOne(base: real, m: nat)
    requires 7 <= m <= 18
    ensures Units(base, DefaultRevenueGrowth, m) == Compounded(base, 0.25, m - 6)
  {
    if m == 7 {
      DefaultUnitsYearZero(base, 6);
    } else {
      DefaultUnitsYearOne(base, m - 1);
    }
    DefaultGrown(Units(base, DefaultRevenueGrowth, m - 1), m);
  }

  /** Once the monthly rate is 0 for every month after m0, units follow the
      year-start step-ups: if they are the value of fiscal year YearIndex(m0)
      grown from v, they are the value of fiscal year YearIndex(m) grown
      from v in every later month m. */
  lemma {:induction false} UnitsFollowStepUps(base: real, g: GrowthConfig, v: real, m0: nat, m: nat)
    requires m0 <= m
    requires forall k :: m0 < k <= m ==> RateOr0(g.monthlyRates, YearIndex(k)) == 0.0
    requires Units(base, g, m0) == YearValue(v, g.yearlyStepUps, 0, YearIndex(m0))
    ensures Units(base, g, m) == YearValue(v, g.yearlyStepUps, 0, YearIndex(m))
  {
    if m > m0 {
      UnitsFollowStepUps(base, g, v, m0, m - 1);
      RaisedByZero(StepUp(Units(base, g, m - 1), g.yearlyStepUps, 0, m), g.monthlyRates, YearIndex(m));
      YearValueAdvance(v, g.yearlyStepUps, 0, m);
    }
  }

  /** Under the default growth, from month 18 on units change only by the
      step-up at each year start: they are the month-18 units raised by the
      years opened so far (20%, 10%, 10% and 15% at months 19, 31, 43 and
      55). */
  lemma DefaultUnitsLaterYears(base: real, m: nat)
    requires m >= 18
    ensures Units(base, DefaultRevenueGrowth, m) ==
      YearValue(Units(base, DefaultRevenueGrowth, 18), DefaultRevenueGrowth.yearlyStepUps, 0, YearIndex(m))
  {
    var d := DefaultRevenueGrowth;
    var u18 := Units(base, d, 18);
    assert YearIndex(18) == 1;
    RaisedByZero(u18, d.yearlyStepUps, 1);
    forall k | 18 < k <= m
      ensures RateOr0(d.monthlyRates, YearIndex(k)) == 0.0
    {
      assert YearIndex(k) >= 2;
    }
    UnitsFollowStepUps(base, d, u18, 18, m);
  }

  /** Sample service: 8 units at 5500 with one branch in month 0 sells 8
      units for 44000, whatever the growth configuration. */
  lemma SampleMonthZero(schedule: seq<MonthEntry>, g: GrowthConfig, n: nat)
    requires |schedule| > 0 && schedule[0].branches == 1 && n > 0
    ensures var e := ServiceMonthly(Service("Consultation", "Clinical", "OPD", 8.0, 5500.0, true), schedule, g, n)[0];
      e.quantity == 8.0 && e.price == 5500.0 && e.revenue == 44000.0
  {
    Round2OfCents(8.0);
    Round2OfCents(44000.0);
  }

  /** The stream names of the services, in input order. */
  function StreamKeys(services: seq<Service>): (keys: seq<string>)
    ensures |keys| == |services|
    ensures forall i :: 0 <= i < |services| ==> keys[i] == services[i].streamName
  {
    seq(|services|, i requires 0 <= i < |services| => services[i].streamName)
  }

  /** The entry each service contributes to its stream. */
  function Details(services: seq<Service>, schedule: seq<MonthEntry>, g: GrowthConfig, n: nat): (d: seq<ServiceDetail>)
    requires AllCovered(services, schedule, n)
    ensures |d| == |services|
  {
    seq(|services|, i requires 0 <= i < |services| => Detail(services[i], schedule, g, n))
  }

  /** The revenue column of a service's months. */
  function RevenueSeries(monthly: seq<ServiceMonth>): (r: seq<real>)
    ensures |r| == |monthly|
    ensures forall m :: 0 <= m < |monthly| ==> r[m] == monthly[m].revenue
  {
    seq(|monthly|, m requires 0 <= m < |monthly| => monthly[m].revenue)
  }

  /** Each service's monthly revenues. */
  function Revenues(services: seq<Service>, schedule: seq<MonthEntry>, g: GrowthConfig, n: nat): (a: seq<seq<real>>)
    requires AllCovered(services, schedule, n)
    ensures |a| == |services| && Rectangular(a, n)
  {
    seq(|services|, i requires 0 <= i < |services| => RevenueSeries(ServiceMonthly(services[i], schedule, g, n)))
  }

  /** The streams: services grouped by stream name in first-seen order. */
  function Streams(services: seq<Service>, schedule: seq<MonthEntry>, g: GrowthConfig, n: nat): seq<Group<ServiceDetail>>
    requires AllCovered(services, schedule, n)
  {
    Grouped(StreamKeys(services), Details(services, schedule, g, n), Revenues(services, schedule, g, n), n)
  }

  /** A service's entry in its stream. */
  function Detail(s: Service, schedule: seq<MonthEntry>, g: GrowthConfig, n: nat): ServiceDetail
    requires !Earns(s) || Covers(schedule, n)
  {
    ServiceDetail(s.name, s.subStreamName, ServiceMonthly(s, schedule, g, n))
  }

  /** Adding one more service to the grouping inserts it into the streams of
      the services before it. */
  lemma StreamsStep(services: seq<Service>, schedule: seq<MonthEntry>, g: GrowthConfig, n: nat, i: nat)
    requires AllCovered(services, schedule, n) && i < |services|
    ensures AllCovered(services[..i], schedule, n) && AllCovered(services[..i + 1], schedule, n)
    ensures Streams(services[..i + 1], schedule, g, n) ==
      Insert(Streams(services[..i], schedule, g, n), services[i].streamName,
             Detail(services[i], schedule, g, n), RevenueSeries(ServiceMonthly(services[i], schedule, g, n)))
  {
    var p, q := services[..i + 1], services[..i];
    assert p[..i] == q;
    assert StreamKeys(p)[..i] == StreamKeys(q);
    assert Details(p, schedule, g, n)[..i] == Details(q, schedule, g, n);
    assert Revenues(p, schedule, g, n)[..i] == Revenues(q, schedule, g, n);
  }

  /** The grouping loop of `computeAllRevenue`: each service's months are
      appended to the stream of its name, opened on first sight. */
  method GroupServices(services: seq<Service>, schedule: seq<MonthEntry>, g: GrowthConfig, n: nat)
    returns (streams: seq<Group<ServiceDetail>>)
    requires AllCovered(services, schedule, n)
    ensures streams == Streams(services, schedule, g, n)
  {
    streams := [];
    var i := 0;
    while i < |services|
      invariant i <= |services|
      invariant AllCovered(services[..i], schedule, n)
      invariant streams == Streams(services[..i], schedule, g, n)
    {
      var s := services[i];
      var monthly := ComputeServiceMonthly(s, schedule, g, n);
      var revenue := seq(n, m requires 0 <= m < n => monthly[m].revenue);
      assert revenue == RevenueSeries(monthly);
      StreamsStep(services, schedule, g, n, i);
      streams := AddMember(streams, s.streamName, ServiceDetail(s.name, s.subStreamName, monthly), revenue);
      i := i + 1;
    }
    assert services[..i] == services;
  }

  /** `computeAllRevenue`: group the services' months by stream, add up the
      monthly grand total over the streams, and aggregate the grand total and
      each stream into fiscal years. */
  method ComputeAllRevenue(services: seq<Service>, schedule: seq<MonthEntry>, g: GrowthConfig, n: nat)
    returns (r: RevenueResult)
    requires AllCovered(services, schedule, n)
    ensures r.streams == Streams(services, schedule, g, n)
    ensures |r.monthlyGrand| == n
    ensures forall m :: 0 <= m < n ==> r.monthlyGrand[m] == ColumnSum(Totals(r.streams), m)
    ensures forall m :: 0 <= m < n ==> r.monthlyGrand[m] == ColumnSum(Revenues(services, schedule, g, n), m)
    ensures r.yearlyGrand == Aggregate(r.monthlyGrand)
    ensures r.yearlyByStream == YearlyByName(r.streams)
  {
    var streams := GroupServices(services, schedule, g, n);
    var grand := GrandTotal(streams, n);
    var keys, details, amounts := StreamKeys(services), Details(services, schedule, g, n), Revenues(services, schedule, g, n);
    forall m | 0 <= m < n
      ensures grand[m] == ColumnSum(amounts, m)
    {
      GroupedColumn(keys, details, amounts, n, m);
    }
    var yearly := AggregateYearly(grand);
    var byStream := AggregateGroups(streams);
    r := RevenueResult(streams, grand, yearly, byStream);
  }

  /** The streams, as `computeAllRevenue` leaves them: no two share a name; a
      name has a stream exactly when some service carries it; a stream's
      monthly total is the sum of the revenues of exactly the services
      carrying its name, and its services are those, in input order. */
  lemma StreamContents(services: seq<Service>, schedule: seq<MonthEntry>, g: GrowthConfig, n: nat, name: string, j: nat, m: nat)
    requires AllCovered(services, schedule, n)
    requires j < |Streams(services, schedule, g, n)| && m < n
    ensures DistinctNames(Streams(services, schedule, g, n))
    ensures Find(Streams(services, schedule, g, n), name).Some? <==> name in StreamKeys(services)
    ensures var st := Streams(services, schedule, g, n)[j];
      st.monthlyTotal[m] == KeySum(StreamKeys(services), Revenues(services, schedule, g, n), st.name, m) &&
      st.members == KeyMembers(StreamKeys(services), Details(services, schedule, g, n), st.name)
  {
    var keys, details, amounts := StreamKeys(services), Details(services, schedule, g, n), Revenues(services, schedule, g, n);
    GroupedDistinct(keys, details, amounts, n);
    GroupedFind(keys, details, amounts, n, name);
    GroupedTotals(keys, details, amounts, n, j, m);
  }
}
