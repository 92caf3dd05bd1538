/** Branch expansion schedule and the fiscal-year calendar
    (Docty-Healthcare/engine/branchEngine.js).

    Fiscal year 0 is the partial first year, months 0-6; fiscal year k >= 1
    is the twelve months starting at month 7 + 12(k-1). */
module Branch {

  /** Subscriber counts keyed by subscription stream. */
  type Subs = map<string, int>

  /** One entry of an input schedule. */
  datatype ScheduleEntry = ScheduleEntry(branches: int, growth: real, newBranches: int, subs: Subs)

  /** One month of the full schedule: an input entry with its month index. */
  datatype MonthEntry = MonthEntry(month: nat, branches: int, growth: real, newBranches: int, subs: Subs)

  function Subs3(marketplace: int, retail: int, corporate: int): Subs {
    map["marketplace" := marketplace, "retail" := retail, "corporate" := corporate]
  }

  /** The built-in 19-month schedule: one branch growing to ten within fiscal year 0. */
  const DefaultBranchSchedule: seq<ScheduleEntry> := [
    ScheduleEntry(1, 0.0, 1, Subs3(0, 0, 0)),
    ScheduleEntry(3, 0.15, 2, Subs3(0, 60, 0)),
    ScheduleEntry(3, 0.15, 0, Subs3(0, 75, 0)),
    ScheduleEntry(4, 0.10, 1, Subs3(0, 100, 0)),
    ScheduleEntry(5, 0.25, 1, Subs3(50, 130, 1000)),
    ScheduleEntry(8, 0.30, 3, Subs3(80, 180, 1000)),
    ScheduleEntry(10, 0.20, 2, Subs3(100, 230, 1000)),
    ScheduleEntry(10, 0.10, 0, Subs3(150, 300, 1200)),
    ScheduleEntry(10, 0.10, 0, Subs3(200, 340, 1200)),
    ScheduleEntry(10, 0.18, 0, Subs3(250, 385, 1200)),
    ScheduleEntry(10, 0.17, 0, Subs3(300, 420, 1500)),
    ScheduleEntry(10, 0.0, 0, Subs3(350, 450, 1500)),
    ScheduleEntry(10, 0.0, 0, Subs3(400, 500, 1500)),
    ScheduleEntry(10, 0.0, 0, Subs3(450, 500, 1800)),
    ScheduleEntry(10, 0.09, 0, Subs3(500, 500, 1800)),
    ScheduleEntry(10, 0.0, 0, Subs3(500, 500, 1800)),
    ScheduleEntry(10, 0.0, 0, Subs3(500, 500, 2100)),
    ScheduleEntry(10, 0.0, 0, Subs3(500, 500, 2100)),
    ScheduleEntry(10, 0.0, 0, Subs3(500, 500, 2100))
  ]

  /** The default plan never closes a branch, opens one branch first, and
      records each month's openings as the change in the branch count. */
  lemma DefaultScheduleShape()
    ensures |DefaultBranchSchedule| == 19
    ensures DefaultBranchSchedule[0].branches == 1
    ensures DefaultBranchSchedule[0].newBranches == DefaultBranchSchedule[0].branches
    ensures DefaultBranchSchedule[18].branches == 10
    ensures forall m :: 0 < m < 19 ==>
      DefaultBranchSchedule[m - 1].branches <= DefaultBranchSchedule[m].branches &&
      DefaultBranchSchedule[m].newBranches == DefaultBranchSchedule[m].branches - DefaultBranchSchedule[m - 1].branches
  {
    forall m | 0 < m < 19
      ensures DefaultBranchSchedule[m - 1].branches <= DefaultBranchSchedule[m].branches
      ensures DefaultBranchSchedule[m].newBranches ==
        DefaultBranchSchedule[m].branches - DefaultBranchSchedule[m - 1].branches
    {
      if m < 7 {
        DefaultOpeningMonths(m);
      } else {
        DefaultSteadyMonths(m);
      }
    }
  }

  /** Months 1-6 of the default plan open branches as the count rises. */
  lemma DefaultOpeningMonths(m: nat)
    requires 0 < m < 7
    ensures DefaultBranchSchedule[m - 1].branches <= DefaultBranchSchedule[m].branches
    ensures DefaultBranchSchedule[m].newBranches ==
      DefaultBranchSchedule[m].branches - DefaultBranchSchedule[m - 1].branches
  {
  }

  /** From month 6 on the default plan stays at ten branches with no openings. */
  lemma DefaultSteadyMonths(m: nat)
    requires 7 <= m < 19
    ensures DefaultBranchSchedule[m - 1].branches == 10 == DefaultBranchSchedule[m].branches
    ensures DefaultBranchSchedule[m].newBranches == 0
  {
  }

  /** A schedule can be extended to `totalMonths` months: either it is long
      enough, or it has a last entry to repeat. */
  predicate Extendable(schedule: seq<ScheduleEntry>, totalMonths: nat) {
    totalMonths <= |schedule| || |schedule| > 0
  }

  /** Month `m` of the full schedule: the input entry while it lasts, then the
      steady state of the last entry with no growth and no openings. */
  function ScheduledMonth(schedule: seq<ScheduleEntry>, m: nat): MonthEntry
    requires m < |schedule| || |schedule| > 0
  {
    if m < |schedule| then
      var e := schedule[m];
      MonthEntry(m, e.branches, e.growth, e.newBranches, e.subs)
    else
      var last := schedule[|schedule| - 1];
      MonthEntry(m, last.branches, 0.0, 0, last.subs)
  }

  /** The full month-by-month schedule over `totalMonths` months. */
  function FullSchedule(schedule: seq<ScheduleEntry>, totalMonths: nat): seq<MonthEntry>
    requires Extendable(schedule, totalMonths)
  {
    seq(totalMonths, m requires 0 <= m < totalMonths => ScheduledMonth(schedule, m))
  }

  /** `buildBranchSchedule`: push one entry per month. */
  method BuildBranchSchedule(schedule: seq<ScheduleEntry>, totalMonths: nat) returns (full: seq<MonthEntry>)
    requires Extendable(schedule, totalMonths)
    ensures full == FullSchedule(schedule, totalMonths)
  {
    full := [];
    var m := 0;
    while m < totalMonths
      invariant m <= totalMonths
      invariant |full| == m
      invariant forall k :: 0 <= k < m ==> full[k] == ScheduledMonth(schedule, k)
    {
      if m < |schedule| {
        var e := schedule[m];
        full := full + [MonthEntry(m, e.branches, e.growth, e.newBranches, e.subs)];
      } else {
        var last := schedule[|schedule| - 1];
        full := full + [MonthEntry(m, last.branches, 0.0, 0, last.subs)];
      }
      m := m + 1;
    }
  }

  /** The full schedule has one entry per month, numbered from 0; inside the
      input it copies the input entry, past it it holds the last entry's
      branches and subscriptions with zero growth and zero openings. */
  lemma FullScheduleEntries(schedule: seq<ScheduleEntry>, totalMonths: nat, m: nat)
    requires Extendable(schedule, totalMonths)
    requires m < totalMonths
    ensures |FullSchedule(schedule, totalMonths)| == totalMonths
    ensures FullSchedule(schedule, totalMonths)[m].month == m
    ensures m < |schedule| ==>
      var e := FullSchedule(schedule, totalMonths)[m];
      e.branches == schedule[m].branches && e.growth == schedule[m].growth &&
      e.newBranches == schedule[m].newBranches && e.subs == schedule[m].subs
    ensures m >= |schedule| ==>
      var e := FullSchedule(schedule, totalMonths)[m];
      e.branches == schedule[|schedule| - 1].branches && e.subs == schedule[|schedule| - 1].subs &&
      e.growth == 0.0 && e.newBranches == 0
  {
  }

  /** The schedule can answer a branch count for each of the n months: the
      engines read its last entry past its end, so it must not be empty. */
  predicate Covers(schedule: seq<MonthEntry>, n: nat) {
    n == 0 || |schedule| > 0
  }

  /** `getBranches`: the month's branch count, the last entry's past the end. */
  function GetBranches(schedule: seq<MonthEntry>, m: nat): int
    requires |schedule| > 0
  {
    if m < |schedule| then schedule[m].branches else schedule[|schedule| - 1].branches
  }

  /** `getGrowthFactor`: 1 + growth inside the schedule, exactly 1 past its end
      (not the last entry's factor). */
  function GetGrowthFactor(schedule: seq<MonthEntry>, m: nat): real
  {
    if m < |schedule| then 1.0 + schedule[m].growth else 1.0
  }

  /** `getSubscriptions`: the month's subscriptions, the last entry's past the end. */
  function GetSubscriptions(schedule: seq<MonthEntry>, m: nat): Subs
    requires |schedule| > 0
  {
    if m < |schedule| then schedule[m].subs else schedule[|schedule| - 1].subs
  }

  /** On a built schedule the accessors read the input entry at
      min(m, last index) for branches and subscriptions, for every month m
      however large, while the growth factor is the input entry's below the
      input's length and 1 from there on. */
  lemma {:induction false} AccessorsOnFullSchedule(schedule: seq<ScheduleEntry>, totalMonths: nat, m: nat)
    requires |schedule| > 0 && totalMonths > 0
    ensures var full := FullSchedule(schedule, totalMonths);
      var i := if m < |schedule| && m < totalMonths then m
               else if totalMonths - 1 < |schedule| then totalMonths - 1
               else |schedule| - 1;
      GetBranches(full, m) == schedule[i].branches && GetSubscriptions(full, m) == schedule[i].subs &&
      GetGrowthFactor(full, m) == (if m < totalMonths && m < |schedule| then 1.0 + schedule[m].growth else 1.0)
  {
    var full := FullSchedule(schedule, totalMonths);
    var k := if m < totalMonths then m else totalMonths - 1;
    assert GetBranches(full, m) == full[k].branches;
    assert GetSubscriptions(full, m) == full[k].subs;
  }

  /** First month of fiscal year `y`. */
  function YearStart(y: nat): nat {
    if y == 0 then 0 else 7 + 12 * (y - 1)
  }

  /** Number of months in fiscal year `y`. */
  function YearLength(y: nat): nat {
    if y == 0 then 7 else 12
  }

  /** `getYearIndex`: the fiscal year holding month m. */
  function YearIndex(m: nat): (y: nat)
    ensures YearStart(y) <= m < YearStart(y) + YearLength(y)
  {
    if m < 7 then 0 else (m - 7) / 12 + 1
  }

  /** A month's fiscal year is the only year whose months contain it, so the
      year index of a year's first month is that year. */
  lemma YearIndexUnique(m: nat, y: nat)
    requires YearStart(y) <= m < YearStart(y) + YearLength(y)
    ensures YearIndex(m) == y
  {
  }

  /** The year index never decreases. */
  lemma YearIndexMonotone(m: nat, m': nat)
    requires m <= m'
    ensures YearIndex(m) <= YearIndex(m')
  {
  }

  /** Between consecutive months the year index rises by at most one, and it
      rises exactly at the months 7 + 12k. */
  lemma YearIndexStep(m: nat)
    ensures YearIndex(m + 1) == YearIndex(m) || YearIndex(m + 1) == YearIndex(m) + 1
    ensures YearIndex(m + 1) != YearIndex(m) <==> m + 1 >= 7 && (m + 1 - 7) % 12 == 0
  {
  }

  /** Month m > 0 opens a new fiscal year. */
  predicate IsYearStart(m: nat) {
    m > 0 && YearIndex(m) != YearIndex(m - 1)
  }
}
