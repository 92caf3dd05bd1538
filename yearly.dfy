/** Fiscal-year aggregation (`aggregateYearly`, identical in the Docty,
    instalette, sakiru and moorgen engines): six rounded sums, over months
    0-6 and then over the 12-month blocks starting at months 7, 19, 31, 43
    and 55. Whatever follows month 66 is never counted. */
module Yearly {
  import opened Common
  import opened Money
  import opened Branch
  import opened Ledger

  /** Number of fiscal years reported. */
  const ReportedYears: nat := 6

  /** First month past the last reported fiscal year. */
  const ReportedMonths: nat := 67

  /** `a.slice(start, end)` with `start <= end`: both bounds are clamped to
      the length of `a`. */
  function Slice(a: seq<real>, start: nat, end: nat): (s: seq<real>)
    requires start <= end
    ensures |s| == MinNat(end, |a|) - MinNat(start, |a|)
    ensures forall i :: 0 <= i < |s| ==> s[i] == a[start + i]
  {
    a[MinNat(start, |a|)..MinNat(end, |a|)]
  }

  /** The months of fiscal year `y` that `a` has. */
  function Block(a: seq<real>, y: nat): seq<real> {
    Slice(a, YearStart(y), YearStart(y) + YearLength(y))
  }

  /** The unrounded total of each reported fiscal year. */
  function BlockSums(a: seq<real>): (t: seq<real>)
    ensures |t| == ReportedYears
  {
    seq(ReportedYears, y requires 0 <= y < ReportedYears => Sum(Block(a, y)))
  }

  /** The rounded yearly totals. */
  function Aggregate(a: seq<real>): (years: seq<real>)
    ensures |years| == ReportedYears
    ensures forall y :: 0 <= y < ReportedYears ==> IsCents(years[y])
  {
    var t := BlockSums(a);
    seq(ReportedYears, y requires 0 <= y < ReportedYears => Round2(t[y]))
  }

  /** `aggregateYearly`: push the first-year sum, then five 12-month sums,
      then round each. */
  method AggregateYearly(monthly: seq<real>) returns (years: seq<real>)
    ensures years == Aggregate(monthly)
  {
    var sums := [Sum(Slice(monthly, 0, 7))];
    var y := 1;
    while y <= 5
      invariant 1 <= y <= 6
      invariant |sums| == y
      invariant forall k :: 0 <= k < y ==> sums[k] == Sum(Block(monthly, k))
    {
      var start := 7 + (y - 1) * 12;
      var end := start + 12;
      sums := sums + [Sum(Slice(monthly, start, end))];
      y := y + 1;
    }
    years := seq(|sums|, k requires 0 <= k < |sums| => Round2(sums[k]));
  }

  /** A reported fiscal year is exactly the months whose year index is that
      year: a full series has YearLength(y) of them in block y, and every
      month of block y has year index y. */
  lemma BlockIsFiscalYear(a: seq<real>, y: nat)
    requires y < ReportedYears
    ensures |a| >= YearStart(y) + YearLength(y) ==> |Block(a, y)| == YearLength(y)
    ensures forall i :: 0 <= i < |Block(a, y)| ==> Block(a, y)[i] == a[YearStart(y) + i]
    ensures forall m :: YearStart(y) <= m < YearStart(y) + |Block(a, y)| ==> YearIndex(m) == y
  {
    forall m | YearStart(y) <= m < YearStart(y) + |Block(a, y)|
      ensures YearIndex(m) == y
    {
      YearIndexUnique(m, y);
    }
  }

  /** Months from 67 on never reach the yearly totals. */
  lemma AggregateIgnoresTail(a: seq<real>, tail: seq<real>)
    requires |a| >= ReportedMonths
    ensures Aggregate(a + tail) == Aggregate(a)
  {
    forall y | 0 <= y < ReportedYears
      ensures Block(a + tail, y) == Block(a, y)
    {
    }
    assert BlockSums(a + tail) == BlockSums(a);
  }

  /** The first k yearly blocks partition the months before YearStart(k):
      their sums add up to the sum of those months (clamped to the series). */
  lemma {:induction false} BlockSumsPartition(a: seq<real>, k: nat)
    requires k <= ReportedYears
    ensures Sum(BlockSums(a)[..k]) == Sum(a[..MinNat(YearStart(k), |a|)])
  {
    if k > 0 {
      BlockSumsPartition(a, k - 1);
      var t := BlockSums(a);
      var lo, hi := MinNat(YearStart(k - 1), |a|), MinNat(YearStart(k), |a|);
      assert t[..k][..k - 1] == t[..k - 1];
      assert Sum(t[..k]) == Sum(t[..k - 1]) + t[k - 1];
      assert YearStart(k - 1) + YearLength(k - 1) == YearStart(k);
      assert t[k - 1] == Sum(a[lo..hi]);
      SumSplit(a, lo, hi);
    }
  }

  /** Before rounding, the six yearly totals add up to the total of months
      0-66 (of all months, when there are at most 67). */
  lemma AggregatePartition(a: seq<real>)
    ensures Sum(BlockSums(a)) == Sum(a[..MinNat(ReportedMonths, |a|)])
  {
    BlockSumsPartition(a, ReportedYears);
    assert BlockSums(a)[..ReportedYears] == BlockSums(a);
  }

  /** Each group's monthly total aggregated into fiscal years, under its
      name. */
  function YearlyByName<T>(groups: seq<Group<T>>): (byName: seq<NamedSeries>)
    ensures |byName| == |groups|
    ensures forall j :: 0 <= j < |groups| ==>
      byName[j].name == groups[j].name && byName[j].values == Aggregate(groups[j].monthlyTotal)
  {
    seq(|groups|, j requires 0 <= j < |groups| => NamedSeries(groups[j].name, Aggregate(groups[j].monthlyTotal)))
  }

  /** The per-group yearly loop of `computeAllRevenue` and `computeAllOpex`. */
  method AggregateGroups<T>(groups: seq<Group<T>>) returns (byName: seq<NamedSeries>)
    ensures byName == YearlyByName(groups)
  {
    byName := [];
    var j := 0;
    while j < |groups|
      invariant j <= |groups| && |byName| == j
      invariant forall k :: 0 <= k < j ==> byName[k] == NamedSeries(groups[k].name, Aggregate(groups[k].monthlyTotal))
    {
      var years := AggregateYearly(groups[j].monthlyTotal);
      byName := byName + [NamedSeries(groups[j].name, years)];
      j := j + 1;
    }
  }
}
