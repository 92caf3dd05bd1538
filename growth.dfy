/** Year-boundary step-ups. A value that is multiplied by `1 + table[y]`
    (a missing key meaning 0) whenever month m opens fiscal year y, and is
    otherwise left alone: the base cost of a Docty expense, the units of an
    instalette or sakiru service and the cost of a moorgen item.

    The Docty engine looks the rate up under its own 0-based year index; the
    variant engines number years from 1, which is the same lookup with an
    offset of 1. */
module Growth {
  import opened Money
  import opened Branch

  /** `getYearIndex` of the variant engines: fiscal years numbered from 1. */
  function YearNumber(m: nat): (y: nat)
    ensures y == YearIndex(m) + 1
  {
    if m < 7 then 1 else (m - 7) / 12 + 2
  }

  /** Every rate of the table is non-negative. */
  predicate NonNegativeRates(table: map<nat, real>) {
    forall k :: k in table ==> table[k] >= 0.0
  }

  /** `x * (1 + (table[k] ?? 0))`. */
  function Raised(x: real, table: map<nat, real>, k: nat): real {
    x * (1.0 + RateOr0(table, k))
  }

  /** The value after month m's step-up: raised by the rate of the new year
      when m opens a fiscal year, unchanged otherwise. */
  function StepUp(x: real, table: map<nat, real>, offset: nat, m: nat): real {
    if IsYearStart(m) then Raised(x, table, YearIndex(m) + offset) else x
  }

  /** The stepped value in month m, starting from `init` in month 0. */
  function Stepped(init: real, table: map<nat, real>, offset: nat, m: nat): real {
    if m == 0 then init else StepUp(Stepped(init, table, offset, m - 1), table, offset, m)
  }

  /** The stepped value during fiscal year y: `init` raised at the start of
      each of the years 1 .. y. */
  function YearValue(init: real, table: map<nat, real>, offset: nat, y: nat): real {
    if y == 0 then init else Raised(YearValue(init, table, offset, y - 1), table, y + offset)
  }

  /** Month m > 0 takes the value of the previous month's fiscal year through
      its own step-up to the value of its fiscal year. */
  lemma YearValueAdvance(init: real, table: map<nat, real>, offset: nat, m: nat)
    requires m > 0
    ensures YearValue(init, table, offset, YearIndex(m)) ==
      StepUp(YearValue(init, table, offset, YearIndex(m - 1)), table, offset, m)
  {
    YearIndexStep(m - 1);
  }

  /** Closed form: the stepped value depends on the month only through its
      fiscal year; it is the value of that year. */
  lemma {:induction false} SteppedClosedForm(init: real, table: map<nat, real>, offset: nat, m: nat)
    ensures Stepped(init, table, offset, m) == YearValue(init, table, offset, YearIndex(m))
  {
    if m > 0 {
      SteppedClosedForm(init, table, offset, m - 1);
      YearValueAdvance(init, table, offset, m);
    }
  }

  /** Two months of one fiscal year carry the same stepped value. */
  lemma SteppedWithinYear(init: real, table: map<nat, real>, offset: nat, m: nat, m': nat)
    requires YearIndex(m) == YearIndex(m')
    ensures Stepped(init, table, offset, m) == Stepped(init, table, offset, m')
  {
    SteppedClosedForm(init, table, offset, m);
    SteppedClosedForm(init, table, offset, m');
  }

  /** Raising by a non-negative rate never lowers a non-negative value. */
  lemma RaisedAtLeast(x: real, table: map<nat, real>, k: nat)
    requires x >= 0.0 && NonNegativeRates(table)
    ensures x <= Raised(x, table, k)
  {
    var r := RateOr0(table, k);
    assert x * (1.0 + r) == x + x * r;
    assert x * r >= 0.0;
  }

  /** Raising by a zero rate leaves the value unchanged. */
  lemma RaisedByZero(x: real, table: map<nat, real>, k: nat)
    requires RateOr0(table, k) == 0.0
    ensures Raised(x, table, k) == x
  {
    assert x * (1.0 + 0.0) == x;
  }

  /** A step-up with non-negative rates never lowers a non-negative value. */
  lemma StepUpAtLeast(x: real, table: map<nat, real>, offset: nat, m: nat)
    requires x >= 0.0 && NonNegativeRates(table)
    ensures x <= StepUp(x, table, offset, m)
  {
    RaisedAtLeast(x, table, YearIndex(m) + offset);
  }

  /** With a non-negative start and non-negative rates the yearly value is
      non-negative and never decreases from one year to a later one. */
  lemma {:induction false} YearValueMonotone(init: real, table: map<nat, real>, offset: nat, y: nat, y': nat)
    requires init >= 0.0 && NonNegativeRates(table)
    requires y <= y'
    ensures 0.0 <= YearValue(init, table, offset, y) <= YearValue(init, table, offset, y')
  {
    if y' > y {
      YearValueMonotone(init, table, offset, y, y' - 1);
      RaisedAtLeast(YearValue(init, table, offset, y' - 1), table, y' + offset);
    } else if y > 0 {
      YearValueMonotone(init, table, offset, y - 1, y - 1);
      RaisedAtLeast(YearValue(init, table, offset, y - 1), table, y + offset);
    }
  }

  /** With a non-negative start and non-negative rates the stepped value
      never decreases over the months. */
  lemma SteppedMonotone(init: real, table: map<nat, real>, offset: nat, m: nat, m': nat)
    requires init >= 0.0 && NonNegativeRates(table)
    requires m <= m'
    ensures 0.0 <= Stepped(init, table, offset, m) <= Stepped(init, table, offset, m')
  {
    SteppedClosedForm(init, table, offset, m);
    SteppedClosedForm(init, table, offset, m');
    YearIndexMonotone(m, m');
    YearValueMonotone(init, table, offset, YearIndex(m), YearIndex(m'));
  }

  /** Once every rate of the table has been used the value stops changing:
      from fiscal year y0 on, when no key lies beyond y0 + offset, the value
      stays that of year y0. */
  lemma {:induction false} YearValueSettles(init: real, table: map<nat, real>, offset: nat, y0: nat, y: nat)
    requires forall k :: k in table ==> k <= y0 + offset
    requires y0 <= y
    ensures YearValue(init, table, offset, y) == YearValue(init, table, offset, y0)
  {
    if y > y0 {
      YearValueSettles(init, table, offset, y0, y - 1);
      assert y + offset !in table;
      RaisedByZero(YearValue(init, table, offset, y - 1), table, y + offset);
    }
  }
}
