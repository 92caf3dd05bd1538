/** Money arithmetic shared by every engine.

    Amounts are mathematical reals. `Round2` stands in for the JavaScript
    idiom `Math.round(x * 100) / 100` (and for `round(x, 2)` of the P&L
    engine): the nearest whole number of cents, halves rounded toward
    +infinity. IEEE double rounding error is not modelled. */
module Money {

  /** `x` is a whole number of cents. */
  predicate IsCents(x: real) {
    (x * 100.0).Floor as real == x * 100.0
  }

  /** `Math.round(x * 100) / 100`. */
  function Round2(x: real): (r: real)
    ensures IsCents(r)
    ensures r - 0.005 <= x < r + 0.005
  {
    ((x * 100.0 + 0.5).Floor as real) / 100.0
  }

  /** Rounding to cents preserves order. */
  lemma Round2Monotone(x: real, y: real)
    requires x <= y
    ensures Round2(x) <= Round2(y)
  {
    var a, b := x * 100.0 + 0.5, y * 100.0 + 0.5;
    var ka, kb := a.Floor, b.Floor;
    assert ka as real <= a <= b < kb as real + 1.0;
    assert ka <= kb;
    assert (ka as real) / 100.0 <= (kb as real) / 100.0;
  }

  /** A value that already is a whole number of cents is left unchanged. */
  lemma Round2OfCents(x: real)
    requires IsCents(x)
    ensures Round2(x) == x
  {
    var k := (x * 100.0).Floor;
    assert x * 100.0 + 0.5 == k as real + 0.5;
    assert (x * 100.0 + 0.5).Floor == k;
  }

  /** Rounding never changes the sign of a value. */
  lemma Round2Sign(x: real)
    ensures x >= 0.0 ==> Round2(x) >= 0.0
    ensures x <= 0.0 ==> Round2(x) <= 0.0
    ensures Round2(0.0) == 0.0
  {
    if x >= 0.0 {
      Round2Monotone(0.0, x);
    }
    if x <= 0.0 {
      Round2Monotone(x, 0.0);
    }
    Round2OfCents(0.0);
  }

  /** Whole numbers of cents are closed under addition and subtraction. */
  lemma CentsAddSub(a: real, b: real)
    requires IsCents(a) && IsCents(b)
    ensures IsCents(a + b) && IsCents(a - b)
  {
    var ka, kb := (a * 100.0).Floor, (b * 100.0).Floor;
    assert a * 100.0 == ka as real && b * 100.0 == kb as real;
    var s, d := (a + b) * 100.0, (a - b) * 100.0;
    assert s == (ka + kb) as real;
    assert d == (ka - kb) as real;
    assert s.Floor == ka + kb;
    assert d.Floor == ka - kb;
  }

  /** Left-to-right sum of a list, as `reduce((a, b) => a + b, 0)`. */
  function Sum(s: seq<real>): real
  {
    if |s| == 0 then 0.0 else Sum(s[..|s| - 1]) + s[|s| - 1]
  }

  /** Summing a concatenation sums its parts. */
  lemma {:induction false} SumAppend(a: seq<real>, b: seq<real>)
    ensures Sum(a + b) == Sum(a) + Sum(b)
  {
    if |b| == 0 {
      assert a + b == a;
    } else {
      var last := |b| - 1;
      assert (a + b)[..|a + b| - 1] == a + b[..last];
      SumAppend(a, b[..last]);
    }
  }

  /** Summing a prefix in two pieces. */
  lemma SumSplit(a: seq<real>, lo: nat, hi: nat)
    requires lo <= hi <= |a|
    ensures Sum(a[..hi]) == Sum(a[..lo]) + Sum(a[lo..hi])
  {
    assert a[..hi] == a[..lo] + a[lo..hi];
    SumAppend(a[..lo], a[lo..hi]);
  }

  /** A sum of whole numbers of cents is a whole number of cents. */
  lemma {:induction false} SumOfCents(s: seq<real>)
    requires forall i :: 0 <= i < |s| ==> IsCents(s[i])
    ensures IsCents(Sum(s))
  {
    if |s| > 0 {
      SumOfCents(s[..|s| - 1]);
      CentsAddSub(Sum(s[..|s| - 1]), s[|s| - 1]);
    }
  }

  /** A sum of non-negative values is non-negative. */
  lemma {:induction false} SumNonNegative(s: seq<real>)
    requires forall i :: 0 <= i < |s| ==> s[i] >= 0.0
    ensures Sum(s) >= 0.0
  {
    if |s| > 0 {
      SumNonNegative(s[..|s| - 1]);
    }
  }

  /** `table[k] ?? 0`: a rate looked up by year index, a missing key meaning 0. */
  function RateOr0(table: map<nat, real>, k: nat): (r: real)
    ensures k !in table ==> r == 0.0
    ensures k in table ==> r == table[k]
  {
    if k in table then table[k] else 0.0
  }
}
