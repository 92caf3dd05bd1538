/** Shared vocabulary: optional values and the minimum/maximum helpers the
    engines take from JavaScript's `Math.min` and `Math.max`. */
module Common {

  /** An absent or present value (`null`/`undefined` versus a value). */
  datatype Option<T> = None | Some(value: T)

  /** `Math.min(a, b)`. */
  function Min(a: real, b: real): (r: real)
    ensures r <= a && r <= b
    ensures r == a || r == b
  {
    if a <= b then a else b
  }

  /** `Math.min` on indices, as `Array.prototype.slice` clamps its bounds.
      It repeats `Min` because `Min` is on money (`real`), and a length or an
      index must stay a `nat`. */
  function MinNat(a: nat, b: nat): (r: nat)
    ensures r <= a && r <= b
    ensures r == a || r == b
  {
    if a <= b then a else b
  }

  /** `Math.max(...s)` of a non-empty list: an element that no element exceeds. */
  function Max(s: seq<real>): (r: real)
    requires |s| > 0
    ensures r in s
    ensures forall i :: 0 <= i < |s| ==> s[i] <= r
  {
    if |s| == 1 then s[0]
    else
      var rest := Max(s[1..]);
      assert forall i :: 1 <= i < |s| ==> s[i] == s[1..][i - 1];
      if s[0] >= rest then s[0] else rest
  }
}
