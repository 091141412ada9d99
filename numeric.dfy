/**
 * Numbers as the bridge sees them: readings are exact reals, Python's `float()` on a
 * payload string is an arbitrary partial parser, and Python's `round` is
 * round-half-to-even on exact reals.
 */
module Numeric {
  import opened Wrappers

  /** Python's `float(s)`: `None` where it raises `ValueError`. */
  type RealParser = string -> Option<real>

  function Min(a: real, b: real): (m: real)
    ensures m <= a && m <= b && (m == a || m == b)
  {
    if a <= b then a else b
  }

  /** Python's `round(x)`: the nearest integer, ties going to the even neighbour. */
  function RoundHalfEven(x: real): (r: int)
    ensures -0.5 <= r as real - x <= 0.5
    ensures (r as real - x == 0.5 || x - r as real == 0.5) ==> r % 2 == 0
  {
    var f := x.Floor;
    var d := x - f as real;
    if d < 0.5 then f
    else if d > 0.5 then f + 1
    else if f % 2 == 0 then f
    else f + 1
  }

  /** An exact real with at most one decimal digit. */
  predicate HasOneDecimal(x: real) {
    (x * 10.0).Floor as real == x * 10.0
  }

  /** Python's `round(x, 1)`: the nearest multiple of 0.1, ties going to an even tenth. */
  function Round1(x: real): (r: real)
    ensures -0.05 <= r - x <= 0.05
    ensures HasOneDecimal(r)
  {
    RoundHalfEven(x * 10.0) as real / 10.0
  }

  /** Values that already carry one decimal digit are left alone. */
  lemma {:induction false} Round1Exact(x: real)
    requires HasOneDecimal(x)
    ensures Round1(x) == x
  {
    var n := (x * 10.0).Floor;
    assert x * 10.0 == n as real;
    assert RoundHalfEven(x * 10.0) == n;
  }
}
