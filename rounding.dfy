/** Two-decimal rounding as Python's `round(x, 2)` performs it on an exact value:
    the nearest multiple of 0.01, ties going to the even hundredth. */
module Rounding {

  /** The integer nearest to `x`; a tie goes to the even neighbour. */
  function NearestEven(x: real): (n: int)
    ensures x - 0.5 <= n as real <= x + 0.5
    ensures n as real - x == 0.5 || x - n as real == 0.5 ==> n % 2 == 0
  {
    var f := x.Floor;
    var frac := x - f as real;
    if frac < 0.5 then f
    else if frac > 0.5 then f + 1
    else if f % 2 == 0 then f
    else f + 1
  }

  function Round2(x: real): (r: real)
    ensures x - 0.005 <= r <= x + 0.005
    ensures (r * 100.0).Floor as real == r * 100.0
  {
    NearestEven(x * 100.0) as real / 100.0
  }

  /** A value that already has two decimals is left alone. */
  lemma Round2Exact(k: int)
    ensures Round2(k as real / 100.0) == k as real / 100.0
  {
    assert (k as real / 100.0) * 100.0 == k as real;
  }
}
