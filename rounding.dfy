/**
 * The C library's `rint` under the default rounding mode: round to the nearest
 * integer, and on an exact tie to the even neighbour. It is computed here on
 * exact reals; the float and double representation of the operand is not modelled.
 */
module Rounding {

  /** Nearest integer to `x`, ties to even. */
  function Rint(x: real): (r: int)
    ensures x - 0.5 <= r as real <= x + 0.5
    ensures (r as real - x == 0.5 || x - r as real == 0.5) ==> r % 2 == 0
  {
    var f := x.Floor;
    var d := x - f as real;
    if d < 0.5 then f
    else if d > 0.5 then f + 1
    else if f % 2 == 0 then f
    else f + 1
  }

  /** The two properties of `Rint` determine its result: any integer within one half
      of `x` that is even whenever it is exactly one half away is `Rint(x)`. */
  lemma RintUnique(x: real, n: int)
    requires x - 0.5 <= n as real <= x + 0.5
    requires (n as real - x == 0.5 || x - n as real == 0.5) ==> n % 2 == 0
    ensures n == Rint(x)
  {
  }

  /** Rounding an integer gives it back. */
  lemma RintOfInteger(n: int)
    ensures Rint(n as real) == n
  {
    RintUnique(n as real, n);
  }
}
