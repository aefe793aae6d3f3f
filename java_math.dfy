/**
 * Java numeric operations whose meaning differs from Dafny's built-ins:
 * the `(int)` cast of a double (rounds toward zero), `%` on int (the sign
 * follows the dividend), `Math.abs`, and Minecraft's `MathHelper.clamp`.
 */
module JavaMath {

  function Abs(a: int): (r: nat)
    ensures r == a || r == -a
  {
    if a < 0 then -a else a
  }

  function MinInt(a: int, b: int): (r: int)
    ensures r <= a && r <= b && (r == a || r == b)
  {
    if a <= b then a else b
  }

  function MaxInt(a: int, b: int): (r: int)
    ensures r >= a && r >= b && (r == a || r == b)
  {
    if a >= b then a else b
  }

  function AbsReal(a: real): (r: real)
    ensures r >= 0.0 && (r == a || r == -a)
  {
    if a < 0.0 then -a else a
  }

  function MinReal(a: real, b: real): (r: real)
    ensures r <= a && r <= b && (r == a || r == b)
  {
    if a <= b then a else b
  }

  function MaxReal(a: real, b: real): (r: real)
    ensures r >= a && r >= b && (r == a || r == b)
  {
    if a >= b then a else b
  }

  /** `(int) v` for a double `v`: truncation toward zero, which is not `Floor` below zero. */
  function Trunc(v: real): (r: int)
    ensures v >= 0.0 ==> r >= 0 && r as real <= v < r as real + 1.0
    ensures v <= 0.0 ==> r <= 0 && r as real - 1.0 < v <= r as real
  {
    if v >= 0.0 then v.Floor else -((-v).Floor)
  }

  /**
   * `MathHelper.clamp(v, lo, hi)`: `lo` when below it, else `hi` when above it.
   * With `lo > hi` the result is still one of `v`, `lo`, `hi`.
   */
  function Clamp(v: real, lo: real, hi: real): (r: real)
    ensures lo <= hi ==> lo <= r <= hi
    ensures lo <= v <= hi ==> r == v
    ensures v < lo ==> r == lo
    ensures lo <= hi < v ==> r == hi
  {
    if v < lo then lo else if v > hi then hi else v
  }

  /** Java's `a % b` for a positive divisor: the remainder takes the sign of `a`. */
  function JavaRem(a: int, b: int): (r: int)
    requires b > 0
    ensures -b < r < b
    ensures a >= 0 ==> r == a % b
    ensures a < 0 ==> r <= 0
  {
    if a >= 0 then a % b else -((-a) % b)
  }

  /** For the divisor 4 used by the ore generator, Java's remainder is zero exactly when Dafny's is. */
  lemma JavaRemByFourZero(a: int)
    ensures JavaRem(a, 4) == 0 <==> a % 4 == 0
  {
    if a < 0 {
      var q, r := (-a) / 4, (-a) % 4;
      assert -a == 4 * q + r;
      assert a == 4 * (-q) - r;
      if r != 0 {
        assert a == 4 * (-q - 1) + (4 - r);
      }
    }
  }
}
