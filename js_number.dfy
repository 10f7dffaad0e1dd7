/**
 * The JavaScript number operations the pricing code uses, on exact decimals: `Math.round`,
 * `Number(x.toFixed(2))` and `Math.ceil`.  Binary floating point is not modelled.
 */
module JsNumber {

  /** `Math.round(x)`: the nearest integer, a half rounding toward +infinity. */
  function MathRound(x: real): (n: int)
    ensures n as real - 0.5 <= x < n as real + 0.5
  {
    (x + 0.5).Floor
  }

  /** `Math.ceil(x)`: the least integer not below x. */
  function Ceil(x: real): (n: int)
    ensures x <= n as real < x + 1.0
  {
    -((-x).Floor)
  }

  /* Steps of real arithmetic that the solver does not always find by itself. */

  lemma MulLe(a: real, b: real, k: real)
    requires a <= b && k >= 0.0
    ensures a * k <= b * k
  {
  }

  lemma MulLt(a: real, b: real, k: real)
    requires a < b && k > 0.0
    ensures a * k < b * k
  {
  }

  lemma RealOfProduct(a: int, b: int)
    ensures (a * b) as real == a as real * b as real
  {
  }

  /** A whole number of cents. */
  predicate IsCents(x: real) {
    (x * 100.0).Floor as real == x * 100.0
  }

  /**
   * `Number(x.toFixed(2))`: rounds to the nearest cent, and a half cent away from zero
   * (toFixed works on the magnitude and picks the larger candidate).
   */
  function ToFixed2(x: real): (r: real)
    ensures IsCents(r)
    ensures r - x <= 0.005 && x - r <= 0.005
    ensures x >= 0.0 ==> r >= 0.0
  {
    var n := ToFixed2Cents(x);
    var r := n as real / 100.0;
    assert r * 100.0 == n as real;
    assert (r * 100.0).Floor == n;
    assert r - x == (n as real - x * 100.0) / 100.0;
    r
  }

  /** The whole number of cents toFixed(2) picks for x. */
  function ToFixed2Cents(x: real): (n: int)
    ensures n as real - x * 100.0 <= 0.5 && x * 100.0 - n as real <= 0.5
    ensures x >= 0.0 ==> n >= 0
  {
    if x >= 0.0 then MathRound(x * 100.0) else -MathRound(-x * 100.0)
  }

  /** An amount already in whole cents is left alone by toFixed(2). */
  lemma ToFixed2OfCents(x: real)
    requires IsCents(x)
    ensures ToFixed2(x) == x
  {
    var c := (x * 100.0).Floor;
    if x >= 0.0 {
      assert x * 100.0 == c as real;
      assert MathRound(x * 100.0) == c;
    } else {
      assert -x * 100.0 == (-c) as real;
      assert MathRound(-x * 100.0) == -c;
    }
  }

  /** A sum of whole cents is a whole number of cents. */
  lemma CentsAdd(x: real, y: real)
    requires IsCents(x) && IsCents(y)
    ensures IsCents(x + y)
  {
    var cx, cy := (x * 100.0).Floor, (y * 100.0).Floor;
    assert (x + y) * 100.0 == (cx + cy) as real;
  }

  /** A sum of three amounts in whole cents passes through toFixed(2) unchanged. */
  lemma CentsSumExact(x: real, y: real, z: real)
    requires IsCents(x) && IsCents(y) && IsCents(z)
    ensures ToFixed2(x + y + z) == x + y + z
  {
    CentsAdd(x, y);
    CentsAdd(x + y, z);
    ToFixed2OfCents(x + y + z);
  }

  /** Rounding to cents twice is rounding once. */
  lemma ToFixed2Idempotent(x: real)
    ensures ToFixed2(ToFixed2(x)) == ToFixed2(x)
  {
    ToFixed2OfCents(ToFixed2(x));
  }
}
