/** Go's numeric primitives, restated over Dafny's unbounded `int` and exact `real`.

    Dafny's `/` and `%` on `int` are Euclidean; Go's integer `/` truncates toward zero,
    and `math.Mod` keeps the sign of its dividend. Both are written out here so that the
    rest of the model never relies on Dafny's own operators where Go's differ.
 */
module GoNumeric {

  datatype Option<+T> = None | Some(value: T)

  /** `math.Floor`, as an integer. */
  function Floor(x: real): (f: int)
    ensures f as real <= x < f as real + 1.0
  {
    x.Floor
  }

  /** `math.Ceil`, as an integer. */
  function Ceil(x: real): (c: int)
    ensures c as real - 1.0 < x <= c as real
  {
    -((-x).Floor)
  }

  /** Go's conversion of a float toward zero (`int(x)`, `uint(x)` for x >= 0, `math.Trunc`). */
  function Trunc(x: real): (t: int)
    ensures x >= 0.0 ==> t as real <= x < t as real + 1.0
    ensures x < 0.0 ==> t as real - 1.0 < x <= t as real
  {
    if x >= 0.0 then Floor(x) else Ceil(x)
  }

  /** Go's integer division `a / b` for a positive divisor (every divisor in the
      calendar formulas is a positive constant): the quotient rounded toward zero,
      so the remainder takes the sign of the dividend. */
  function Quo(a: int, b: int): (q: int)
    requires b > 0
    ensures a >= 0 ==> 0 <= a - b * q < b
    ensures a < 0 ==> -b < a - b * q <= 0
  {
    if a >= 0 then
      var q := a / b;
      assert a == b * q + a % b;
      q
    else
      var q := (-a) / b;
      assert -a == b * q + (-a) % b;
      -q
  }

  /** The quotient with those remainder bounds is unique: no other integer has them. */
  lemma QuoUnique(a: int, b: int, q: int)
    requires b > 0
    requires a >= 0 ==> 0 <= a - b * q < b
    requires a < 0 ==> -b < a - b * q <= 0
    ensures q == Quo(a, b)
  {
    var q0 := Quo(a, b);
    MulSub(b, q, q0);
    if q > q0 {
      MulAtLeast(b, q - q0);
    } else if q < q0 {
      MulAtLeast(b, q0 - q);
    }
  }

  lemma MulSub(b: int, q: int, q0: int)
    ensures b * q - b * q0 == b * (q - q0)
  {
  }

  lemma MulAtLeast(b: int, d: int)
    requires b > 0 && d >= 1
    ensures b * d >= b
  {
  }

  /** `d` is a whole number of full turns (multiples of 360 degrees). */
  predicate WholeTurns(d: real)
  {
    (d / 360.0).Floor as real == d / 360.0
  }

  /** `math.Mod(x, 360.0)`, the only modulus the source uses: the remainder of x/360 with
      the quotient truncated toward zero, so the result has the sign of `x`, magnitude
      below 360, and differs from `x` by whole turns. */
  function Mod360(x: real): (r: real)
    ensures x >= 0.0 ==> 0.0 <= r < 360.0
    ensures x < 0.0 ==> -360.0 < r <= 0.0
    ensures WholeTurns(x - r)
  {
    var t := Trunc(x / 360.0);
    var r := x - 360.0 * t as real;
    assert x - r == 360.0 * t as real;
    TurnsAreWhole(t);
    r
  }

  /** t full turns are whole turns. */
  lemma TurnsAreWhole(t: int)
    ensures WholeTurns(360.0 * t as real)
  {
    assert (360.0 * t as real) / 360.0 == t as real;
  }

  /** The three properties of `Mod360` pin its result down: any value with the sign of
      `x`, magnitude below 360 and whole turns away from `x` is `Mod360(x)`. */
  lemma Mod360Unique(x: real, r: real)
    requires x >= 0.0 ==> 0.0 <= r < 360.0
    requires x < 0.0 ==> -360.0 < r <= 0.0
    requires WholeTurns(x - r)
    ensures r == Mod360(x)
  {
    var r0 := Mod360(x);
    var k := ((x - r) / 360.0).Floor;
    var k0 := ((x - r0) / 360.0).Floor;
    assert r0 - r == 360.0 * (k - k0) as real;
  }

  /** Transit day rounding: `Ceil(x)` when the fractional part is at least one half,
      `Floor(x)` otherwise. The result is the integer nearest to `x`, halves going up. */
  function RoundHalfUp(x: real): (n: int)
    ensures -0.5 < n as real - x <= 0.5
  {
    var f := Floor(x);
    if x - f as real >= 0.5 then
      assert -x < -(f as real) < -x + 1.0;
      assert (-x).Floor == -f - 1;
      Ceil(x)
    else
      f
  }

  /** The branchy rounding agrees with the textbook formula floor(x + 1/2). */
  lemma RoundHalfUpIsFloorPlusHalf(x: real)
    ensures RoundHalfUp(x) == Floor(x + 0.5)
  {
    var n := RoundHalfUp(x);
    assert n as real <= x + 0.5 < n as real + 1.0;
  }
}
