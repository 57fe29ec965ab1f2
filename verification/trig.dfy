/** The floating-point library the position functions call, kept uninterpreted.

    `math.Sin`, `math.Cos`, ... are fields of a `MathLib` value that every position
    function takes as a parameter; nothing is assumed about them except where a lemma
    states a hypothesis about the library (a range, or sin^2 + cos^2 = 1) explicitly. */
module Trig {

  /** Go's `math.Pi`, digit for digit. */
  const Pi: real := 3.14159265358979323846264338327950288419716939937510582097494459

  /** The source's RAD = Pi/180 and DEG = 180/Pi. */
  const Rad: real := Pi / 180.0
  const Deg: real := 180.0 / Pi

  /** The library functions, in radians. `overZero(x)` stands for the IEEE value of x/0
      (an infinity or NaN), which the reals cannot express. */
  datatype MathLib = MathLib(
    sin: real -> real,
    cos: real -> real,
    tan: real -> real,
    atan: real -> real,
    atan2: (real, real) -> real,
    asin: real -> real,
    acos: real -> real,
    overZero: real -> real)

  /** Go's float division `x / y`, including division by zero. */
  function Quotient(m: MathLib, x: real, y: real): (q: real)
    ensures y != 0.0 ==> q * y == x
  {
    if y != 0.0 then x / y else m.overZero(x)
  }

  lemma DegRad()
    ensures Deg * Rad == 1.0
    ensures Deg * Pi == 180.0
  {
  }

  /** `x * DEG`: radians to degrees. Half and quarter turns either side of 0 map to
      (-180, 180] and [-90, 90], and `* RAD` converts back. */
  function Degrees(a: real): (d: real)
    ensures d * Rad == a
    ensures -Pi < a <= Pi ==> -180.0 < d <= 180.0
    ensures -Pi / 2.0 <= a <= Pi / 2.0 ==> -90.0 <= d <= 90.0
    ensures -Pi / 2.0 < a < Pi / 2.0 ==> -90.0 < d < 90.0
  {
    DegRad();
    assert (Pi / 2.0) * Deg == 90.0;
    a * Deg
  }

  // Hypotheses about the library, as the Go documentation states them.

  ghost predicate SinCosBounded(m: MathLib)
  {
    && (forall x :: -1.0 <= m.sin(x) <= 1.0)
    && (forall x :: -1.0 <= m.cos(x) <= 1.0)
  }

  ghost predicate Pythagorean(m: MathLib)
  {
    forall x :: m.sin(x) * m.sin(x) + m.cos(x) * m.cos(x) == 1.0
  }

  ghost predicate AtanInRange(m: MathLib)
  {
    forall x :: -Pi / 2.0 < m.atan(x) < Pi / 2.0
  }

  ghost predicate Atan2InRange(m: MathLib)
  {
    forall y, x :: -Pi < m.atan2(y, x) <= Pi
  }

  ghost predicate AsinInRange(m: MathLib)
  {
    forall x :: -1.0 <= x <= 1.0 ==> -Pi / 2.0 <= m.asin(x) <= Pi / 2.0
  }

  /** `math.Acos` inverts `math.Cos` on [-1, 1]. */
  ghost predicate AcosInverse(m: MathLib)
  {
    forall x :: -1.0 <= x <= 1.0 ==> m.cos(m.acos(x)) == x
  }

  /** `math.Atan2(y, x) * DEG`: within (-180, 180] when `math.Atan2` keeps to its
      documented range. */
  function Atan2Degrees(m: MathLib, y: real, x: real): (d: real)
    ensures d * Rad == m.atan2(y, x)
    ensures Atan2InRange(m) ==> -180.0 < d <= 180.0
  {
    Degrees(m.atan2(y, x))
  }

  // Real-arithmetic facts behind the ranges of the equation of center and the altitude.

  /** A non-negative coefficient times a value in [-1, 1] is at most the coefficient in
      magnitude. */
  lemma ScaledUnitBound(c: real, s: real)
    requires c >= 0.0 && -1.0 <= s <= 1.0
    ensures -c <= c * s <= c
  {
  }

  lemma MulNonNegative(a: real, b: real)
    requires a >= 0.0 && b >= 0.0
    ensures a * b >= 0.0
  {
  }

  lemma SquareNonNegative(x: real)
    ensures x * x >= 0.0
  {
    if x < 0.0 {
      MulNonNegative(-x, -x);
    } else {
      MulNonNegative(x, x);
    }
  }

  lemma UnitSquare(x: real)
    requires x * x <= 1.0
    ensures -1.0 <= x <= 1.0
  {
    if x > 1.0 {
      MulNonNegative(x - 1.0, x + 1.0);
    } else if x < -1.0 {
      MulNonNegative(-1.0 - x, 1.0 - x);
    }
  }

  lemma Lagrange(sa: real, ca: real, sb: real, cb: real)
    ensures (sa * sa + ca * ca) * (sb * sb + cb * cb)
            == (sa * sb + ca * cb) * (sa * sb + ca * cb) + (sa * cb - ca * sb) * (sa * cb - ca * sb)
    ensures (sa * sa + ca * ca) * (sb * sb + cb * cb)
            == (sa * sb - ca * cb) * (sa * sb - ca * cb) + (sa * cb + ca * sb) * (sa * cb + ca * sb)
  {
  }

  /** For two unit vectors (sa, ca) and (sb, cb), sa sb + ca cb and sa sb - ca cb are
      cosines: both lie in [-1, 1]. */
  lemma UnitSumDiff(sa: real, ca: real, sb: real, cb: real)
    requires sa * sa + ca * ca == 1.0
    requires sb * sb + cb * cb == 1.0
    ensures -1.0 <= sa * sb + ca * cb <= 1.0
    ensures -1.0 <= sa * sb - ca * cb <= 1.0
  {
    Lagrange(sa, ca, sb, cb);
    assert (sa * sa + ca * ca) * (sb * sb + cb * cb) == 1.0;
    UnitCoordinate(sa * sb + ca * cb, sa * cb - ca * sb);
    UnitCoordinate(sa * sb - ca * cb, sa * cb + ca * sb);
  }

  /** A coordinate of a unit vector lies in [-1, 1]. */
  lemma UnitCoordinate(x: real, y: real)
    requires x * x + y * y == 1.0
    ensures -1.0 <= x <= 1.0
  {
    SquareNonNegative(y);
    UnitSquare(x);
  }

  lemma UnitCombination(sa: real, ca: real, sb: real, cb: real, w: real)
    requires sa * sa + ca * ca == 1.0
    requires sb * sb + cb * cb == 1.0
    requires -1.0 <= w <= 1.0
    ensures -1.0 <= sa * sb + ca * cb * w <= 1.0
  {
    var u := sa * sb;
    var v := ca * cb;
    UnitSumDiff(sa, ca, sb, cb);
    var hi := (1.0 + w) / 2.0;
    var lo := (1.0 - w) / 2.0;
    assert u + v * w == hi * (u + v) + lo * (u - v);
    ConvexBound(hi, lo, u + v, u - v);
    assert ca * cb * w == v * w;
  }

  /** A convex combination of two values in [-1, 1] lies in [-1, 1]. */
  lemma ConvexBound(hi: real, lo: real, s: real, d: real)
    requires hi >= 0.0 && lo >= 0.0 && hi + lo == 1.0
    requires -1.0 <= s <= 1.0 && -1.0 <= d <= 1.0
    ensures -1.0 <= hi * s + lo * d <= 1.0
  {
    MulNonNegative(hi, 1.0 - s);
    MulNonNegative(lo, 1.0 - d);
    MulNonNegative(hi, 1.0 + s);
    MulNonNegative(lo, 1.0 + d);
  }
}
