/** The position functions of package `celestia`: mean anomaly through equation of
    center and ecliptic longitude to equatorial and horizontal coordinates.

    Every exported function takes the body as the integer enum `p` and returns Go's
    `(float64, error)` pair as a `Ret`. An invalid enum yields `(0, ErrInvalidEnum)` from
    the first table lookup, and each caller passes an error on unchanged with value 0. */
module Celestia {
  import opened GoNumeric
  import opened Trig
  import opened Bodies
  import opened OrbitSeries
  import Julian

  /** The source's one error (`ErrInvalidEnum`); `ErrNoConvergence` is reported only by
      the fuel-bounded model of the refinement loops, which in Go have no bound. */
  datatype Err = Nil | ErrInvalidEnum | ErrNoConvergence

  /** Go's `(float64, error)` result pair. */
  datatype Ret = Ret(value: real, err: Err)

  /** The uniform error policy of the position functions: an invalid enum gives exactly
      `(0, ErrInvalidEnum)`, a valid one never fails. */
  predicate ErrorPolicy(p: int, r: Ret)
  {
    && (BodyOf(p).None? ==> r == Ret(0.0, ErrInvalidEnum))
    && (BodyOf(p).Some? ==> r.err == Nil)
  }

  // ---------------------------------------------------------------------------
  // Angle reduction
  // ---------------------------------------------------------------------------

  /** `normalize90`: one shift by a full turn toward the origin, for angles beyond +-180.
      Despite the source comment ("-90 to 90"), it is the identity on [-180, 180], moves
      each angle by at most one turn, and lands in [-180, 180] exactly for inputs in
      [-540, 540]. */
  function Normalize90(angle: real): (r: real)
    ensures r - angle == -360.0 || r - angle == 0.0 || r - angle == 360.0
    ensures -180.0 <= angle <= 180.0 ==> r == angle
    ensures (-180.0 <= r <= 180.0) <==> (-540.0 <= angle <= 540.0)
  {
    if angle > 180.0 then angle - 360.0
    else if angle < -180.0 then angle + 360.0
    else angle
  }

  /** The one-sided reduction of ecliptic longitude and sidereal time,
      `for x > 360 { x = math.Mod(x, 360) }`: angles up to 360 (negative ones and 360
      itself included) are kept, larger ones are reduced into [0, 360). */
  function WrapAbove360(x: real): (y: real)
    ensures y <= 360.0
    ensures WholeTurns(x - y)
    ensures x <= 360.0 ==> y == x
    ensures x > 360.0 ==> 0.0 <= y < 360.0
  {
    if x > 360.0 then Mod360(x) else x
  }

  /** The source's loop itself: its body runs at most once, and it computes `WrapAbove360`. */
  method WrapLoop(x: real) returns (y: real, runs: nat)
    ensures y == WrapAbove360(x)
    ensures runs <= 1
    ensures runs == 1 <==> x > 360.0
  {
    y := x;
    runs := 0;
    while y > 360.0
      invariant runs <= 1
      invariant runs == 0 ==> y == x
      invariant runs == 1 ==> x > 360.0 && y == Mod360(x) && y < 360.0
      decreases if y > 360.0 then 1 else 0
    {
      y := Mod360(y);
      runs := runs + 1;
    }
  }

  // ---------------------------------------------------------------------------
  // Table lookups
  // ---------------------------------------------------------------------------

  /** The argument M0 + M1 (jd - J2000) of the mean anomaly. */
  function MeanArgument(b: Body, jd: real): real
  {
    ParamsOf(b).m0 + ParamsOf(b).m1 * (jd - Julian.J2000)
  }

  /** `MeanAnomaly`: the mean-anomaly argument reduced by `math.Mod`, a truncated
      remainder. It is a whole number of turns from the argument, strictly inside
      (-360, 360), and has the sign of the argument, so it lies in [0, 360) only for a
      non-negative argument; at negative arguments it may be negative. */
  function MeanAnomaly(jd: real, p: int): (r: Ret)
    ensures ErrorPolicy(p, r)
    ensures r.err == Nil ==>
              var x := MeanArgument(BodyOf(p).value, jd);
              && -360.0 < r.value < 360.0
              && WholeTurns(x - r.value)
              && (x >= 0.0 ==> r.value >= 0.0)
              && (x < 0.0 ==> r.value <= 0.0)
  {
    match BodyOf(p)
    case None => Ret(0.0, ErrInvalidEnum)
    case Some(b) => Ret(Mod360(MeanArgument(b, jd)), Nil)
  }

  /** `ObliquityEcliptic`: the body's table constant, independent of time. */
  function ObliquityEcliptic(p: int): (r: Ret)
    ensures ErrorPolicy(p, r)
    ensures r.err == Nil ==> r.value == ParamsOf(BodyOf(p).value).obliquity
  {
    match BodyOf(p)
    case None => Ret(0.0, ErrInvalidEnum)
    case Some(b) => Ret(ParamsOf(b).obliquity, Nil)
  }

  /** `PerihelionLongitude`: the body's table constant, independent of time. */
  function PerihelionLongitude(p: int): (r: Ret)
    ensures ErrorPolicy(p, r)
    ensures r.err == Nil ==> r.value == ParamsOf(BodyOf(p).value).perihelion
  {
    match BodyOf(p)
    case None => Ret(0.0, ErrInvalidEnum)
    case Some(b) => Ret(ParamsOf(b).perihelion, Nil)
  }

  // ---------------------------------------------------------------------------
  // Orbital position
  // ---------------------------------------------------------------------------

  /** `EquationOfCenter`: the series at the mean anomaly, in radians; with sines in
      [-1, 1] it never exceeds the body's `CenterBound` in magnitude. */
  function EquationOfCenter(m: MathLib, jd: real, p: int): (r: Ret)
    ensures ErrorPolicy(p, r)
    ensures SinCosBounded(m) && r.err == Nil ==>
              -CenterBound(ParamsOf(BodyOf(p).value)) <= r.value <= CenterBound(ParamsOf(BodyOf(p).value))
  {
    var mean := MeanAnomaly(jd, p);
    if mean.err != Nil then Ret(0.0, mean.err)
    else
      var c := ParamsOf(BodyOf(p).value);
      Ret(CenterSeries(m, c, mean.value * Rad), Nil)
  }

  /** `TrueAnomaly`: mean anomaly plus equation of center, with no reduction. */
  function TrueAnomaly(m: MathLib, jd: real, p: int): (r: Ret)
    ensures ErrorPolicy(p, r)
    ensures r.err == Nil ==> r.value == MeanAnomaly(jd, p).value + EquationOfCenter(m, jd, p).value
  {
    var mean := MeanAnomaly(jd, p);
    if mean.err != Nil then Ret(0.0, mean.err)
    else
      var center := EquationOfCenter(m, jd, p);
      if center.err != Nil then Ret(0.0, center.err)
      else Ret(mean.value + center.value, center.err)
  }

  /** The ecliptic longitude before reduction: M + P + 180 + C. */
  function RawLongitude(m: MathLib, jd: real, p: int): real
  {
    MeanAnomaly(jd, p).value + PerihelionLongitude(p).value + 180.0 + EquationOfCenter(m, jd, p).value
  }

  /** `EclipticLongitude`: M + P + 180 + C, reduced only from above: at most 360, a whole
      number of turns from the raw sum, kept as is when the sum is at most 360 (even if
      negative) and in [0, 360) otherwise. */
  function EclipticLongitude(m: MathLib, jd: real, p: int): (r: Ret)
    ensures ErrorPolicy(p, r)
    ensures r.err == Nil ==>
              var raw := RawLongitude(m, jd, p);
              && r.value <= 360.0
              && WholeTurns(raw - r.value)
              && (raw <= 360.0 ==> r.value == raw)
              && (raw > 360.0 ==> 0.0 <= r.value < 360.0)
  {
    var mean := MeanAnomaly(jd, p);
    if mean.err != Nil then Ret(0.0, mean.err)
    else
      var w := PerihelionLongitude(p);
      if w.err != Nil then Ret(0.0, w.err)
      else
        var center := EquationOfCenter(m, jd, p);
        if center.err != Nil then Ret(0.0, center.err)
        else
          var longitude := mean.value + w.value + 180.0;
          Ret(WrapAbove360(longitude + center.value), center.err)
  }

  // ---------------------------------------------------------------------------
  // Equatorial coordinates
  // ---------------------------------------------------------------------------

  /** `RightAscension`: atan2(sin l cos e, cos l) in degrees. */
  function RightAscension(m: MathLib, jd: real, p: int): (r: Ret)
    ensures ErrorPolicy(p, r)
    ensures Atan2InRange(m) ==> -180.0 < r.value <= 180.0
  {
    var l := EclipticLongitude(m, jd, p);
    if l.err != Nil then Ret(0.0, l.err)
    else
      var e := ObliquityEcliptic(p);
      if e.err != Nil then Ret(0.0, e.err)
      else Ret(Atan2Degrees(m, m.sin(l.value * Rad) * m.cos(e.value * Rad), m.cos(l.value * Rad)), e.err)
  }

  /** `Declination`: atan(sin l sin e) in degrees (the source uses `math.Atan` here). */
  function Declination(m: MathLib, jd: real, p: int): (r: Ret)
    ensures ErrorPolicy(p, r)
    ensures AtanInRange(m) ==> -90.0 < r.value < 90.0
  {
    var l := EclipticLongitude(m, jd, p);
    if l.err != Nil then Ret(0.0, l.err)
    else
      var e := ObliquityEcliptic(p);
      if e.err != Nil then Ret(0.0, e.err)
      else Ret(Degrees(m.atan(m.sin(l.value * Rad) * m.sin(e.value * Rad))), e.err)
  }

  /** The sidereal time before reduction, T0 + T1 (jd - J2000) - lon. */
  function RawSiderealTime(b: Body, jd: real, lon: real): real
  {
    ParamsOf(b).t0 + ParamsOf(b).t1 * (jd - Julian.J2000) - lon
  }

  /** `SiderealTime`: the linear sidereal time minus the (west) longitude, reduced from
      above like the ecliptic longitude. For an invalid enum theta stays 0, which the
      reduction loop leaves alone. */
  function SiderealTime(jd: real, p: int, lon: real): (r: Ret)
    ensures ErrorPolicy(p, r)
    ensures r.err == Nil ==>
              var raw := RawSiderealTime(BodyOf(p).value, jd, lon);
              && r.value <= 360.0
              && WholeTurns(raw - r.value)
              && (raw <= 360.0 ==> r.value == raw)
              && (raw > 360.0 ==> 0.0 <= r.value < 360.0)
  {
    var start := match BodyOf(p)
      case None => Ret(0.0, ErrInvalidEnum)
      case Some(b) => Ret(RawSiderealTime(b, jd, lon), Nil);
    Ret(WrapAbove360(start.value), start.err)
  }

  /** `HourAngle`: sidereal time minus right ascension, unreduced. */
  function HourAngle(m: MathLib, jd: real, p: int, lon: real): (r: Ret)
    ensures ErrorPolicy(p, r)
    ensures r.err == Nil ==> r.value == SiderealTime(jd, p, lon).value - RightAscension(m, jd, p).value
  {
    var theta := SiderealTime(jd, p, lon);
    if theta.err != Nil then Ret(0.0, theta.err)
    else
      var a := RightAscension(m, jd, p);
      if a.err != Nil then Ret(0.0, a.err)
      else Ret(theta.value - a.value, a.err)
  }

  // ---------------------------------------------------------------------------
  // Horizontal coordinates
  // ---------------------------------------------------------------------------

  /** `Azimuth`: atan2(sin H, cos H sin lat - tan d cos lat) in degrees. */
  function Azimuth(m: MathLib, jd: real, p: int, lat: real, lon: real): (r: Ret)
    ensures ErrorPolicy(p, r)
    ensures Atan2InRange(m) ==> -180.0 < r.value <= 180.0
  {
    var d := Declination(m, jd, p);
    if d.err != Nil then Ret(0.0, d.err)
    else
      var h := HourAngle(m, jd, p, lon);
      if h.err != Nil then Ret(0.0, h.err)
      else
        Ret(Atan2Degrees(m, m.sin(h.value * Rad),
                         m.cos(h.value * Rad) * m.sin(lat * Rad) - m.tan(d.value * Rad) * m.cos(lat * Rad)),
            h.err)
  }

  /** The argument sin lat sin d + cos lat cos d cos H of the altitude's arcsine. It
      lies in [-1, 1] whenever the library obeys sin^2 + cos^2 = 1 and bounds cosine
      by 1: it is the cosine of the angle between two unit vectors, up to the factor
      cos H. */
  function AltitudeSine(m: MathLib, lat: real, d: real, h: real): (r: real)
    ensures Pythagorean(m) && SinCosBounded(m) ==> -1.0 <= r <= 1.0
  {
    UnitSphereBound(m, lat, d, h);
    m.sin(lat * Rad) * m.sin(d * Rad) + m.cos(lat * Rad) * m.cos(d * Rad) * m.cos(h * Rad)
  }

  /** The bound of `AltitudeSine`, on its defining expression. */
  lemma UnitSphereBound(m: MathLib, lat: real, d: real, h: real)
    ensures Pythagorean(m) && SinCosBounded(m) ==>
              -1.0 <= m.sin(lat * Rad) * m.sin(d * Rad) + m.cos(lat * Rad) * m.cos(d * Rad) * m.cos(h * Rad) <= 1.0
  {
    if Pythagorean(m) && SinCosBounded(m) {
      assert m.sin(lat * Rad) * m.sin(lat * Rad) + m.cos(lat * Rad) * m.cos(lat * Rad) == 1.0;
      assert m.sin(d * Rad) * m.sin(d * Rad) + m.cos(d * Rad) * m.cos(d * Rad) == 1.0;
      assert -1.0 <= m.cos(h * Rad) <= 1.0;
      UnitCombination(m.sin(lat * Rad), m.cos(lat * Rad), m.sin(d * Rad), m.cos(d * Rad), m.cos(h * Rad));
      assert m.cos(lat * Rad) * m.cos(d * Rad) * m.cos(h * Rad)
          == m.cos(lat * Rad) * (m.cos(d * Rad) * m.cos(h * Rad));
    }
  }

  /** `Altitude`: asin(sin lat sin d + cos lat cos d cos H) in degrees; it lies in
      [-90, 90] whenever the library is a consistent sine/cosine pair and `math.Asin`
      maps [-1, 1] into [-Pi/2, Pi/2]. */
  function Altitude(m: MathLib, jd: real, p: int, lat: real, lon: real): (r: Ret)
    ensures ErrorPolicy(p, r)
    ensures Pythagorean(m) && SinCosBounded(m) && AsinInRange(m) ==> -90.0 <= r.value <= 90.0
  {
    var d := Declination(m, jd, p);
    if d.err != Nil then Ret(0.0, d.err)
    else
      var h := HourAngle(m, jd, p, lon);
      if h.err != Nil then Ret(0.0, h.err)
      else
        Ret(Degrees(m.asin(AltitudeSine(m, lat, d.value, h.value))), h.err)
  }
}
