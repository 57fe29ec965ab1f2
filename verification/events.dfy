/** The event solvers of package `celestia`: `Transit`, `Sunrise` and `Sunset`.

    Each computes a closed-form first estimate and then runs the refinement loop of
    module `Refinement` with its own correction step. The loops are bounded by `fuel`
    (the source's are not); running out is reported as `ErrNoConvergence` with value 0.
    `render` stands for `fmt.Sprintf("%.6f", x)`.

    Every solver takes an `Edition`: with `AsWritten` it computes what the source
    computes; with `Corrected` it uses the corrected J2 factors for Jupiter and Saturn
    and the corrected horizon hour angle. */
module CelestiaEvents {
  import opened GoNumeric
  import opened Trig
  import opened Bodies
  import opened Celestia
  import opened Refinement
  import Julian

  /** The error policy of the solvers: an invalid enum gives exactly `(0, ErrInvalidEnum)`,
      a valid one never does, and any failure carries the value 0. */
  predicate EventErrorPolicy(p: int, r: Ret)
  {
    && (BodyOf(p).None? ==> r == Ret(0.0, ErrInvalidEnum))
    && (BodyOf(p).Some? ==> r.err != ErrInvalidEnum)
    && (r.err != Nil ==> r.value == 0.0)
  }

  // ---------------------------------------------------------------------------
  // Transit
  // ---------------------------------------------------------------------------

  /** n_x = (jd - J2000 - J0) / J3 - lon / 360: the (fractional) number of solar days of
      the body since its reference transit. */
  function DayCount(k: TransitCoeffs, jd: real, lon: real): real
    requires k.j3 != 0.0
  {
    (jd - Julian.J2000 - k.j0) / k.j3 - lon / 360.0
  }

  /** A body's mean hour angle: the unreduced sidereal time T0 + T1 (jd - J2000) - lon
      minus the unreduced mean longitude M0 + M1 (jd - J2000) + P + 180 (the equation of
      center left out). */
  function MeanHourAngle(c: Params, jd: real, lon: real): real
  {
    var d := jd - Julian.J2000;
    (c.t0 + c.t1 * d - lon) - (c.m0 + c.m1 * d + c.perihelion + 180.0)
  }

  /** The first transit estimate jd + J3 (n - n_x) + J1 sin(M) + J2 sin(2 l), with M and l
      taken at the original `jd`. Rounding n_x to the nearest day n moves the estimate by
      at most half a solar day of the body, J3 / 2, away from jd + J1 sin(M) + J2 sin(2 l). */
  function TransitStart(k: TransitCoeffs, jd: real, lon: real, sinM: real, sin2L: real): (r: real)
    requires k.j3 != 0.0
    ensures var base := jd + k.j1 * sinM + k.j2 * sin2L;
            k.j3 > 0.0 ==> base - 0.5 * k.j3 < r <= base + 0.5 * k.j3
    ensures var base := jd + k.j1 * sinM + k.j2 * sin2L;
            k.j3 < 0.0 ==> base + 0.5 * k.j3 <= r < base - 0.5 * k.j3
  {
    jd + RoundingShift(k.j3, DayCount(k, jd, lon)) + k.j1 * sinM + k.j2 * sin2L
  }

  /** J3 (n - n_x), n being n_x rounded half up: the move from `jd` to the mean transit
      nearest to it, at most half a step J3 either way. */
  function RoundingShift(j3: real, nx: real): (s: real)
    ensures j3 > 0.0 ==> -0.5 * j3 < s <= 0.5 * j3
    ensures j3 < 0.0 ==> 0.5 * j3 <= s < -0.5 * j3
  {
    var e := RoundHalfUp(nx) as real - nx;
    HalfStep(j3, e);
    j3 * e
  }

  /** A rounding error in (-1/2, 1/2], scaled by a non-zero step. */
  lemma HalfStep(a: real, e: real)
    requires -0.5 < e <= 0.5
    ensures a > 0.0 ==> -0.5 * a < a * e <= 0.5 * a
    ensures a < 0.0 ==> 0.5 * a <= a * e < -0.5 * a
  {
  }

  /** The body's hour angle as a function of the Julian Day, as the loops evaluate it. */
  function HourAngleAt(m: MathLib, b: Body, lon: real): real -> real
  {
    j => HourAngle(m, j, EnumOf(b), lon).value
  }

  /** The transit correction (H / 360) J3, with H the hour angle at J. */
  function TransitCorrection(hour: real -> real, j3: real, j: real): real
  {
    (hour(j) / 360.0) * j3
  }

  /** One transit step: J -= (H / 360) J3. */
  function TransitStep(hour: real -> real, j3: real): real -> real
  {
    j => j - TransitCorrection(hour, j3, j)
  }

  /** The first transit estimate at `jd`, with the body's mean anomaly and ecliptic
      longitude at `jd` as the source takes them. */
  function TransitFirst(e: Edition, m: MathLib, b: Body, jd: real, lon: real): real
  {
    TransitStart(TransitCoeffsOf(e, b), jd, lon,
                 m.sin(MeanAnomaly(jd, EnumOf(b)).value * Rad),
                 m.sin(2.0 * EclipticLongitude(m, jd, EnumOf(b)).value * Rad))
  }

  /** The outcome of a bounded loop: its value, or `ErrNoConvergence` when the fuel ran
      out. */
  function Outcome(o: Option<real>): (r: Ret)
    ensures r.err == Nil <==> o.Some?
    ensures o.Some? ==> r.value == o.value
    ensures o.None? ==> r == Ret(0.0, ErrNoConvergence)
  {
    match o
    case None => Ret(0.0, ErrNoConvergence)
    case Some(j) => Ret(j, Nil)
  }

  /** A refinement loop's outcome: success exactly when some step within the fuel leaves
      the rendering unchanged, and then the value after the first such step. */
  predicate IsFirstStopOutcome(step: real -> real, render: real -> string, x: real, fuel: nat, r: Ret)
  {
    && (r.err == Nil <==> exists k :: 1 <= k <= fuel && StopsAt(step, render, x, k))
    && (r.err != Nil ==> r == Ret(0.0, ErrNoConvergence))
    && (r.err == Nil ==>
          exists k :: 1 <= k <= fuel && r.value == Iterate(step, x, k) && StopsAt(step, render, x, k)
                      && forall j :: 1 <= j < k ==> !StopsAt(step, render, x, j))
  }

  /** The refinement loop of the three solvers, from `x` with correction `step`: it
      returns the value after the first correction that leaves the six-decimal rendering
      unchanged, and reports non-convergence exactly when no correction within the fuel
      does. */
  function Solve(step: real -> real, render: real -> string, x: real, fuel: nat): (r: Ret)
    ensures IsFirstStopOutcome(step, render, x, fuel, r)
  {
    RefineNoneIffNoStop(step, render, x, fuel);
    var o := Refine(step, render, x, fuel);
    if o.Some? then
      RefineResultIsFirstStop(step, render, x, fuel);
      Outcome(o)
    else
      Outcome(o)
  }

  /** `Transit`: the first estimate, refined by `TransitStep` until its six-decimal
      rendering holds. */
  function Transit(e: Edition, m: MathLib, render: real -> string, jd: real, p: int, lon: real, fuel: nat): (r: Ret)
    ensures EventErrorPolicy(p, r)
    ensures BodyOf(p).Some? ==>
              var b := BodyOf(p).value;
              IsFirstStopOutcome(TransitStep(HourAngleAt(m, b, lon), TransitCoeffsOf(e, b).j3), render,
                                 TransitFirst(e, m, b, jd, lon), fuel, r)
  {
    var l := EclipticLongitude(m, jd, p);
    if l.err != Nil then Ret(0.0, l.err)
    else
      match BodyOf(p)
      case None => Ret(0.0, ErrInvalidEnum)
      case Some(b) =>
        var mean := MeanAnomaly(jd, p);
        if mean.err != Nil then Ret(0.0, mean.err)
        else Solve(TransitStep(HourAngleAt(m, b, lon), TransitCoeffsOf(e, b).j3), render,
                   TransitFirst(e, m, b, jd, lon), fuel)
  }

  // ---------------------------------------------------------------------------
  // Sunrise and sunset
  // ---------------------------------------------------------------------------

  /** sin h0 - sin lat sin d, the numerator of the horizon hour angle's cosine. */
  function HorizonNumerator(m: MathLib, h0: real, lat: real, d: real): real
  {
    m.sin(h0 * Rad) - m.sin(lat * Rad) * m.sin(d * Rad)
  }

  /** The cosine of the horizon hour angle as the source groups it,
      (sin h0 - sin lat sin d) / cos lat * cos d: Go evaluates `/` and `*` left to
      right, so cos d multiplies the quotient instead of dividing it. */
  function HorizonCosineAsWritten(m: MathLib, h0: real, lat: real, d: real): (r: real)
    ensures m.cos(d * Rad) == 1.0 ==> r == HorizonCosine(m, h0, lat, d)
    ensures m.cos(d * Rad) == 0.0 ==> r == 0.0
  {
    UnitScale(m, HorizonNumerator(m, h0, lat, d), m.cos(lat * Rad), m.cos(d * Rad));
    Quotient(m, HorizonNumerator(m, h0, lat, d), m.cos(lat * Rad)) * m.cos(d * Rad)
  }

  /** Multiplying the quotient by s and dividing by y s agree when s is 1. */
  lemma UnitScale(m: MathLib, x: real, y: real, s: real)
    ensures s == 1.0 ==> Quotient(m, x, y * s) == Quotient(m, x, y) * s
  {
  }

  /** The cosine of the horizon hour angle, (sin h0 - sin lat sin d) / (cos lat cos d):
      the hour angle at which the altitude is h0. */
  function HorizonCosine(m: MathLib, h0: real, lat: real, d: real): real
  {
    Quotient(m, HorizonNumerator(m, h0, lat, d), m.cos(lat * Rad) * m.cos(d * Rad))
  }

  /** H0 as the source computes it, acos of `HorizonCosineAsWritten` in degrees. */
  function HorizonHourAngleAsWritten(m: MathLib, h0: real, lat: real, d: real): (r: real)
    ensures r * Rad == m.acos(HorizonCosineAsWritten(m, h0, lat, d))
  {
    Degrees(m.acos(HorizonCosineAsWritten(m, h0, lat, d)))
  }

  /** H0 = acos((sin h0 - sin lat sin d) / (cos lat cos d)) in degrees, the corrected
      horizon hour angle of the `Corrected` edition. */
  function HorizonHourAngle(m: MathLib, h0: real, lat: real, d: real): (r: real)
    ensures r * Rad == m.acos(HorizonCosine(m, h0, lat, d))
  {
    Degrees(m.acos(HorizonCosine(m, h0, lat, d)))
  }

  /** The cosine of the horizon hour angle in an edition. */
  function HorizonCosineIn(e: Edition, m: MathLib, h0: real, lat: real, d: real): real
  {
    match e
    case AsWritten => HorizonCosineAsWritten(m, h0, lat, d)
    case Corrected => HorizonCosine(m, h0, lat, d)
  }

  /** The horizon hour angle in an edition: the source's in `AsWritten`, the corrected
      one in `Corrected`. */
  function HorizonHourAngleIn(e: Edition, m: MathLib, h0: real, lat: real, d: real): (r: real)
    ensures r * Rad == m.acos(HorizonCosineIn(e, m, h0, lat, d))
  {
    match e
    case AsWritten => HorizonHourAngleAsWritten(m, h0, lat, d)
    case Corrected => HorizonHourAngle(m, h0, lat, d)
  }

  /** What `Sunrise` and `Sunset` compute alike before their loops: the horizon hour
      angle, J3 and the refined transit. */
  datatype Setup = Setup(h0: real, j3: real, transit: real, err: Err)

  /** The shared setup: H0 is the hour angle whose cosine is the edition's horizon
      cosine at the declination, J3 is the body's solar day, the transit is the value
      `Transit` returns, and the setup fails exactly when the declination or the transit
      fails. */
  function EventSetup(e: Edition, m: MathLib, render: real -> string, jd: real, p: int, lat: real, lon: real, fuel: nat): (s: Setup)
    ensures BodyOf(p).None? ==> s.err == ErrInvalidEnum
    ensures BodyOf(p).Some? ==> (s.err == Nil <==> Transit(e, m, render, jd, p, lon, fuel).err == Nil)
    ensures BodyOf(p).Some? ==> s.err in {Nil, ErrNoConvergence}
    ensures s.err == Nil ==>
              var b := BodyOf(p).value;
              && s.h0 == HorizonHourAngleIn(e, m, ParamsOf(b).h0, lat, Declination(m, jd, p).value)
              && s.j3 == TransitCoeffsOf(e, b).j3
              && Transit(e, m, render, jd, p, lon, fuel) == Ret(s.transit, Nil)
  {
    var d := Declination(m, jd, p);
    if d.err != Nil then Setup(0.0, 0.0, 0.0, d.err)
    else
      match BodyOf(p)
      case None => Setup(0.0, 0.0, 0.0, ErrInvalidEnum)
      case Some(b) =>
        var h := HorizonHourAngleIn(e, m, ParamsOf(b).h0, lat, d.value);
        var j3 := TransitCoeffsOf(e, b).j3;
        var t := Transit(e, m, render, jd, p, lon, fuel);
        if t.err != Nil then Setup(0.0, 0.0, 0.0, t.err)
        else Setup(h, j3, t.value, Nil)
  }

  /** The sunrise correction ((normalize90(H) + H0) / 360) J3 at J. */
  function RiseCorrection(hour: real -> real, j3: real, h0: real, j: real): real
  {
    ((Normalize90(hour(j)) + h0) / 360.0) * j3
  }

  /** The sunset correction ((normalize90(H) - H0) / 360) J3 at J. */
  function SetCorrection(hour: real -> real, j3: real, h0: real, j: real): real
  {
    ((Normalize90(hour(j)) - h0) / 360.0) * j3
  }

  /** One sunrise step: J -= ((normalize90(H) + H0) / 360) J3. */
  function RiseStep(hour: real -> real, j3: real, h0: real): real -> real
  {
    j => j - RiseCorrection(hour, j3, h0, j)
  }

  /** One sunset step: J -= ((normalize90(H) - H0) / 360) J3. */
  function SetStep(hour: real -> real, j3: real, h0: real): real -> real
  {
    j => j - SetCorrection(hour, j3, h0, j)
  }

  /** The first sunrise estimate: H0/360 of J3 before the transit. */
  function RiseStart(s: Setup): real
  {
    s.transit - (s.h0 / 360.0) * s.j3
  }

  /** The first sunset estimate: H0/360 of J3 after the transit. */
  function SetStart(s: Setup): real
  {
    s.transit + (s.h0 / 360.0) * s.j3
  }

  /** `Sunrise`: refined by `RiseStep` from `RiseStart` until its six-decimal rendering
      holds; the errors of `Declination` and `Transit` pass through. */
  function Sunrise(e: Edition, m: MathLib, render: real -> string, jd: real, p: int, lat: real, lon: real, fuel: nat): (r: Ret)
    ensures EventErrorPolicy(p, r)
    ensures var s := EventSetup(e, m, render, jd, p, lat, lon, fuel);
            && (s.err != Nil ==> r == Ret(0.0, s.err))
            && (s.err == Nil ==>
                  IsFirstStopOutcome(RiseStep(HourAngleAt(m, BodyOf(p).value, lon), s.j3, s.h0), render,
                                     RiseStart(s), fuel, r))
  {
    var s := EventSetup(e, m, render, jd, p, lat, lon, fuel);
    if s.err != Nil then Ret(0.0, s.err)
    else Solve(RiseStep(HourAngleAt(m, BodyOf(p).value, lon), s.j3, s.h0), render, RiseStart(s), fuel)
  }

  /** `Sunset`: refined by `SetStep` from `SetStart` until its six-decimal rendering
      holds; the errors of `Declination` and `Transit` pass through. */
  function Sunset(e: Edition, m: MathLib, render: real -> string, jd: real, p: int, lat: real, lon: real, fuel: nat): (r: Ret)
    ensures EventErrorPolicy(p, r)
    ensures var s := EventSetup(e, m, render, jd, p, lat, lon, fuel);
            && (s.err != Nil ==> r == Ret(0.0, s.err))
            && (s.err == Nil ==>
                  IsFirstStopOutcome(SetStep(HourAngleAt(m, BodyOf(p).value, lon), s.j3, s.h0), render,
                                     SetStart(s), fuel, r))
  {
    var s := EventSetup(e, m, render, jd, p, lat, lon, fuel);
    if s.err != Nil then Ret(0.0, s.err)
    else Solve(SetStep(HourAngleAt(m, BodyOf(p).value, lon), s.j3, s.h0), render, SetStart(s), fuel)
  }
}
