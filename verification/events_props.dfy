/** Properties of the event solvers: the transit day count is the mean hour angle in
    turns, the first estimate is the nearest mean transit, the loops return their first
    stable step, sunrise is sunset with the horizon hour angle negated, and a converged
    loop has driven its hour-angle expression to within the rendering tolerance. */
module EventProps {
  import opened GoNumeric
  import opened Trig
  import opened Bodies
  import opened Celestia
  import opened Refinement
  import opened CelestiaEvents
  import Julian

  // ---------------------------------------------------------------------------
  // The transit day count
  // ---------------------------------------------------------------------------

  /** The algebra behind J0 and J3: with r J3 = 360 and J0 = a J3/360, 360 times the
      day count (d - J0)/J3 - lon/360 is r d - a - lon. */
  lemma DayCountAlgebra(r: real, j3: real, a: real, d: real, lon: real)
    requires r * j3 == 360.0
    ensures 360.0 * ((d - a * (j3 / 360.0)) / j3 - lon / 360.0) == r * d - a - lon
  {
    assert 360.0 / j3 == r;
    assert 360.0 * ((d - a * (j3 / 360.0)) / j3) == r * (d - a * (j3 / 360.0));
    assert r * (a * (j3 / 360.0)) == a * ((r * j3) / 360.0);
  }

  /** A shift by `s` J3 days moves an angle turning at r = 360/J3 degrees a day by `s`
      whole turns. */
  lemma ShiftAlgebra(r: real, j3: real, s: real)
    requires r * j3 == 360.0
    ensures r * (j3 * s) == 360.0 * s
    ensures (j3 * s) / j3 == s
  {
    assert r * (j3 * s) == (r * j3) * s;
  }

  /** n_x counts whole turns of the body's mean hour angle: 360 n_x equals the sidereal
      time minus the mean longitude, which is what the table-derived J0 and J3 encode. */
  lemma DayCountIsMeanHourAngle(c: Params, k: TransitCoeffs, jd: real, lon: real)
    requires DerivedFrom(k, c)
    ensures 360.0 * DayCount(k, jd, lon) == MeanHourAngle(c, jd, lon)
  {
    var d := jd - Julian.J2000;
    var a := c.m0 + c.perihelion + 180.0 - c.t0;
    DayCountAlgebra(c.t1 - c.m1, k.j3, a, d, lon);
    assert c.t1 * d - c.m1 * d == (c.t1 - c.m1) * d;
  }

  /** The mean hour angle advances by T1 - M1 degrees a day. */
  lemma MeanHourAngleRate(c: Params, jd: real, lon: real, dt: real)
    ensures MeanHourAngle(c, jd + dt, lon) == MeanHourAngle(c, jd, lon) + (c.t1 - c.m1) * dt
  {
    assert c.t1 * (jd + dt - Julian.J2000) == c.t1 * (jd - Julian.J2000) + c.t1 * dt;
    assert c.m1 * (jd + dt - Julian.J2000) == c.m1 * (jd - Julian.J2000) + c.m1 * dt;
  }

  /** The mean hour angle is the body's unreduced sidereal time minus its unreduced mean
      longitude, as `SiderealTime` and `MeanAnomaly` compute them before reduction. */
  lemma MeanHourAngleOfBody(b: Body, jd: real, lon: real)
    ensures MeanHourAngle(ParamsOf(b), jd, lon)
            == RawSiderealTime(b, jd, lon) - (MeanArgument(b, jd) + ParamsOf(b).perihelion + 180.0)
  {
  }

  /** The first transit estimate before its two sine corrections, jd + J3 (n - n_x), is a
      moment at which the mean hour angle is a whole number n of turns, and it lies less
      than half a solar day (half of J3) from `jd`, the later one on a tie. */
  predicate NearestMeanTurn(c: Params, k: TransitCoeffs, jd: real, lon: real)
    requires k.j3 != 0.0
  {
    var nx := DayCount(k, jd, lon);
    var t := jd + k.j3 * (RoundHalfUp(nx) as real - nx);
    && MeanHourAngle(c, t, lon) == 360.0 * RoundHalfUp(nx) as real
    && -0.5 < (t - jd) / k.j3 <= 0.5
  }

  /** For coefficients derived from a table row, the mean part of the first transit
      estimate is the nearest whole turn of the mean hour angle. */
  lemma MeanTransitEstimate(c: Params, k: TransitCoeffs, jd: real, lon: real)
    requires DerivedFrom(k, c)
    ensures NearestMeanTurn(c, k, jd, lon)
  {
    var nx := DayCount(k, jd, lon);
    var n := RoundHalfUp(nx);
    var dt := k.j3 * (n as real - nx);
    MeanHourAngleRate(c, jd, lon, dt);
    DayCountIsMeanHourAngle(c, k, jd, lon);
    NearestTurn(c.t1 - c.m1, k.j3, nx, n, MeanHourAngle(c, jd, lon), MeanHourAngle(c, jd + dt, lon));
  }

  /** For every body and edition, the first transit estimate's mean part is the nearest
      whole turn of its mean hour angle. */
  lemma BodyMeanTransitEstimate(e: Edition, b: Body, jd: real, lon: real)
    ensures NearestMeanTurn(ParamsOf(b), TransitCoeffsOf(e, b), jd, lon)
  {
    TransitCoeffsDerived(e, b);
    MeanTransitEstimate(ParamsOf(b), TransitCoeffsOf(e, b), jd, lon);
  }

  /** The arithmetic of `MeanTransitEstimate`: shifting by J3 (n - n_x) days, at 360/J3
      degrees a day, turns 360 n_x degrees into 360 n. */
  lemma NearestTurn(r: real, j3: real, nx: real, n: int, before: real, after: real)
    requires r * j3 == 360.0
    requires before == 360.0 * nx
    requires after == before + r * (j3 * (n as real - nx))
    requires -0.5 < n as real - nx <= 0.5
    ensures after == 360.0 * n as real
    ensures -0.5 < (j3 * (n as real - nx)) / j3 <= 0.5
  {
    ShiftAlgebra(r, j3, n as real - nx);
  }

  // ---------------------------------------------------------------------------
  // The horizon hour angle
  // ---------------------------------------------------------------------------

  /** At the corrected horizon hour angle the body stands at the horizon altitude h0:
      the altitude's arcsine argument equals sin h0, whenever `math.Acos` inverts
      `math.Cos` and the arccosine's argument lies in its domain. */
  lemma HorizonHourAngleReachesAltitude(m: MathLib, h0: real, lat: real, d: real)
    requires AcosInverse(m)
    requires m.cos(lat * Rad) * m.cos(d * Rad) != 0.0
    requires -1.0 <= HorizonCosine(m, h0, lat, d) <= 1.0
    ensures AltitudeSine(m, lat, d, HorizonHourAngle(m, h0, lat, d)) == m.sin(h0 * Rad)
  {
    var q := HorizonCosine(m, h0, lat, d);
    assert m.cos(HorizonHourAngle(m, h0, lat, d) * Rad) == q;
    assert (m.cos(lat * Rad) * m.cos(d * Rad)) * q == m.sin(h0 * Rad) - m.sin(lat * Rad) * m.sin(d * Rad);
  }

  /** Scaling a non-zero gap s - a by anything but 1 misses s. */
  lemma ScaledGapMisses(alt: real, a: real, s: real, c: real)
    requires alt == a + (s - a) * c
    requires s != a && c != 1.0
    ensures alt != s
  {
    var g := s - a;
    var k := c - 1.0;
    assert alt - s == g * k;
    assert g * k != 0.0 by {
      if g * k == 0.0 {
        assert false;
      }
    }
  }

  /** As written, the same hour angle reaches the arcsine argument
      sin lat sin d + (sin h0 - sin lat sin d) cos^2 d instead. */
  lemma HorizonHourAngleAsWrittenReaches(m: MathLib, h0: real, lat: real, d: real)
    requires AcosInverse(m)
    requires m.cos(lat * Rad) != 0.0
    requires -1.0 <= HorizonCosineAsWritten(m, h0, lat, d) <= 1.0
    ensures AltitudeSine(m, lat, d, HorizonHourAngleAsWritten(m, h0, lat, d))
            == m.sin(lat * Rad) * m.sin(d * Rad)
               + (m.sin(h0 * Rad) - m.sin(lat * Rad) * m.sin(d * Rad)) * (m.cos(d * Rad) * m.cos(d * Rad))
  {
    var gap := m.sin(h0 * Rad) - m.sin(lat * Rad) * m.sin(d * Rad);
    var cl := m.cos(lat * Rad);
    var cd := m.cos(d * Rad);
    var quo := Quotient(m, gap, cl);
    assert quo * cl == gap;
    var q := HorizonCosineAsWritten(m, h0, lat, d);
    assert q == quo * cd;
    assert m.cos(HorizonHourAngleAsWritten(m, h0, lat, d) * Rad) == q;
    assert (cl * cd) * q == gap * (cd * cd) by {
      assert (cl * cd) * (quo * cd) == (quo * cl) * (cd * cd);
    }
  }

  /** So, as written, the body misses the horizon altitude h0 at every declination with
      cos^2 d != 1, unless it already stands at h0 when its hour angle is 90 degrees
      (sin h0 = sin lat sin d). */
  lemma HorizonHourAngleAsWrittenMisses(m: MathLib, h0: real, lat: real, d: real)
    requires AcosInverse(m)
    requires m.cos(lat * Rad) != 0.0
    requires -1.0 <= HorizonCosineAsWritten(m, h0, lat, d) <= 1.0
    requires m.sin(h0 * Rad) != m.sin(lat * Rad) * m.sin(d * Rad)
    requires m.cos(d * Rad) * m.cos(d * Rad) != 1.0
    ensures AltitudeSine(m, lat, d, HorizonHourAngleAsWritten(m, h0, lat, d)) != m.sin(h0 * Rad)
  {
    HorizonHourAngleAsWrittenReaches(m, h0, lat, d);
    ScaledGapMisses(AltitudeSine(m, lat, d, HorizonHourAngleAsWritten(m, h0, lat, d)),
                    m.sin(lat * Rad) * m.sin(d * Rad), m.sin(h0 * Rad), m.cos(d * Rad) * m.cos(d * Rad));
  }

  // ---------------------------------------------------------------------------
  // What the loops return
  // ---------------------------------------------------------------------------

  /** Outside Jupiter and Saturn the editions solve the same transit: the first estimate
      and the correction step coincide. */
  lemma TransitEditionsAgree(e: Edition, e': Edition, m: MathLib, render: real -> string, jd: real, p: int, lon: real, fuel: nat)
    requires BodyOf(p).Some? ==> BodyOf(p).value != Jupiter && BodyOf(p).value != Saturn
    ensures Transit(e, m, render, jd, p, lon, fuel) == Transit(e', m, render, jd, p, lon, fuel)
  {
    if BodyOf(p).Some? {
      BodyTransitEditionsAgree(e, e', m, render, jd, p, lon, fuel);
    }
  }

  /** `TransitEditionsAgree` for a valid enum. */
  lemma BodyTransitEditionsAgree(e: Edition, e': Edition, m: MathLib, render: real -> string, jd: real, p: int, lon: real, fuel: nat)
    requires BodyOf(p).Some? && BodyOf(p).value != Jupiter && BodyOf(p).value != Saturn
    ensures Transit(e, m, render, jd, p, lon, fuel) == Transit(e', m, render, jd, p, lon, fuel)
  {
    var b := BodyOf(p).value;
    FirstEstimatesAgree(e, e', m, b, jd, lon);
    var j3, j3' := TransitCoeffsOf(e, b).j3, TransitCoeffsOf(e', b).j3;
    assert j3 == j3';
    assert Solve(TransitStep(HourAngleAt(m, b, lon), j3), render, TransitFirst(e, m, b, jd, lon), fuel)
        == Solve(TransitStep(HourAngleAt(m, b, lon), j3'), render, TransitFirst(e', m, b, jd, lon), fuel);
  }

  /** Outside Jupiter and Saturn the editions start the transit loop from the same
      estimate with the same J3. */
  lemma FirstEstimatesAgree(e: Edition, e': Edition, m: MathLib, b: Body, jd: real, lon: real)
    requires b != Jupiter && b != Saturn
    ensures TransitCoeffsOf(e, b) == TransitCoeffsOf(e', b)
    ensures TransitFirst(e, m, b, jd, lon) == TransitFirst(e', m, b, jd, lon)
  {
    EditionIrrelevant(e, b);
    EditionIrrelevant(e', b);
  }

  /** Two coefficient sets that differ only in J2 give first estimates that differ by the
      J2 difference times sin(2 l). */
  lemma StartDiffersByJ2(k: TransitCoeffs, k': TransitCoeffs, jd: real, lon: real, sinM: real, sin2L: real)
    requires k.j0 == k'.j0 && k.j1 == k'.j1 && k.j3 == k'.j3 && k.j3 != 0.0
    ensures TransitStart(k', jd, lon, sinM, sin2L) - TransitStart(k, jd, lon, sinM, sin2L) == (k'.j2 - k.j2) * sin2L
  {
    assert DayCount(k, jd, lon) == DayCount(k', jd, lon);
  }

  // ---------------------------------------------------------------------------
  // Sunrise mirrors sunset
  // ---------------------------------------------------------------------------

  /** The two first estimates sit symmetrically about the transit, H0/180 of J3 apart. */
  lemma StartsMirrorTransit(s: Setup)
    ensures RiseStart(s) + SetStart(s) == 2.0 * s.transit
    ensures SetStart(s) - RiseStart(s) == (s.h0 / 180.0) * s.j3
  {
  }

  /** A sunrise correction is a sunset correction with H0 negated, and the two land
      H0/180 of J3 apart from the same estimate. */
  lemma RiseStepIsSetStepNegated(hour: real -> real, j3: real, h0: real, j: real)
    ensures RiseStep(hour, j3, h0)(j) == SetStep(hour, j3, -h0)(j)
    ensures SetStep(hour, j3, h0)(j) - RiseStep(hour, j3, h0)(j) == (h0 / 180.0) * j3
  {
  }

  /** Two steps that agree everywhere give the same loop outcome. */
  lemma {:induction false} RefineSameSteps(f: real -> real, g: real -> real, render: real -> string, x: real, fuel: nat)
    requires forall y :: f(y) == g(y)
    ensures Refine(f, render, x, fuel) == Refine(g, render, x, fuel)
    decreases fuel
  {
    if fuel > 0 && render(f(x)) != render(x) {
      RefineSameSteps(f, g, render, f(x), fuel - 1);
    }
  }

  /** The sunrise loop is the sunset loop with H0 negated, from any start. */
  lemma RiseRefineIsSetRefine(hour: real -> real, j3: real, h0: real, render: real -> string, x: real, fuel: nat)
    ensures Refine(RiseStep(hour, j3, h0), render, x, fuel) == Refine(SetStep(hour, j3, -h0), render, x, fuel)
  {
    forall y ensures RiseStep(hour, j3, h0)(y) == SetStep(hour, j3, -h0)(y) {
      RiseStepIsSetStepNegated(hour, j3, h0, y);
    }
    RefineSameSteps(RiseStep(hour, j3, h0), SetStep(hour, j3, -h0), render, x, fuel);
  }

  /** The setup with the horizon hour angle negated. */
  function Mirror(s: Setup): Setup
  {
    s.(h0 := -s.h0)
  }

  /** The sunset start with H0 negated is the sunrise start. */
  lemma MirroredStart(s: Setup)
    ensures Mirror(s).j3 == s.j3 && Mirror(s).h0 == -s.h0
    ensures SetStart(Mirror(s)) == RiseStart(s)
  {
  }

  /** The sunrise loop from a setup is the sunset loop from the mirrored setup. */
  lemma MirroredLoop(hour: real -> real, s: Setup, render: real -> string, fuel: nat)
    ensures Refine(RiseStep(hour, s.j3, s.h0), render, RiseStart(s), fuel)
            == Refine(SetStep(hour, s.j3, Mirror(s).h0), render, SetStart(Mirror(s)), fuel)
  {
    MirroredStart(s);
    RiseRefineIsSetRefine(hour, s.j3, s.h0, render, RiseStart(s), fuel);
  }

  /** Sunrise is the sunset loop run with the horizon hour angle negated: the same start
      (transit - H0/360 J3) and the same corrections. */
  lemma SunriseIsSunsetNegated(e: Edition, m: MathLib, render: real -> string, jd: real, p: int, lat: real, lon: real, fuel: nat)
    requires EventSetup(e, m, render, jd, p, lat, lon, fuel).err == Nil
    ensures var s := EventSetup(e, m, render, jd, p, lat, lon, fuel);
            Sunrise(e, m, render, jd, p, lat, lon, fuel)
            == Solve(SetStep(HourAngleAt(m, BodyOf(p).value, lon), s.j3, Mirror(s).h0), render,
                     SetStart(Mirror(s)), fuel)
  {
    var s := EventSetup(e, m, render, jd, p, lat, lon, fuel);
    var hour := HourAngleAt(m, BodyOf(p).value, lon);
    assert Sunrise(e, m, render, jd, p, lat, lon, fuel)
           == Outcome(Refine(RiseStep(hour, s.j3, s.h0), render, RiseStart(s), fuel));
    assert Solve(SetStep(hour, s.j3, Mirror(s).h0), render, SetStart(Mirror(s)), fuel)
           == Outcome(Refine(SetStep(hour, s.j3, Mirror(s).h0), render, SetStart(Mirror(s)), fuel));
    MirroredLoop(hour, s, render, fuel);
  }

  // ---------------------------------------------------------------------------
  // What convergence means
  // ---------------------------------------------------------------------------

  /** A rendering that only merges values at most `tol` apart. */
  ghost predicate RenderTolerance(render: real -> string, tol: real)
  {
    forall a, b :: render(a) == render(b) ==> -tol <= a - b <= tol
  }

  /** When the transit loop converges, its last correction (H/360) J3 was at most `tol`
      days: the hour angle at the previous estimate was within 360 tol / |J3| degrees
      of 0. */
  lemma TransitConvergedNearMeridian(hour: real -> real, j3: real, render: real -> string, x: real, fuel: nat, tol: real)
    requires RenderTolerance(render, tol)
    requires Refine(TransitStep(hour, j3), render, x, fuel).Some?
    ensures exists prev :: Refine(TransitStep(hour, j3), render, x, fuel).value
                             == prev - TransitCorrection(hour, j3, prev)
                           && -tol <= TransitCorrection(hour, j3, prev) <= tol
  {
    var step := TransitStep(hour, j3);
    RefineLastStepSmall(step, render, x, fuel, tol);
    var prev :| Refine(step, render, x, fuel).value == step(prev) && -tol <= step(prev) - prev <= tol;
    assert Refine(step, render, x, fuel).value == prev - TransitCorrection(hour, j3, prev);
  }

  /** When the sunrise loop converges, its last correction ((normalize90(H) + H0)/360) J3
      was at most `tol` days: the body was that close to the horizon. */
  lemma SunriseConvergedNearHorizon(hour: real -> real, j3: real, h0: real, render: real -> string, x: real, fuel: nat, tol: real)
    requires RenderTolerance(render, tol)
    requires Refine(RiseStep(hour, j3, h0), render, x, fuel).Some?
    ensures exists prev :: Refine(RiseStep(hour, j3, h0), render, x, fuel).value
                             == prev - RiseCorrection(hour, j3, h0, prev)
                           && -tol <= RiseCorrection(hour, j3, h0, prev) <= tol
  {
    var step := RiseStep(hour, j3, h0);
    RefineLastStepSmall(step, render, x, fuel, tol);
    var prev :| Refine(step, render, x, fuel).value == step(prev) && -tol <= step(prev) - prev <= tol;
    assert Refine(step, render, x, fuel).value == prev - RiseCorrection(hour, j3, h0, prev);
  }

  /** When the sunset loop converges, its last correction ((normalize90(H) - H0)/360) J3
      was at most `tol` days. */
  lemma SunsetConvergedNearHorizon(hour: real -> real, j3: real, h0: real, render: real -> string, x: real, fuel: nat, tol: real)
    requires RenderTolerance(render, tol)
    requires Refine(SetStep(hour, j3, h0), render, x, fuel).Some?
    ensures exists prev :: Refine(SetStep(hour, j3, h0), render, x, fuel).value
                             == prev - SetCorrection(hour, j3, h0, prev)
                           && -tol <= SetCorrection(hour, j3, h0, prev) <= tol
  {
    var step := SetStep(hour, j3, h0);
    RefineLastStepSmall(step, render, x, fuel, tol);
    var prev :| Refine(step, render, x, fuel).value == step(prev) && -tol <= step(prev) - prev <= tol;
    assert Refine(step, render, x, fuel).value == prev - SetCorrection(hour, j3, h0, prev);
  }

  // ---------------------------------------------------------------------------
  // Error policy
  // ---------------------------------------------------------------------------

  /** An enum outside 0..5 makes the three solvers return 0 with `ErrInvalidEnum`. */
  lemma InvalidEnumEvents(e: Edition, m: MathLib, render: real -> string, jd: real, p: int, lat: real, lon: real, fuel: nat)
    requires p < 0 || p > 5
    ensures Transit(e, m, render, jd, p, lon, fuel) == Ret(0.0, ErrInvalidEnum)
    ensures Sunrise(e, m, render, jd, p, lat, lon, fuel) == Ret(0.0, ErrInvalidEnum)
    ensures Sunset(e, m, render, jd, p, lat, lon, fuel) == Ret(0.0, ErrInvalidEnum)
  {
  }

  /** For a valid enum the only failure of a solver is non-convergence. */
  lemma ValidEnumEvents(e: Edition, m: MathLib, render: real -> string, jd: real, p: int, lat: real, lon: real, fuel: nat)
    requires 0 <= p <= 5
    ensures Transit(e, m, render, jd, p, lon, fuel).err in {Nil, ErrNoConvergence}
    ensures Sunrise(e, m, render, jd, p, lat, lon, fuel).err in {Nil, ErrNoConvergence}
    ensures Sunset(e, m, render, jd, p, lat, lon, fuel).err in {Nil, ErrNoConvergence}
  {
  }
}
