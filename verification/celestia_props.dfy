/** Properties of the position functions of package `celestia`: the invalid-enum policy
    across all of them, the published examples, the sign behaviour of the truncated
    remainder, and the ranges the angles take under the library's documented ranges. */
module CelestiaProps {
  import opened GoNumeric
  import opened Trig
  import opened Bodies
  import opened Celestia
  import Julian

  // ---------------------------------------------------------------------------
  // Examples
  // ---------------------------------------------------------------------------

  /** Earth's and Mars's mean anomaly at JD 2453097, and the invalid enum 12. The exact
      values lie within 1e-13 of the float64 results 87.18073456000002 and
      112.65309536000007 that the tests expect. */
  lemma MeanAnomalyExamples()
    ensures MeanAnomaly(2453097.0, 2) == Ret(87.18073456, Nil)
    ensures MeanAnomaly(2453097.0, 3) == Ret(112.65309536, Nil)
    ensures MeanAnomaly(2453097.0, 12) == Ret(0.0, ErrInvalidEnum)
    ensures -0.0000000000001 < MeanAnomaly(2453097.0, 2).value - 87.18073456000002 < 0.0000000000001
    ensures -0.0000000000001 < MeanAnomaly(2453097.0, 3).value - 112.65309536000007 < 0.0000000000001
  {
    Mod360Unique(MeanArgument(Earth, 2453097.0), 87.18073456);
    Mod360Unique(MeanArgument(Mars, 2453097.0), 112.65309536);
  }

  /** A thousand days before J2000 Earth's mean-anomaly argument is negative, and the
      truncated remainder keeps the sign: the result is not in [0, 360). */
  lemma MeanAnomalyNegativeExample()
    ensures MeanAnomaly(Julian.J2000 - 1000.0, 2) == Ret(-268.07118, Nil)
  {
    Mod360Unique(MeanArgument(Earth, Julian.J2000 - 1000.0), -268.07118);
  }

  /** The two table lookups return Earth's constants, and 0 with the error otherwise. */
  lemma TableLookupExamples()
    ensures ObliquityEcliptic(2) == Ret(23.4393, Nil)
    ensures PerihelionLongitude(2) == Ret(102.9373, Nil)
    ensures ObliquityEcliptic(12) == Ret(0.0, ErrInvalidEnum)
    ensures PerihelionLongitude(12) == Ret(0.0, ErrInvalidEnum)
  {
  }

  // ---------------------------------------------------------------------------
  // Error policy
  // ---------------------------------------------------------------------------

  /** An enum outside 0..5 makes every position function return 0 with `ErrInvalidEnum`. */
  lemma InvalidEnumPositions(m: MathLib, jd: real, p: int, lat: real, lon: real)
    requires p < 0 || p > 5
    ensures MeanAnomaly(jd, p) == Ret(0.0, ErrInvalidEnum)
    ensures ObliquityEcliptic(p) == Ret(0.0, ErrInvalidEnum)
    ensures PerihelionLongitude(p) == Ret(0.0, ErrInvalidEnum)
    ensures EquationOfCenter(m, jd, p) == Ret(0.0, ErrInvalidEnum)
    ensures TrueAnomaly(m, jd, p) == Ret(0.0, ErrInvalidEnum)
    ensures EclipticLongitude(m, jd, p) == Ret(0.0, ErrInvalidEnum)
    ensures RightAscension(m, jd, p) == Ret(0.0, ErrInvalidEnum)
    ensures Declination(m, jd, p) == Ret(0.0, ErrInvalidEnum)
    ensures SiderealTime(jd, p, lon) == Ret(0.0, ErrInvalidEnum)
    ensures HourAngle(m, jd, p, lon) == Ret(0.0, ErrInvalidEnum)
    ensures Azimuth(m, jd, p, lat, lon) == Ret(0.0, ErrInvalidEnum)
    ensures Altitude(m, jd, p, lat, lon) == Ret(0.0, ErrInvalidEnum)
  {
  }

  // ---------------------------------------------------------------------------
  // Mean anomaly and longitude
  // ---------------------------------------------------------------------------

  /** Every body's table has M0 > 0 and M1 > 0, so from J2000 on the argument is
      positive and the truncated remainder lies in [0, 360). */
  lemma MeanAnomalyFromJ2000(jd: real, p: int)
    requires 0 <= p <= 5
    requires jd >= Julian.J2000
    ensures 0.0 <= MeanAnomaly(jd, p).value < 360.0
  {
    var b := BodyOf(p).value;
    assert ParamsOf(b).m0 > 0.0 && ParamsOf(b).m1 > 0.0;
    assert ParamsOf(b).m1 * (jd - Julian.J2000) >= 0.0;
  }

  /** The mean anomaly agrees with the floor-based reduction into [0, 360) exactly when
      the argument is non-negative or already a whole number of turns. */
  lemma MeanAnomalyVersusFloorMod(jd: real, p: int)
    requires 0 <= p <= 5
    ensures var x := MeanArgument(BodyOf(p).value, jd);
            var floorMod := x - 360.0 * (x / 360.0).Floor as real;
            MeanAnomaly(jd, p).value == floorMod <==> (x >= 0.0 || WholeTurns(x))
  {
    var x := MeanArgument(BodyOf(p).value, jd);
    var r := MeanAnomaly(jd, p).value;
    var q := (x / 360.0).Floor;
    var floorMod := x - 360.0 * q as real;
    assert 0.0 <= floorMod < 360.0;
    if x >= 0.0 {
      Mod360Unique(x, floorMod);
    } else if WholeTurns(x) {
      assert x / 360.0 == q as real;
      assert floorMod == 0.0;
      Mod360Unique(x, 0.0);
    }
  }

  /** The unreduced ecliptic longitude is the true anomaly plus the perihelion longitude
      plus 180 degrees. */
  lemma LongitudeIsTrueAnomalyPlusPerihelion(m: MathLib, jd: real, p: int)
    requires 0 <= p <= 5
    ensures RawLongitude(m, jd, p) == TrueAnomaly(m, jd, p).value + PerihelionLongitude(p).value + 180.0
  {
  }
}
