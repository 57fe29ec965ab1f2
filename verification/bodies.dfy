/** The body enumeration of package `celestia` and its per-body constant table. */
module Bodies {
  import opened GoNumeric

  /** The bodies the source knows, in the order of their integer enum 0..5. */
  datatype Body = Mercury | Venus | Earth | Mars | Jupiter | Saturn

  /** The enum value a caller passes for a body. */
  function EnumOf(b: Body): (p: int)
    ensures 0 <= p <= 5
  {
    match b
    case Mercury => 0
    case Venus => 1
    case Earth => 2
    case Mars => 3
    case Jupiter => 4
    case Saturn => 5
  }

  /** The `switch p` of every exported function: 0..5 select a body, anything else is
      the invalid-enum case. */
  function BodyOf(p: int): (r: Option<Body>)
    ensures r.Some? <==> 0 <= p <= 5
  {
    if p == 0 then Some(Mercury)
    else if p == 1 then Some(Venus)
    else if p == 2 then Some(Earth)
    else if p == 3 then Some(Mars)
    else if p == 4 then Some(Jupiter)
    else if p == 5 then Some(Saturn)
    else None
  }

  /** The enum encoding is a bijection between 0..5 and the bodies. */
  lemma EnumRoundTrip(b: Body, p: int)
    ensures BodyOf(EnumOf(b)) == Some(b)
    ensures BodyOf(p).Some? ==> EnumOf(BodyOf(p).value) == p
  {
  }

  /** One row of the constant table: mean anomaly M0 + M1 (jd - J2000); obliquity E;
      perihelion longitude P; equation-of-center coefficients C1..C6; sidereal time
      T0 + T1 (jd - J2000); the factor of J2 in the transit formula; the horizon
      altitude h0 of sunrise and sunset. */
  datatype Params = Params(
    m0: real, m1: real,
    obliquity: real,
    perihelion: real,
    c1: real, c2: real, c3: real, c4: real, c5: real, c6: real,
    t0: real, t1: real,
    j2Factor: real,
    h0: real)

  /** The constant table, as the source writes it. The J2 factor is the constant the
      transit switch multiplies by J3/360 (Mercury's J2 is the literal 0): for Venus,
      Earth and Mars it is -tan^2(E/2) in degrees, while Jupiter and Saturn repeat
      Mars's -2.8608 (see `CorrectedJ2Factor`). */
  function ParamsOf(b: Body): (r: Params)
    ensures r.t1 != r.m1
    ensures r.m0 > 0.0 && r.m1 > 0.0
    ensures r.c1 >= 0.0 && r.c2 >= 0.0 && r.c3 >= 0.0 && r.c4 >= 0.0 && r.c5 >= 0.0 && r.c6 >= 0.0
    ensures 0.0 <= r.m0 < 360.0 && 0.0 <= r.perihelion < 360.0 && 0.0 <= r.t0 < 360.0
    ensures -1.0 < r.h0 < 0.0
    ensures r.j2Factor <= 0.0
  {
    match b
    case Mercury => Params(174.7948, 4.09233445, 0.0351, 230.3265,
                           23.4400, 2.9818, 0.5255, 0.1058, 0.0241, 0.0055,
                           132.3282, 6.1385025, 0.0, -0.69)
    case Venus => Params(50.4161, 1.60213034, 2.6376, 73.7576,
                         0.7758, 0.0033, 0.0000, 0.0000, 0.0000, 0.0000,
                         104.9067, -1.4813688, -0.0304, -0.37)
    case Earth => Params(357.5291, 0.98560028, 23.4393, 102.9373,
                         1.9148, 0.0200, 0.0003, 0.0000, 0.0000, 0.0000,
                         280.1470, 360.9856235, -2.4657, -0.83)
    case Mars => Params(19.3730, 0.52402068, 25.1918, 71.0041,
                        10.6912, 0.6228, 0.0503, 0.0046, 0.0005, 0.0000,
                        313.3827, 350.89198226, -2.8608, -0.17)
    case Jupiter => Params(20.0202, 0.08308529, 3.1189, 237.1015,
                           5.5549, 0.1683, 0.0071, 0.0003, 0.0000, 0.0000,
                           145.9722, 870.5360000, -2.8608, -0.05)
    case Saturn => Params(317.0207, 0.03344414, 26.7285, 99.4587,
                          6.3585, 0.2204, 0.0106, 0.0006, 0.0000, 0.0000,
                          174.3508, 810.7939024, -2.8608, -0.03)
  }

  /** The transit coefficients the `Transit` switch derives from the table. */
  datatype TransitCoeffs = TransitCoeffs(j0: real, j1: real, j2: real, j3: real)

  /** J3 is the body's solar day: the mean hour angle, advancing T1 - M1 degrees a day,
      turns once every J3 days. */
  predicate OneTurnPerJ3(k: TransitCoeffs, c: Params)
  {
    (c.t1 - c.m1) * k.j3 == 360.0
  }

  /** What J0 and J3 encode: the mean hour angle (T1 - M1 degrees a day) turns once
      every J3 days, and J0 is the mean-longitude-minus-sidereal-time offset
      M0 + P + 180 - T0, in J3/360 days per degree. */
  predicate DerivedFrom(k: TransitCoeffs, c: Params)
  {
    && OneTurnPerJ3(k, c)
    && k.j0 == (c.m0 + c.perihelion + 180.0 - c.t0) * (k.j3 / 360.0)
  }

  /** A rate in degrees (per day) turned into days, x J3/360. */
  function PerDegree(x: real, k: TransitCoeffs): real
  {
    x * (k.j3 / 360.0)
  }

  /** J3 = 360 / (T1 - M1), J0 = (M0 + P + 180 - T0) J3/360, J1 = C1 J3/360 and
      J2 = factor J3/360, for a table row and a J2 factor. */
  function Derive(p: Params, factor: real): (k: TransitCoeffs)
    requires p.t1 != p.m1
    ensures k.j3 != 0.0
    ensures k.j3 > 0.0 <==> p.t1 > p.m1
  {
    var j3 := 360.0 / (p.t1 - p.m1);
    TransitCoeffs((p.m0 + p.perihelion + 180.0 - p.t0) * (j3 / 360.0),
                  p.c1 * (j3 / 360.0),
                  factor * (j3 / 360.0),
                  j3)
  }

  /** J3 as the quotient the source writes. */
  lemma DeriveJ3(p: Params, factor: real)
    requires p.t1 != p.m1
    ensures Derive(p, factor).j3 == 360.0 / (p.t1 - p.m1)
  {
  }

  /** `Derive` produces coefficients with the meaning `DerivedFrom` states, and J1 and J2
      are C1 and the factor in J3/360 days per degree. */
  lemma DeriveIsDerived(p: Params, factor: real)
    requires p.t1 != p.m1
    ensures DerivedFrom(Derive(p, factor), p)
    ensures Derive(p, factor).j1 == PerDegree(p.c1, Derive(p, factor))
    ensures Derive(p, factor).j2 == PerDegree(factor, Derive(p, factor))
  {
  }

  /** Which transit and horizon formulas the event solvers use: the source's, or the
      corrected ones (J2 factor -tan^2(E/2) in degrees for every body; the horizon hour
      angle divided by cos(lat) cos(d)). */
  datatype Edition = AsWritten | Corrected

  /** The J2 factor -tan^2(E/2) in degrees for every body: the source's own factor for
      Mercury to Mars, -0.0425 for Jupiter and -3.2339 for Saturn in place of the
      repeated -2.8608. */
  function CorrectedJ2Factor(b: Body): (f: real)
    ensures b != Jupiter && b != Saturn <==> f == ParamsOf(b).j2Factor
  {
    match b
    case Jupiter => -0.0425
    case Saturn => -3.2339
    case _ => ParamsOf(b).j2Factor
  }

  /** The J2 factor an edition uses. */
  function J2Factor(e: Edition, b: Body): real
  {
    match e
    case AsWritten => ParamsOf(b).j2Factor
    case Corrected => CorrectedJ2Factor(b)
  }

  /** The transit coefficients `Transit` derives for a body from its table row (their
      meaning is `TransitCoeffsDerived`). J3 is negative exactly for Venus, whose
      sidereal time runs backwards against its mean anomaly (T1 < M1). */
  function TransitCoeffsOf(e: Edition, b: Body): (k: TransitCoeffs)
    ensures k.j3 != 0.0
    ensures k.j3 < 0.0 <==> b == Venus
  {
    Derive(ParamsOf(b), J2Factor(e, b))
  }

  /** In both editions J0 and J3 encode the body's mean hour angle, which turns once
      every J3 days; J1 is C1 and J2 the edition's factor, each in J3/360 days per
      degree. */
  lemma TransitCoeffsDerived(e: Edition, b: Body)
    ensures DerivedFrom(TransitCoeffsOf(e, b), ParamsOf(b))
    ensures TransitCoeffsOf(e, b).j1 == PerDegree(ParamsOf(b).c1, TransitCoeffsOf(e, b))
    ensures TransitCoeffsOf(e, b).j2 == PerDegree(J2Factor(e, b), TransitCoeffsOf(e, b))
  {
    DeriveIsDerived(ParamsOf(b), J2Factor(e, b));
  }

  /** Two J2 factors give coefficients that agree in J0, J1 and J3, and are equal
      exactly when the factors are. */
  lemma DeriveByFactor(p: Params, f: real, g: real)
    requires p.t1 != p.m1
    ensures var a, c := Derive(p, f), Derive(p, g);
            a.j0 == c.j0 && a.j1 == c.j1 && a.j3 == c.j3
    ensures Derive(p, f) == Derive(p, g) <==> f == g
  {
    DeriveJ3(p, f);
    DeriveJ3(p, g);
    if f != g {
      ScaledDiffers(f, g, Derive(p, f).j3 / 360.0);
    }
  }

  /** The two editions derive the same J0, J1 and J3 for every body, and the same J2
      except for Jupiter and Saturn, where they differ. */
  lemma EditionsDifferOnlyInJ2(b: Body)
    ensures var w, c := TransitCoeffsOf(AsWritten, b), TransitCoeffsOf(Corrected, b);
            w.j0 == c.j0 && w.j1 == c.j1 && w.j3 == c.j3
    ensures (b != Jupiter && b != Saturn) <==> TransitCoeffsOf(AsWritten, b) == TransitCoeffsOf(Corrected, b)
  {
    var f, g := J2Factor(AsWritten, b), J2Factor(Corrected, b);
    DeriveByFactor(ParamsOf(b), f, g);
    assert f == g <==> b != Jupiter && b != Saturn;
  }

  /** Outside Jupiter and Saturn the edition does not matter. */
  lemma EditionIrrelevant(e: Edition, b: Body)
    requires b != Jupiter && b != Saturn
    ensures TransitCoeffsOf(e, b) == TransitCoeffsOf(AsWritten, b)
  {
    if e == Corrected {
      EditionsDifferOnlyInJ2(b);
    }
  }

  /** Scaling by a non-zero factor keeps distinct values distinct. */
  lemma ScaledDiffers(a: real, b: real, s: real)
    requires a != b && s != 0.0
    ensures a * s != b * s
  {
    assert a * s - b * s == (a - b) * s;
  }

  /** The transit constants the source publishes (and never reads) beside the table:
      J0 (reduced by whole J3), J1, J2 and J3, to four decimals or more. */
  function PublishedTransitCoeffs(b: Body): TransitCoeffs
  {
    match b
    case Mercury => TransitCoeffs(45.3497, 11.4556, 0.0000, 175.9386)
    case Venus => TransitCoeffs(52.1268, -0.2516, 0.0099, -116.7505)
    case Earth => TransitCoeffs(0.0009, 0.0053, -0.0068, 1.0000)
    case Mars => TransitCoeffs(0.9047, 0.0305, -0.0082, 1.027491)
    case Jupiter => TransitCoeffs(0.3345, 0.0064, 0.0000, 0.4135778)
    case Saturn => TransitCoeffs(0.0766, 0.0078, -0.0040, 0.4440276)
  }

  /** |a - b| < 0.00005: `a` rounds to the four-decimal `b`. */
  predicate CloseTo(a: real, b: real)
  {
    -0.00005 < a - b < 0.00005
  }

  /** With the corrected factors, the J1, J2 and J3 that `Transit` derives from the table
      agree with the published constants to their four decimals, for every body. (J1 and
      J3 are the same in both editions.) */
  lemma TransitCoeffsMatchPublished(b: Body)
    ensures CloseTo(TransitCoeffsOf(Corrected, b).j1, PublishedTransitCoeffs(b).j1)
    ensures CloseTo(TransitCoeffsOf(Corrected, b).j2, PublishedTransitCoeffs(b).j2)
    ensures CloseTo(TransitCoeffsOf(Corrected, b).j3, PublishedTransitCoeffs(b).j3)
  {
    J3MatchesPublished(b);
    J1MatchesPublished(b);
    J2MatchesPublished(b);
  }

  /** The solar day J3, derived from the table, rounds to the published constant. */
  lemma J3MatchesPublished(b: Body)
    ensures CloseTo(TransitCoeffsOf(Corrected, b).j3, PublishedTransitCoeffs(b).j3)
  {
    DeriveJ3(ParamsOf(b), CorrectedJ2Factor(b));
  }

  /** The equation-of-center coefficient J1, derived from the table, rounds to the published constant. */
  lemma J1MatchesPublished(b: Body)
    ensures CloseTo(TransitCoeffsOf(Corrected, b).j1, PublishedTransitCoeffs(b).j1)
  {
    DeriveJ3(ParamsOf(b), CorrectedJ2Factor(b));
  }

  /** The J2 coefficient, derived from the table, rounds to the published constant. */
  lemma J2MatchesPublished(b: Body)
    ensures CloseTo(TransitCoeffsOf(Corrected, b).j2, PublishedTransitCoeffs(b).j2)
  {
    DeriveJ3(ParamsOf(b), CorrectedJ2Factor(b));
  }

  /** The J0 that `Transit` derives (the same in both editions) is within rounding of the published J0 plus `n`
      times J3 (one solar day of the body). */
  predicate J0ShiftedBy(b: Body, n: int)
  {
    CloseTo(TransitCoeffsOf(AsWritten, b).j0, PublishedTransitCoeffs(b).j0 + n as real * TransitCoeffsOf(AsWritten, b).j3)
  }

  /** Derived and published J0 differ by whole solar days, so either gives the same day
      count up to a whole number. */
  lemma TransitJ0MatchesPublishedUpToTurns(b: Body)
    ensures exists n: int :: J0ShiftedBy(b, n)
  {
    var n := match b
             case Mars => -1
             case Jupiter => 0
             case _ => 1;
    assert J0ShiftedBy(b, n);
  }

  /** As written, Jupiter's J2 is -0.0033 where the published constant is 0, and
      Saturn's -0.0035 where it is -0.0040. */
  lemma TransitJ2AsWrittenMismatch()
    ensures !CloseTo(TransitCoeffsOf(AsWritten, Jupiter).j2, PublishedTransitCoeffs(Jupiter).j2)
    ensures TransitCoeffsOf(AsWritten, Jupiter).j2 < -0.0032
    ensures !CloseTo(TransitCoeffsOf(AsWritten, Saturn).j2, PublishedTransitCoeffs(Saturn).j2)
    ensures TransitCoeffsOf(AsWritten, Saturn).j2 > -0.0036
  {
    RepeatedFactorJ2(Jupiter);
    RepeatedFactorJ2(Saturn);
  }

  /** Jupiter's and Saturn's J2 as written: Mars's factor -2.8608 times the body's J3/360. */
  lemma RepeatedFactorJ2(b: Body)
    requires b == Jupiter || b == Saturn
    ensures TransitCoeffsOf(AsWritten, b).j2 == -2.8608 * ((360.0 / (ParamsOf(b).t1 - ParamsOf(b).m1)) / 360.0)
  {
    DeriveJ3(ParamsOf(b), ParamsOf(b).j2Factor);
    assert TransitCoeffsOf(AsWritten, b) == Derive(ParamsOf(b), ParamsOf(b).j2Factor);
  }
}
