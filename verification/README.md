# celestia — a Dafny model of the planetary position and rise/set calculator

The Go library `celestia` computes where the Sun stands in the sky as seen from
Mercury, Venus, Earth, Mars, Jupiter or Saturn. Package `julian` converts a calendar
date-time to a Julian Day, a Julian Day to a day of the year, and a Julian Day to a
century count. Package `celestia` runs a chain of functions. Each takes the body as an
integer enum 0..5 and returns a `(float64, error)` pair:

- mean anomaly, equation of center, true anomaly and ecliptic longitude;
- right ascension and declination;
- sidereal time and hour angle;
- azimuth and altitude;
- the transit, sunrise and sunset moments, which are found by fixed-point loops.

The model mirrors that structure:

| Dafny module | file | models |
|---|---|---|
| `GoNumeric` | go_numeric.dfy | `math.Floor`/`Ceil`, Go's truncating `int` division, `math.Mod(x, 360)`, the transit's half-up rounding |
| `Gregorian` | gregorian.dfy | the proleptic Gregorian calendar from first principles: the independent reference for the Julian-day formulas |
| `Julian` | julian.dfy | `julian.go` |
| `Bodies` | bodies.dfy | the body enum and the constant table of `celestia.go`, and the transit coefficients derived from it |
| `Trig` | trig.dfy | the `math` trigonometry, kept uninterpreted, plus the degree/radian conversion |
| `OrbitSeries` | center_series.dfy | the six-term equation-of-center series |
| `Celestia` | celestia.dfy | the position functions |
| `Refinement` | refinement.dfy | the "repeat until the `%.6f` rendering holds" loop shared by the three solvers |
| `CelestiaEvents` | events.dfy | `Transit`, `Sunrise`, `Sunset` |
| `CelestiaProps`, `EventProps` | celestia_props.dfy, events_props.dfy | properties relating several calls |

How Go concepts are represented:

- Go's `float64` is an exact `real`.
- Go's `int` and `uint` are unbounded integers. Truncating division and `uint`
  wrap-around are written out.
- `math.Sin`, `math.Cos`, `math.Tan`, `math.Atan`, `math.Atan2`, `math.Asin` and
  `math.Acos` are fields of a `MathLib` value. Every trigonometric function takes that
  value as a parameter.
- A property that needs the library to behave is stated under an explicit hypothesis,
  for example `SinCosBounded`, `Pythagorean`, `Atan2InRange`, `AsinInRange` or
  `AcosInverse`.
- `fmt.Sprintf("%.6f", x)` is a `render: real -> string` parameter.
- The source's unbounded `for {}` loops take a `fuel: nat` bound. Running out of fuel
  is reported as `ErrNoConvergence`, which the Go code does not have.

Where the code and its comment disagree, the model follows the code:

- `normalize90`'s comment (celestia/celestia.go:159) promises −90..90. The function is
  the identity on [−180, 180] and only shifts by one turn outside that.

The model also follows the code in three places where no comment promises more:

- `MeanAnomaly` uses `math.Mod`, which keeps the sign of the dividend. Before
  J2000 − M0/M1 the result is negative or zero (zero at whole turns), not in [0, 360).
- `Declination` uses `math.Atan`.
- The ecliptic longitude and the sidereal time are reduced only from above
  (`for x > 360`). A negative value is kept as is.

The solvers take an `Edition`. With `AsWritten` they compute what the code computes,
including the two formulas recorded under "## Findings": the J2 factor −2.8608 that
Jupiter and Saturn share with Mars, and the horizon cosine multiplied by cos d instead
of divided by it. With `Corrected` they use the corrected factor and hour angle. Every
solver property is proved for both editions.

## Model

| member | source | states |
|---|---|---|
| `GoNumeric.Mod360` | celestia/celestia.go:176-198 | `math.Mod(x, 360)`: a whole number of turns from `x`, magnitude below 360, sign of `x` |
| `GoNumeric.Mod360Unique` | celestia/celestia.go:176-198 | those three properties determine the truncated remainder uniquely |
| `GoNumeric.RoundHalfUp` | celestia/celestia.go:591-597 | the `Ceil`-if-fraction-at-least-half-else-`Floor` choice returns n with n − n_x in (−1/2, 1/2] |
| `GoNumeric.RoundHalfUpIsFloorPlusHalf` | celestia/celestia.go:591-597 | that choice equals floor(n_x + 1/2) |
| `GoNumeric.Quo` | julian/julian.go:75-77 | Go's integer `/` by a positive divisor truncates toward zero: the remainder a − bq lies in [0, b) for a ≥ 0 and in (−b, 0] for a < 0 |
| `Julian.MonthShift` | julian/julian.go:75-77 | `(month − 14) / 12` is −1 for January and February and 0 for March to December |
| `Julian.ToJulianDay` | julian/julian.go:74-87 | for a valid date-time, once the added zone offset is taken back out, the Julian Day falls in the civil day floor(jd + 0.5) numbered by the date; 2000-01-01 12:00 UTC is J2000 |
| `Julian.ToJulianDaySeconds` | julian/julian.go:74-87 | the Julian Day is the day number plus the seconds since noon, zone offset added as written, over 86400 |
| `Julian.ToJulianDayNextDay` | julian/julian.go:74-87 | the same clock reading on the next Gregorian date is exactly one Julian Day later (years ≥ −4799) |
| `Julian.DayNumberCountsDays` | julian/julian.go:75-78 | the integer part A + B − C + D grows by exactly 1 from each Gregorian date to the next (years ≥ −4799) |
| `Julian.DayNumberBeforeYearLimit` | julian/julian.go:75-78 | below year −4799 the formula stops counting days: −4800-03-01 repeats the day number of −4800-02-29, and −4803-03-01 is two after −4803-02-28 |
| `Julian.DayNumber` | julian/julian.go:75-78 | A + B − C + D is anchored at the calendar: 2000-01-d is day 2451544 + d and 1582-10-d is day 2299146 + d |
| `Julian.DayNumberMonthStep` | julian/julian.go:75-78 | from the first of a month to the first of the next, the day number grows by that month's length |
| `Julian.DayNumberYearStep` | julian/julian.go:75-78 | from 1 December to 1 January of the next year it grows by 31 |
| `Julian.DayNumberFebruary` | julian/julian.go:75-78 | across February it grows by 28 or 29 according to the Gregorian leap rule |
| `Julian.DayNumberDayShift` | julian/julian.go:78 | within a month the day number moves one for one with the day |
| `Julian.DayNumberEarlyMonths` | julian/julian.go:75-78 | closed form of A + B − C + D for January and February |
| `Julian.DayNumberLateMonths` | julian/julian.go:75-78 | closed form of A + B − C + D for March to December |
| `Julian.MonthTermStep` | julian/julian.go:76 | the term 367(m − 2)/12 steps by the Gregorian month length |
| `Julian.FourYearCycle` | julian/julian.go:75 | the term 1461 y / 4 steps by 365, or 366 every fourth year |
| `Julian.CenturyCorrection` | julian/julian.go:77 | the term 3(y/100)/4 drops one day in three centuries out of four |
| `Julian.DayNumberAtJ2000` | julian/julian.go:23 | 2000-01-01 is day 2451545, and its UTC noon is exactly J2000 |
| `Julian.NoonIsWholeAndOffsetAdds` | julian/julian.go:79-86 | noon at offset 0 is a whole Julian day; one hour more offset adds 1/24 day |
| `Julian.ToJulianDayExample` | julian/julian_test.go:49 | 2000-01-01T18:11:10−01:00 gives 2451545 + 18670/86400, within 1e−9 of the expected float |
| `Julian.ToJulianDayUtc` | julian/julian.go:83-86 | the corrected conversion subtracts the offset; it agrees with `ToJulianDay` at offset 0 |
| `Julian.ToJulianDayUtcZoneFree` | julian/julian.go:83-86 | the corrected conversion gives one instant the same Julian Day in every zone |
| `Julian.ToJulianDayZoneDrift` | julian/julian.go:83-86 | as written, one instant read in a zone k hours further east gets a Julian Day k/12 larger |
| `Julian.ToJulianDayOffsetCounterexample` | julian/julian_test.go:49 | 18:11:10−01:00 and 19:11:10Z are one instant but get Julian Days 2 hours apart as written |
| `Julian.ToJulianCentury` | julian/julian.go:90-92 | jd days counted in Gregorian centuries of 36524.25 days, times 365.25 |
| `Julian.ToJulianCenturyScale` | julian/julian.go:90-92 | the scaling is linear, maps 36524.25 days to 365.25, and has no J2000 origin |
| `Julian.ToJulianCenturyExample` | julian/julian_test.go:68 | 2000-01-01T18:11:10Z scales to 24515.955985266733 within 1e−9 |
| `Julian.CivilDay` | julian/julian.go:31-32 | z = floor(jd + 0.5) leaves a fraction f in [0, 1) |
| `Julian.SolarDate` | julian/julian.go:30-61 | the decoded month is 1..12 and the day is 1..31 for every Julian Day |
| `Julian.MonthSpan` | julian/julian.go:42-47 | B − D lies in 123..488, so E is 4..15 and the day in month E is 1..31 |
| `Julian.EBounds` | julian/julian.go:45-47 | for n in 123..488, n − floor(30.6001 · floor(n/30.6001)) is 1..31 |
| `Julian.CorrectedDay` | julian/julian.go:35-40 | before day 2299161 (1582-10-15) A = Z; from it on A is at least Z + 10, the ten days the Gregorian reform dropped |
| `Julian.CalendarSwitch` | julian/julian.go:35-40 | the Gregorian correction starts at day 2299161: 1582-10-04 is followed by 1582-10-15 |
| `Julian.LeapFlag` | julian/julian.go:62-68 | K is 1 exactly in Gregorian leap years and 2 otherwise |
| `Julian.DayOfYear` | julian/julian.go:70 | N is a Go `uint`: the formula is reduced modulo 2^64 and lands below 2^64 |
| `Julian.DayOfYearBounds` | julian/julian.go:70 | for months 1..12 and days 1..31 N never wraps and lies in 1..366 |
| `Julian.DayOfYearCounts` | julian/julian.go:62-70 | for a valid date N is the number of days before its month plus the day, hence 1..365 or 1..366 |
| `Julian.MeeusMonthOffset` | julian/julian.go:70 | 275M/9 − k((M + 9)/12) − 30 equals the days before month M, in leap and common years |
| `Julian.DaysBeforeMonthGrows` | julian/julian.go:70 | later months start after earlier months end |
| `Julian.ToSolarDay` | julian/julian.go:30-71 | the day of the year is in 1..366 for every Julian Day |
| `Julian.ToSolarDayExample` | julian/julian_test.go:31 | JD 2451545.2577546295 is 2000-01-01, day 1 |
| `Bodies.EnumOf` | celestia/celestia.go:180-195 | every body has an enum in 0..5 |
| `Bodies.BodyOf` | celestia/celestia.go:180-195 | `switch p` selects a body exactly for 0..5 |
| `Bodies.EnumRoundTrip` | celestia/celestia.go:180-195 | enum and body are inverse on 0..5 |
| `Bodies.ParamsOf` | celestia/celestia.go:25-151 | every row of the constant table has T1 ≠ M1, M1 > 0, M0, P and T0 in [0, 360), C1..C6 ≥ 0 and a horizon altitude h0 in (−1, 0); the J2 factor it records is the one the transit switch (celestia.go:556-581) uses, ≤ 0 |
| `Bodies.Derive` | celestia/celestia.go:552-581 | J3 = 360/(T1 − M1) is non-zero for any row with T1 ≠ M1, and positive exactly when the sidereal time T1 outruns the mean anomaly M1 |
| `Bodies.CorrectedJ2Factor` | celestia/celestia.go:552-581 | the corrected J2 factor equals the source's exactly for the bodies other than Jupiter and Saturn |
| `Bodies.TransitCoeffsOf` | celestia/celestia.go:551-581 | J3 = 360/(T1 − M1) is non-zero, and negative exactly for Venus, whose sidereal time runs against its mean anomaly |
| `Bodies.TransitCoeffsDerived` | celestia/celestia.go:551-581 | in either edition J3 turns the mean hour angle once (T1 − M1 degrees a day times J3 is 360), and J0, J1 and J2 are M0 + P + 180 − T0, C1 and the edition's J2 factor, each at J3/360 days per degree |
| `Bodies.EditionsDifferOnlyInJ2` | celestia/celestia.go:552-581 | the two editions agree on J0, J1 and J3, and entirely exactly for the bodies other than Jupiter and Saturn |
| `Bodies.EditionIrrelevant` | celestia/celestia.go:552-571 | outside Jupiter and Saturn either edition gives the source's coefficients |
| `Bodies.RepeatedFactorJ2` | celestia/celestia.go:572-581 | as written, Jupiter's and Saturn's J2 is Mars's factor −2.8608 times their own J3/360 |
| `Bodies.TransitJ2AsWrittenMismatch` | celestia/celestia.go:572-581 | as written, Jupiter's J2 is below −0.0032 against a published 0, and Saturn's above −0.0036 against −0.0040 |
| `Bodies.TransitCoeffsMatchPublished` | celestia/celestia.go:115-138 | with the corrected factors, J1, J2 and J3 of every body round to the published four-decimal constants |
| `Bodies.TransitJ0MatchesPublishedUpToTurns` | celestia/celestia.go:115-138 | the derived J0 equals the published one up to whole multiples of J3 |
| `Trig.Quotient` | celestia/celestia.go:634-635 | Go's float `x / y` times `y` is `x` whenever `y ≠ 0` |
| `Trig.Degrees` | celestia/celestia.go:26-27 | `* DEG` is undone by `* RAD`, and maps (−π, π] and [−π/2, π/2] onto (−180, 180] and [−90, 90] |
| `Trig.Atan2Degrees` | celestia/celestia.go:391 | `math.Atan2 · DEG` lies in (−180, 180] under the library's documented range |
| `Celestia.Normalize90` | celestia/celestia.go:159-168 | moves by 0 or ±360; identity on [−180, 180]; lands in [−180, 180] exactly for inputs in [−540, 540] |
| `Celestia.WrapAbove360` | celestia/celestia.go:366-368 | result ≤ 360, a whole number of turns from the input, unchanged up to 360, in [0, 360) above it |
| `Celestia.WrapLoop` | celestia/celestia.go:448-450 | the reduction loop runs at most once, exactly when the input exceeds 360 |
| `Celestia.MeanAnomaly` | celestia/celestia.go:176-198 | invalid enum gives (0, ErrInvalidEnum); otherwise a value in (−360, 360), whole turns from M0 + M1(jd − J2000), with its sign |
| `Celestia.ObliquityEcliptic` | celestia/celestia.go:204-226 | the body's E constant, or (0, ErrInvalidEnum) |
| `Celestia.PerihelionLongitude` | celestia/celestia.go:233-255 | the body's P constant, or (0, ErrInvalidEnum) |
| `Celestia.EquationOfCenter` | celestia/celestia.go:264-320 | error policy; with sines in [−1, 1] the series is bounded by C1 + … + C6 |
| `OrbitSeries.TermBounds` | celestia/celestia.go:272-275 | each term Ck · sin(k M) is within ±Ck when sines are bounded |
| `OrbitSeries.CenterSeries` | celestia/celestia.go:272-275 | with sines in [−1, 1] and non-negative coefficients the six-term series lies within ±(C1 + … + C6) |
| `Celestia.TrueAnomaly` | celestia/celestia.go:327-340 | M + C with errors passed through |
| `Celestia.EclipticLongitude` | celestia/celestia.go:347-371 | result ≤ 360 and whole turns from M + P + 180 + C; unchanged up to 360, in [0, 360) above |
| `Celestia.RightAscension` | celestia/celestia.go:380-398 | error policy; in (−180, 180] when `math.Atan2` keeps its range |
| `Celestia.Declination` | celestia/celestia.go:402-420 | error policy; in (−90, 90) when `math.Atan` keeps its range |
| `Celestia.SiderealTime` | celestia/celestia.go:427-455 | result ≤ 360, whole turns from T0 + T1(jd − J2000) − lon, unchanged up to 360 |
| `Celestia.HourAngle` | celestia/celestia.go:465-480 | sidereal time minus right ascension, errors passed through |
| `Celestia.Azimuth` | celestia/celestia.go:490-515 | error policy; in (−180, 180] when `math.Atan2` keeps its range |
| `Celestia.AltitudeSine` | celestia/celestia.go:531-534 | with sin² + cos² = 1 and cosines in [−1, 1] the arcsine's argument lies in [−1, 1] |
| `Celestia.Altitude` | celestia/celestia.go:520-535 | error policy; in [−90, 90] for a consistent sine/cosine pair and `math.Asin` in range |
| `CelestiaProps.MeanAnomalyExamples` | solarposition/solarposition_test.go:32-34 | Earth at JD 2453097 gives 87.18073456 and Mars 112.65309536, each within 1e−13 of the float64 value the test expects; enum 12 fails |
| `CelestiaProps.MeanAnomalyNegativeExample` | celestia/celestia.go:186 | 1000 days before J2000 Earth's mean anomaly is −268.07118 |
| `CelestiaProps.TableLookupExamples` | celestia/celestia_test.go:53-54 | Earth's obliquity 23.4393 and perihelion 102.9373; enum 12 fails |
| `CelestiaProps.InvalidEnumPositions` | celestia/celestia.go:193-194 | every position function returns (0, ErrInvalidEnum) outside 0..5 |
| `CelestiaProps.MeanAnomalyFromJ2000` | celestia/celestia.go:176-198 | from J2000 on the mean anomaly is in [0, 360) for every body |
| `CelestiaProps.MeanAnomalyVersusFloorMod` | celestia/celestia.go:176-198 | the result equals the floor-based reduction into [0, 360) exactly when the argument is non-negative or whole turns |
| `CelestiaProps.LongitudeIsTrueAnomalyPlusPerihelion` | celestia/celestia.go:363-365 | the unreduced longitude is the true anomaly plus P plus 180 |
| `Refinement.Refine` | celestia/celestia.go:602-616 | a found value is one step past a value whose `%.6f` rendering it repeats |
| `Refinement.RefineLoop` | celestia/celestia.go:602-616 | the loop, statement for statement, computes `Refine` |
| `Refinement.RefineFindsFirstStop` | celestia/celestia.go:602-616 | the loop returns the value after the first step whose rendering repeats |
| `Refinement.RefineResultIsFirstStop` | celestia/celestia.go:602-616 | any result is such a first stable step |
| `Refinement.RefineNoneIffNoStop` | celestia/celestia.go:602-616 | fuel runs out exactly when no step within it is stable |
| `Refinement.RefineFuelMonotone` | celestia/celestia.go:602-616 | more fuel never changes a found result |
| `Refinement.RefineLastStepSmall` | celestia/celestia.go:608-612 | when rendering merges only values `tol` apart, the final step moved by at most `tol` |
| `CelestiaEvents.Outcome` | celestia/celestia.go:602-618 | success exactly when the loop found a value, carrying it; otherwise (0, ErrNoConvergence) |
| `CelestiaEvents.Solve` | celestia/celestia.go:602-618 | the loop returns the value after the first correction whose `%.6f` rendering repeats, and reports non-convergence exactly when no correction within the fuel does |
| `CelestiaEvents.TransitStart` | celestia/celestia.go:592-599 | rounding n_x to the nearest day moves the first estimate by at most half of J3, in magnitude, from jd + J1 sin M + J2 sin 2l |
| `CelestiaEvents.Transit` | celestia/celestia.go:542-619 | error policy; for a valid enum the first step of J −= (H/360) J3 from the first estimate whose rendering repeats, or (0, ErrNoConvergence) exactly when none within the fuel does |
| `CelestiaEvents.HorizonCosineAsWritten` | celestia/celestia.go:633-636 | the source's grouping gives the corrected cosine when cos d = 1, and 0 instead of a division by zero when cos d = 0 |
| `CelestiaEvents.HorizonHourAngleAsWritten` | celestia/celestia.go:633-637 | as written, H0 · RAD is acos((sin h0 − sin lat sin d) / cos lat · cos d) |
| `CelestiaEvents.HorizonHourAngle` | celestia/celestia.go:633-637 | corrected: H0 · RAD is acos((sin h0 − sin lat sin d) / (cos lat cos d)) |
| `CelestiaEvents.HorizonHourAngleIn` | celestia/celestia.go:633-637 | H0 · RAD is the arccosine of the edition's horizon cosine |
| `CelestiaEvents.EventSetup` | celestia/celestia.go:623-675 | an invalid enum fails with ErrInvalidEnum; a valid one succeeds exactly when `Transit` does, fails only by non-convergence, and on success carries `Transit`'s value, the edition's H0 and the body's J3 |
| `CelestiaEvents.Sunrise` | celestia/celestia.go:623-697 | error policy; setup errors pass through; otherwise the first step of J −= ((normalize90(H) + H0)/360) J3 from transit − (H0/360) J3 whose rendering repeats, or non-convergence exactly when none does |
| `CelestiaEvents.Sunset` | celestia/celestia.go:701-775 | error policy; setup errors pass through; otherwise the first step of J −= ((normalize90(H) − H0)/360) J3 from transit + (H0/360) J3 whose rendering repeats, or non-convergence exactly when none does |
| `EventProps.DayCountIsMeanHourAngle` | celestia/celestia.go:592 | for coefficients derived from a table row, 360 n_x is the sidereal time minus the mean longitude M0 + M1(jd − J2000) + P + 180 |
| `EventProps.MeanHourAngleRate` | celestia/celestia.go:551-556 | the mean hour angle advances T1 − M1 degrees per day |
| `EventProps.MeanTransitEstimate` | celestia/celestia.go:592-599 | for any table whose J0 and J3 are derived from it, jd + J3(n − n_x) is a whole-turn mean hour angle within half a solar day of jd |
| `EventProps.MeanHourAngleOfBody` | celestia/celestia.go:431-445 | the mean hour angle is the unreduced sidereal time minus the unreduced mean anomaly argument, P and 180 |
| `EventProps.BodyMeanTransitEstimate` | celestia/celestia.go:592-599 | for every body and edition, jd + J3(n − n_x) is a whole-turn mean hour angle within half a solar day of jd |
| `EventProps.HorizonHourAngleReachesAltitude` | celestia/celestia.go:633-637 | at the corrected H0 the altitude's arcsine argument is exactly sin h0 |
| `EventProps.HorizonHourAngleAsWrittenReaches` | celestia/celestia.go:633-637 | as written the argument is sin lat sin d + (sin h0 − sin lat sin d) cos² d |
| `EventProps.HorizonHourAngleAsWrittenMisses` | celestia/celestia.go:633-637 | as written it misses sin h0 whenever cos² d ≠ 1 and sin h0 ≠ sin lat sin d |
| `EventProps.TransitEditionsAgree` | celestia/celestia.go:552-571 | outside Jupiter and Saturn both editions compute the same transit, for every enum |
| `EventProps.BodyTransitEditionsAgree` | celestia/celestia.go:552-571 | the same for a valid enum |
| `EventProps.FirstEstimatesAgree` | celestia/celestia.go:551-599 | outside Jupiter and Saturn both editions start the transit loop from the same estimate with the same coefficients |
| `EventProps.StartDiffersByJ2` | celestia/celestia.go:599 | coefficients that differ only in J2 move the first transit estimate by the J2 difference times sin(2 l) |
| `EventProps.StartsMirrorTransit` | celestia/celestia.go:677 | the rise and set estimates are symmetric about the transit, H0/180 of J3 apart |
| `EventProps.RiseStepIsSetStepNegated` | celestia/celestia.go:688 | a sunrise correction is a sunset correction with H0 negated |
| `EventProps.RefineSameSteps` | celestia/celestia.go:680-694 | loops with pointwise equal steps give equal outcomes |
| `EventProps.RiseRefineIsSetRefine` | celestia/celestia.go:680-694 | the sunrise loop is the sunset loop with H0 negated |
| `EventProps.MirroredStart` | celestia/celestia.go:755 | the sunset start with H0 negated is the sunrise start |
| `EventProps.MirroredLoop` | celestia/celestia.go:677-694 | the sunrise loop is the sunset loop run from the mirrored setup |
| `EventProps.SunriseIsSunsetNegated` | celestia/celestia.go:623-697 | in either edition `Sunrise` equals the sunset loop run with H0 negated |
| `EventProps.TransitConvergedNearMeridian` | celestia/celestia.go:608-612 | on convergence the last correction (H/360) J3 was within the rendering tolerance |
| `EventProps.SunriseConvergedNearHorizon` | celestia/celestia.go:686-691 | on convergence the last sunrise correction was within the tolerance |
| `EventProps.SunsetConvergedNearHorizon` | celestia/celestia.go:764-769 | on convergence the last sunset correction was within the tolerance |
| `EventProps.InvalidEnumEvents` | celestia/celestia.go:582-583 | the three solvers return (0, ErrInvalidEnum) outside 0..5 |
| `EventProps.ValidEnumEvents` | celestia/celestia.go:542-775 | for a valid enum the only failure is non-convergence |

## Left out

- Floating point. `float64` rounding, NaN and infinities are not modelled. Values are
  exact reals. The julian_test.go values are matched within 1e−9. The mean-anomaly test
  values are the exact-real results that the tests' float64 values round, within 1e−13,
  and the table-lookup values are matched exactly. The solarposition_test.go values
  from the equation of center onward pass through the uninterpreted trigonometric
  functions and are not compared. A float division by zero (cos lat = 0) is the
  uninterpreted `MathLib.overZero`.
- The `math` trigonometric functions have no definitions here. They are uninterpreted
  fields of `MathLib`, and properties that need them hold under stated hypotheses.
- `fmt.Sprintf("%.6f", ·)` is the parameter `render`. Convergence lemmas assume only
  that it merges values at most `tol` apart.
- The Go refinement loops are unbounded. The model bounds them by `fuel`.
  `RefineFuelMonotone` shows that fuel never changes a found result; what happens past
  the bound, including loops that never end, is left out.
- The hour-angle error path inside the loops (celestia.go:605-607) is unreachable for a
  valid enum, and the model does not represent it.
- Reading `time.Time`: `t.Year()`, `t.Month()`, `t.Day()`, `t.Hour()` and `t.Zone()` are
  the fields of `Julian.Time`. Go's time-zone database and `time.Parse` are left out.
- `Julian.ToSolarDay`: the year is treated as a signed integer for the leap test. The
  source converts `C − 4716` to `uint`; for negative years that float-to-uint conversion
  is implementation-dependent in Go, so the leap test there is not modelled.
- `Julian.SolarDate`: only the ranges of the decoded month (1..12) and day (1..31) are
  proved, not that the date is the one whose Julian Day was given; the day is bounded by
  31, not by the month's length.
- `Julian.ToSolarDay`: it is not proved to invert `ToJulianDay` (Meeus's round trip). It
  is proved to return 1..366, and `DayOfYearCounts` proves its final formula against
  the calendar.
- `Julian.DayNumberCountsDays`: the day-number lemmas require year ≥ −4799, where
  4800 + year is non-negative and Go's truncating division agrees with floor division.
  Below that the source formula itself repeats and skips days, as
  `DayNumberBeforeYearLimit` shows for the years −4800 and −4803.
- 64-bit `int` overflow in `ToJulianDay` (years beyond about 10^15) is not modelled.
- The constant table entries that no function reads are left out:
  - `PUranus`, `PNeptune` and `PPluto` (celestia.go:58-60);
  - the `d_Sun` disk sizes (celestia.go:142-152).

  The published J0..J3 (celestia.go:115-138) are only compared with the derived ones.
- `celestia_test.go` checks `PerihelionLongitude` against `WEarth`, which the package
  does not define (celestia_test.go:74). `TableLookupExamples` uses `PEarth` instead.
- `Celestia.RightAscension`, `Celestia.Declination`, `Celestia.Azimuth`: the ranges are
  proved only under the documented ranges of `math.Atan` and `math.Atan2`, not for an
  arbitrary library.

## Findings

| source | as written | input that shows it | evidently intended | confidence | as-written member | corrected member |
|---|---|---|---|---|---|---|
| julian/julian.go:83-86 | the zone offset (seconds east of UTC) is added: Z = offset / 86400 | 2000-01-01T18:11:10−01:00 and 2000-01-01T19:11:10Z are the same instant; they get 2451545.2161 and 2451545.2994 | a Julian Day counts UTC, so the offset is subtracted; both give 2451545 + 25870/86400 | medium, not executed; julian_test.go:49 expects the as-written value | `Julian.ToJulianDayOffsetCounterexample` | `Julian.ToJulianDayUtcZoneFree` |
| celestia/celestia.go:572-581 | Jupiter and Saturn reuse Mars's J2 factor −2.8608 | Jupiter: J2 = −2.8608 · J3/360 ≈ −0.00329, but the published J2Jupiter (celestia.go:133) is 0.0000; Saturn: ≈ −0.00353 against −0.0040 (celestia.go:137) | the factor is −tan²(E/2) in degrees, as for Venus, Earth and Mars: −0.0425 for Jupiter, −3.2339 for Saturn, matching the published J2 | high, not executed | `Bodies.TransitJ2AsWrittenMismatch` | `Bodies.TransitCoeffsMatchPublished` |
| celestia/celestia.go:633-637 | `(sin h0 − sin lat sin d) / cos lat * cos d` multiplies by cos d | Earth (h0 = −0.83), lat 0, d = 23.44: as written cos H0 = sin(−0.83°) · cos 23.44° ≈ −0.0133, so the altitude at H0 is not h0 | cos H0 = (sin h0 − sin lat sin d) / (cos lat · cos d) ≈ −0.0158, at which the altitude is exactly h0 | high, not executed | `EventProps.HorizonHourAngleAsWrittenMisses` | `EventProps.HorizonHourAngleReachesAltitude` |

Both halves are part of the model:

- `TransitCoeffsOf(AsWritten, ·)` carries the source's J2 factors and
  `TransitCoeffsOf(Corrected, ·)` the corrected ones. `TransitEditionsAgree` shows that
  the difference reaches only Jupiter's and Saturn's transits, and `StartDiffersByJ2`
  gives its size in the first estimate.
- `Sunrise` and `Sunset` use `HorizonHourAngleAsWritten` in the `AsWritten` edition
  and the corrected `HorizonHourAngle` in the `Corrected` edition.
- `ToJulianDay` keeps the source's behaviour, because the published test fixes it.
  `ToJulianDayUtc` is the corrected conversion. No position function depends on either,
  because they all take a Julian Day.
