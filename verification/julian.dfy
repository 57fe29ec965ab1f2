/** The Julian-day conversions of package `julian`: calendar date-time to Julian Day
    (Fliegel & Van Flandern integer algorithm), Julian Day to day-of-year (Meeus,
    Astronomical Algorithms, chapter 7), and the century scaling.

    Go's `float64` is modelled as an exact `real`; Go's `int` and `uint` as unbounded
    integers, with the truncating division and the unsigned wrap-around written out. */
module Julian {
  import opened GoNumeric
  import opened Gregorian

  /** The J2000.0 epoch, 2000-01-01 12:00 UT, as a Julian Day. */
  const J2000: real := 2451545.0
  const SecondsPerDay: real := 86400.0
  const MinutesPerDay: real := 1440.0
  const HoursPerDay: real := 24.0

  /** The accessors of Go's `time.Time` that `ToJulianDay` reads; `offset` is the zone
      offset east of UTC in seconds, as returned by `t.Zone()`. */
  datatype Time = Time(year: int, month: int, day: int,
                       hour: int, minute: int, second: int, offset: int)

  /** What a `time.Time` guarantees of its accessors. */
  predicate ValidTime(t: Time)
  {
    && ValidDate(Date(t.year, t.month, t.day))
    && 0 <= t.hour < 24 && 0 <= t.minute < 60 && 0 <= t.second < 60
  }

  // ---------------------------------------------------------------------------
  // Calendar date to Julian Day
  // ---------------------------------------------------------------------------

  /** `(month - 14) / 12` with Go's truncating division: -1 for January and February,
      0 for March to December (Euclidean division would give -2 and -1). */
  function MonthShift(month: int): (t: int)
    ensures 1 <= month <= 2 ==> t == -1
    ensures 3 <= month <= 12 ==> t == 0
  {
    Quo(month - 14, 12)
  }

  /** The integer part A + B - C + D of `ToJulianDay`: the Julian Day Number of the
      date at noon. It is anchored at the J2000.0 epoch (2000-01-01 is day 2451545) and
      at the first Gregorian day (1582-10-15 is day 2299161); `DayNumberCountsDays`
      shows it counts the days in between. */
  function DayNumber(year: int, month: int, day: int): (r: int)
    ensures year == 2000 && month == 1 ==> r == 2451544 + day
    ensures year == 1582 && month == 10 ==> r == 2299146 + day
  {
    var t := MonthShift(month);
    var a := Quo(1461 * (year + 4800 + t), 4);
    var b := Quo(367 * (month - 2 - 12 * t), 12);
    var c := Quo(3 * Quo(year + 4900 + t, 100), 4);
    a + b - c + (day - 32075)
  }

  /** The fractional part H + M + S + Z of `ToJulianDay`: hours are counted from noon
      and the zone offset is added. */
  function DayFraction(t: Time): real
  {
    (t.hour - 12) as real / HoursPerDay
    + t.minute as real / MinutesPerDay
    + t.second as real / SecondsPerDay
    + t.offset as real / SecondsPerDay
  }

  /** `ToJulianDay`: the Julian Day of a date-time. Julian days start at noon, so once
      the zone offset (which the source adds) is taken back out, the result lies within
      half a day of the date's day number: its civil day is the date's. Midday of
      2000-01-01 in UTC is J2000. */
  function ToJulianDay(t: Time): (jd: real)
    ensures ValidTime(t) ==> CivilDay(jd - t.offset as real / SecondsPerDay) == DayNumber(t.year, t.month, t.day)
    ensures t == Time(2000, 1, 1, 12, 0, 0, 0) ==> jd == J2000
  {
    DayNumber(t.year, t.month, t.day) as real + DayFraction(t)
  }

  /** `ToJulianCentury`, as written: the Julian Day scaled by 31557600/3155695200, the
      seconds of a Julian year over the seconds of a Gregorian century. */
  function ToJulianCentury(jd: real): (jc: real)
    ensures jc * 36524.25 == jd * 365.25
  {
    jd * 31557600.0 / 3155695200.0
  }
  /** The Julian Day of a date-time as an instant: the zone offset (seconds east of UTC)
      is SUBTRACTED to reach UTC before the seconds since noon are counted. This is the
      corrected form of `ToJulianDay`, which adds it. */
  function ToJulianDayUtc(t: Time): (jd: real)
    ensures jd == ToJulianDay(t) - (2 * t.offset) as real / 86400.0
    ensures t.offset == 0 ==> jd == ToJulianDay(t)
  {
    DayNumber(t.year, t.month, t.day) as real
    + ((t.hour - 12) * 3600 + t.minute * 60 + t.second - t.offset) as real / SecondsPerDay
  }

  /** The same date-time read `k` hours later on a clock `k` hours further east. */
  function ShiftZone(t: Time, k: int): Time
  {
    t.(hour := t.hour + k, offset := t.offset + 3600 * k)
  }

  /** The corrected conversion depends only on the instant: moving the wall clock and the
      zone together by `k` hours leaves the Julian Day unchanged. */
  lemma ToJulianDayUtcZoneFree(t: Time, k: int)
    ensures ToJulianDayUtc(ShiftZone(t, k)) == ToJulianDayUtc(t)
  {
  }

  /** As written, the same shift moves the Julian Day by k/12 of a day instead of 0. */
  lemma ToJulianDayZoneDrift(t: Time, k: int)
    ensures ToJulianDay(ShiftZone(t, k)) == ToJulianDay(t) + k as real / 12.0
  {
  }

  /** 2000-01-01T18:11:10-01:00 and 2000-01-01T19:11:10Z are one instant, yet as written
      they get Julian Days two hours apart; the corrected conversion gives both the UTC
      value 2451545 + 25870/86400. */
  lemma ToJulianDayOffsetCounterexample()
    ensures ShiftZone(Time(2000, 1, 1, 18, 11, 10, -3600), 1) == Time(2000, 1, 1, 19, 11, 10, 0)
    ensures ToJulianDay(Time(2000, 1, 1, 18, 11, 10, -3600)) != ToJulianDay(Time(2000, 1, 1, 19, 11, 10, 0))
    ensures ToJulianDay(Time(2000, 1, 1, 19, 11, 10, 0)) - ToJulianDay(Time(2000, 1, 1, 18, 11, 10, -3600)) == 1.0 / 12.0
    ensures ToJulianDayUtc(Time(2000, 1, 1, 18, 11, 10, -3600)) == 2451545.0 + 25870.0 / 86400.0
    ensures ToJulianDayUtc(Time(2000, 1, 1, 19, 11, 10, 0)) == 2451545.0 + 25870.0 / 86400.0
  {
    DayNumberAtJ2000();
  }

  /** The century scaling is linear, and one Gregorian century of 36524.25 days maps to
      365.25: the source divides by the seconds of a Gregorian century and multiplies by
      the seconds of a Julian year, with no J2000 origin. */
  lemma ToJulianCenturyScale(a: real, b: real)
    ensures ToJulianCentury(a + b) == ToJulianCentury(a) + ToJulianCentury(b)
    ensures ToJulianCentury(36524.25) == 365.25
    ensures ToJulianCentury(J2000) != 0.0
  {
  }


  // ---------------------------------------------------------------------------
  // Julian Day to day of the year
  // ---------------------------------------------------------------------------

  /** z = floor(jd + 0.5) and f = jd + 0.5 - z: the civil day number and the elapsed
      fraction of that civil day. */
  function CivilDay(jd: real): (z: int)
    ensures 0.0 <= jd + 0.5 - z as real < 1.0
  {
    Floor(jd + 0.5)
  }

  /** Meeus's A: the day number, shifted by the Gregorian correction from day 2299161
      (1582-10-15) on, so that the Julian-calendar decoding below yields Gregorian dates. */
  function CorrectedDay(z: int): (r: int)
    ensures z < 2299161 ==> r == z
    ensures z >= 2299161 ==> r >= z + 10
  {
    if z < 2299161 then z
    else
      var alpha := Floor((z as real - 1867216.25) / 36524.25);
      z + 1 + alpha - Floor(alpha as real / 4.0)
  }

  /** The calendar date Meeus's algorithm decodes from a Julian Day. The day keeps the
      fraction f until Go's `uint` conversion drops it. */
  function SolarDate(jd: real): (d: Date)
    ensures 1 <= d.month <= 12
    ensures 1 <= d.day <= 31
  {
    var z := CivilDay(jd);
    var f := jd + 0.5 - z as real;
    var b := CorrectedDay(z) + 1524;
    var c := Floor((b as real - 122.1) / 365.25);
    var dd := Floor(365.25 * c as real);
    var e := Floor((b - dd) as real / 30.6001);
    MonthSpan(b, c, dd, e);
    var day := Trunc((b - dd - Floor(30.6001 * e as real)) as real + f);
    var month := if e < 14 then e - 1 else e - 13;
    var year := if month > 2 then c - 4716 else c - 4715;
    Date(year, month, day)
  }

  /** Meeus's bounds: B - D lies in 123..488, so E is between 4 and 15 and the day
      within month E is between 1 and 31. */
  lemma MonthSpan(b: int, c: int, dd: int, e: int)
    requires c as real <= (b as real - 122.1) / 365.25 < c as real + 1.0
    requires dd as real <= 365.25 * c as real < dd as real + 1.0
    requires e as real <= (b - dd) as real / 30.6001 < e as real + 1.0
    ensures 4 <= e <= 15
    ensures 1 <= b - dd - Floor(30.6001 * e as real) <= 31
  {
    assert 365.25 * c as real <= b as real - 122.1;
    assert b as real - 122.1 < 365.25 * c as real + 365.25;
    var n := b - dd;
    assert 123 <= n <= 488;
    assert 30.6001 * e as real <= n as real < 30.6001 * e as real + 30.6001;
    EBounds(n, e);
  }

  /** For 123 <= n <= 488 and E = floor(n / 30.6001), the remainder n - floor(30.6001 E)
      is a day of the month: the product 30.6001 E is never a whole number. */
  lemma EBounds(n: int, e: int)
    requires 123 <= n <= 488
    requires 30.6001 * e as real <= n as real < 30.6001 * e as real + 30.6001
    ensures 4 <= e <= 15
    ensures 1 <= n - Floor(30.6001 * e as real) <= 31
  {
    assert 3 < e < 16;
    assert Floor(30.6001 * (e + 1) as real) - Floor(30.6001 * e as real) <= 31;
  }

  /** Meeus's k: 1 in a leap year, 2 otherwise (the year is Go's `uint`). */
  function LeapFlag(year: int): (k: int)
    ensures k == 1 || k == 2
    ensures k == 1 <==> IsLeap(year)
  {
    if (year % 4 == 0 && year % 100 != 0) || year % 400 == 0 then 1 else 2
  }

  const Uint64Modulus: int := 0x1_0000_0000_0000_0000

  /** Meeus's day of the year N = floor(275 M / 9) - k floor((M + 9) / 12) + D - 30,
      evaluated in Go's `uint` (every operation modulo 2^64). */
  function DayOfYear(d: Date): (n: nat)
    requires 1 <= d.month <= 12 && 1 <= d.day
    ensures n < Uint64Modulus
  {
    var k := LeapFlag(d.year);
    (275 * d.month / 9 - k * ((d.month + 9) / 12) + d.day - 30) % Uint64Modulus
  }

  /** `ToSolarDay`: the day of the year of the date a Julian Day falls on. */
  function ToSolarDay(jd: real): (n: nat)
    ensures 1 <= n <= 366
  {
    var d := SolarDate(jd);
    DayOfYearBounds(d);
    DayOfYear(d)
  }

  /** For any month 1..12 and day 1..31 the `uint` arithmetic never wraps, and the
      result lies in 1..366. */
  lemma DayOfYearBounds(d: Date)
    requires 1 <= d.month <= 12 && 1 <= d.day <= 31
    ensures 1 <= DayOfYear(d) <= 366
  {
    var k := LeapFlag(d.year);
    var raw := 275 * d.month / 9 - k * ((d.month + 9) / 12) + d.day - 30;
    assert 1 <= raw <= 366 by {
      if d.month <= 2 {
        assert (d.month + 9) / 12 == 0;
      } else {
        assert (d.month + 9) / 12 == 1;
      }
    }
  }

  // ---------------------------------------------------------------------------
  // Properties
  // ---------------------------------------------------------------------------

  /** Within a month the day number moves one for one with the day. */
  lemma DayNumberDayShift(year: int, month: int, day: int, day': int)
    ensures DayNumber(year, month, day') == DayNumber(year, month, day) + (day' - day)
  {
  }

  /** The day number in closed form for January and February, where the month shift is -1. */
  lemma DayNumberEarlyMonths(year: int, month: int, day: int)
    requires year >= -4799 && 1 <= month <= 2
    ensures DayNumber(year, month, day)
            == (1461 * (year + 4799)) / 4 + (367 * (month + 10)) / 12
               - (3 * ((year + 4899) / 100)) / 4 + day - 32075
  {
    assert MonthShift(month) == -1;
  }

  /** The day number in closed form for March to December, where the month shift is 0. */
  lemma DayNumberLateMonths(year: int, month: int, day: int)
    requires year >= -4799 && 3 <= month <= 12
    ensures DayNumber(year, month, day)
            == (1461 * (year + 4800)) / 4 + (367 * (month - 2)) / 12
               - (3 * ((year + 4900) / 100)) / 4 + day - 32075
  {
    assert MonthShift(month) == 0;
  }

  /** Moving from the first of one month to the first of the next adds the length of the
      month (valid from year -4799 on, where every dividend is non-negative). */
  lemma DayNumberMonthStep(year: int, month: int)
    requires year >= -4799
    requires 1 <= month <= 11
    ensures DayNumber(year, month + 1, 1) == DayNumber(year, month, 1) + MonthLength(year, month)
  {
    if month == 2 {
      DayNumberFebruary(year);
    } else if month == 1 {
      DayNumberEarlyMonths(year, 1, 1);
      DayNumberEarlyMonths(year, 2, 1);
    } else {
      DayNumberLateMonths(year, month, 1);
      DayNumberLateMonths(year, month + 1, 1);
      MonthTermStep(year, month);
    }
  }

  /** Term B from March on: 367 (M - 2) / 12 rises by each month's length (30 or 31). */
  lemma MonthTermStep(year: int, m: int)
    requires 3 <= m <= 11
    ensures (367 * (m - 1)) / 12 - (367 * (m - 2)) / 12 == MonthLength(year, m)
  {
    if m == 3 {} else if m == 4 {} else if m == 5 {} else if m == 6 {}
    else if m == 7 {} else if m == 8 {} else if m == 9 {} else if m == 10 {} else {}
  }

  /** From 1 February to 1 March: 28 days, plus one in a Gregorian leap year. The term A
      contributes 365 plus one when the year is divisible by 4, the term C takes one back
      for centuries not divisible by 400. */
  lemma DayNumberFebruary(year: int)
    requires year >= -4799
    ensures DayNumber(year, 3, 1) == DayNumber(year, 2, 1) + MonthLength(year, 2)
  {
    var y := year + 4799;
    var a0, a1 := (1461 * y) / 4, (1461 * (y + 1)) / 4;
    var c0, c1 := (3 * ((year + 4899) / 100)) / 4, (3 * ((year + 4900) / 100)) / 4;
    DayNumberEarlyMonths(year, 2, 1);
    assert DayNumber(year, 2, 1) == a0 + 367 - c0 - 32074;
    DayNumberLateMonths(year, 3, 1);
    assert DayNumber(year, 3, 1) == a1 + 30 - c1 - 32074;
    FourYearCycle(y);
    assert (y + 1) % 4 == 0 <==> year % 4 == 0;
    CenturyCorrection(year);
    LeapDays(year);
  }

  /** February's length as the two calendar corrections: one day every four years, one
      back at a century not divisible by 400. */
  lemma LeapDays(year: int)
    ensures MonthLength(year, 2)
            == 28 + (if year % 4 == 0 then 1 else 0) - (if year % 100 == 0 && year % 400 != 0 then 1 else 0)
  {
    if year % 100 == 0 {
      var q := year / 100;
      assert year == 4 * (25 * q);
      assert year % 4 == 0;
    }
    assert IsLeap(year) <==> (year % 4 == 0 && !(year % 100 == 0 && year % 400 != 0));
  }

  /** Term A over one year: 365 days, plus one when the year ending is divisible by 4. */
  lemma FourYearCycle(y: int)
    requires y >= 0
    ensures (1461 * (y + 1)) / 4 - (1461 * y) / 4 == 365 + (if (y + 1) % 4 == 0 then 1 else 0)
  {
    assert (1461 * y) / 4 == 365 * y + y / 4;
    assert (1461 * (y + 1)) / 4 == 365 * (y + 1) + (y + 1) / 4;
  }

  /** Term C from February to March: one more day dropped at a century year, except when
      the year is divisible by 400. */
  lemma CenturyCorrection(year: int)
    requires year >= -4799
    ensures (3 * ((year + 4900) / 100)) / 4 - (3 * ((year + 4899) / 100)) / 4
            == (if year % 100 == 0 && year % 400 != 0 then 1 else 0)
  {
    var q := (year + 4900) / 100;
    if year % 100 == 0 {
      assert (year + 4899) / 100 == q - 1;
      assert q == year / 100 + 49;
      assert q % 4 == 1 <==> year % 400 == 0;
      assert (3 * q) / 4 - (3 * (q - 1)) / 4 == (if q % 4 == 1 then 0 else 1);
    } else {
      assert (year + 4899) / 100 == q;
    }
  }

  /** From 1 December to 1 January of the next year: 31 days. */
  lemma DayNumberYearStep(year: int)
    requires year >= -4799
    ensures DayNumber(year + 1, 1, 1) == DayNumber(year, 12, 1) + 31
  {
    DayNumberEarlyMonths(year + 1, 1, 1);
    DayNumberLateMonths(year, 12, 1);
  }

  /** The Fliegel & Van Flandern day number counts calendar days: the day after a valid
      Gregorian date has the next day number. */
  lemma DayNumberCountsDays(d: Date)
    requires ValidDate(d) && d.year >= -4799
    ensures var n := NextDate(d); DayNumber(n.year, n.month, n.day) == DayNumber(d.year, d.month, d.day) + 1
  {
    var len := MonthLength(d.year, d.month);
    var here := DayNumber(d.year, d.month, d.day);
    if d.day < len {
      assert NextDate(d) == Date(d.year, d.month, d.day + 1);
      DayNumberDayShift(d.year, d.month, d.day, d.day + 1);
    } else {
      assert d.day == len;
      DayNumberDayShift(d.year, d.month, 1, d.day);
      assert here == DayNumber(d.year, d.month, 1) + len - 1;
      if d.month < 12 {
        assert NextDate(d) == Date(d.year, d.month + 1, 1);
        DayNumberMonthStep(d.year, d.month);
      } else {
        assert NextDate(d) == Date(d.year + 1, 1, 1);
        DayNumberYearStep(d.year);
      }
    }
  }

  /** Below year -4799 the formula stops counting days: 4800 + year turns negative and
      Go's truncating division rounds the leap-day terms the wrong way, so the leap year
      -4800 repeats a day number and the common year -4803 skips one. */
  lemma DayNumberBeforeYearLimit()
    ensures ValidDate(Date(-4800, 2, 29)) && NextDate(Date(-4800, 2, 29)) == Date(-4800, 3, 1)
    ensures DayNumber(-4800, 3, 1) == DayNumber(-4800, 2, 29)
    ensures ValidDate(Date(-4803, 2, 28)) && NextDate(Date(-4803, 2, 28)) == Date(-4803, 3, 1)
    ensures DayNumber(-4803, 3, 1) == DayNumber(-4803, 2, 28) + 2
  {
    assert Quo(367, 12) == 30 && Quo(4404, 12) == 367;
    assert Quo(0, 4) == 0 && Quo(-1461, 4) == -365 && Quo(-4383, 4) == -1095 && Quo(-5844, 4) == -1461;
    assert Quo(100, 100) == 1 && Quo(99, 100) == 0 && Quo(97, 100) == 0 && Quo(96, 100) == 0;
    assert Quo(3, 4) == 0 && Quo(0, 4) == 0;
    assert DayNumber(-4800, 3, 1) == -32044 && DayNumber(-4800, 2, 29) == -32044;
    assert DayNumber(-4803, 3, 1) == -33139 && DayNumber(-4803, 2, 28) == -33141;
  }

  /** Whole Julian days start at noon: the result is the day number plus the seconds
      elapsed since noon, with the zone offset counted as extra elapsed seconds, over the
      length of a day. */
  lemma ToJulianDaySeconds(t: Time)
    ensures ToJulianDay(t) == DayNumber(t.year, t.month, t.day) as real
              + ((t.hour * 3600 + t.minute * 60 + t.second + t.offset - 43200) as real) / 86400.0
  {
  }

  /** The same clock reading on the next calendar day is exactly one Julian Day later. */
  lemma ToJulianDayNextDay(t: Time)
    requires ValidTime(t) && t.year >= -4799
    ensures var n := NextDate(Date(t.year, t.month, t.day));
            ToJulianDay(Time(n.year, n.month, n.day, t.hour, t.minute, t.second, t.offset)) == ToJulianDay(t) + 1.0
  {
    DayNumberCountsDays(Date(t.year, t.month, t.day));
  }

  /** 2000-01-01 has day number 2451545, the whole part of J2000, and its noon in UTC is
      J2000 itself. */
  lemma DayNumberAtJ2000()
    ensures DayNumber(2000, 1, 1) == 2451545
    ensures DayNumber(2000, 1, 1) as real == J2000
    ensures ToJulianDay(Time(2000, 1, 1, 12, 0, 0, 0)) == J2000
  {
  }

  /** Noon at offset zero falls on a whole Julian day, and the zone offset is added: the
      same wall-clock reading one hour east of UTC is 1/24 day later. */
  lemma NoonIsWholeAndOffsetAdds(t: Time)
    ensures ToJulianDay(Time(t.year, t.month, t.day, 12, 0, 0, 0))
              == DayNumber(t.year, t.month, t.day) as real
    ensures ToJulianDay(Time(t.year, t.month, t.day, t.hour, t.minute, t.second, t.offset + 3600))
              == ToJulianDay(t) + 1.0 / 24.0
  {
  }

  /** julian_test.go: 2000-01-01T18:11:10-01:00 gives 2451545.216087963 (the expected
      float64, to within its rounding). */
  lemma ToJulianDayExample()
    ensures var jd := ToJulianDay(Time(2000, 1, 1, 18, 11, 10, -3600));
            && jd == 2451545.0 + 18670.0 / 86400.0
            && -0.000000001 < jd - 2451545.216087963 < 0.000000001
  {
  }

  /** julian_test.go: 2000-01-01T18:11:10Z scales to 24515.955985266733. */
  lemma ToJulianCenturyExample()
    ensures var jc := ToJulianCentury(ToJulianDay(Time(2000, 1, 1, 18, 11, 10, 0)));
            -0.000000001 < jc - 24515.955985266733 < 0.000000001
  {
  }

  /** Meeus's day-of-year formula is the count of days before the month plus the day: for
      every valid Gregorian date it returns 1..365 in a common year and 1..366 in a leap
      year, with January giving the day and February 31 plus the day. */
  lemma DayOfYearCounts(d: Date)
    requires ValidDate(d)
    ensures DayOfYear(d) == DaysBeforeMonth(d.year, d.month) + d.day
    ensures 1 <= DayOfYear(d) <= YearLength(d.year)
  {
    var raw := 275 * d.month / 9 - LeapFlag(d.year) * ((d.month + 9) / 12) + d.day - 30;
    MeeusMonthOffset(d.year, d.month);
    assert raw == DaysBeforeMonth(d.year, d.month) + d.day;
    DayOfYearBounds(d);
    assert 1 <= raw <= 366;
    assert DayOfYear(d) == raw;
    MonthsFillYear(d.year);
    if d.month < 12 {
      DaysBeforeMonthGrows(d.year, d.month, 12);
    }
  }

  /** floor(275 M / 9) - k floor((M + 9) / 12) - 30 is the number of days before month M:
      the 275/9 slope spreads 30- and 31-day months, and k removes the two (common year)
      or one (leap year) days that February falls short of 30. */
  lemma MeeusMonthOffset(year: int, m: int)
    requires 1 <= m <= 12
    ensures 275 * m / 9 - LeapFlag(year) * ((m + 9) / 12) - 30 == DaysBeforeMonth(year, m)
  {
    var feb := MonthLength(year, 2);
    assert LeapFlag(year) == 30 - feb;
    assert DaysBeforeMonth(year, 2) == 31;
    assert DaysBeforeMonth(year, 3) == 31 + feb;
    assert DaysBeforeMonth(year, 4) == 62 + feb;
    assert DaysBeforeMonth(year, 5) == 92 + feb;
    assert DaysBeforeMonth(year, 6) == 123 + feb;
    assert DaysBeforeMonth(year, 7) == 153 + feb;
    assert DaysBeforeMonth(year, 8) == 184 + feb;
    assert DaysBeforeMonth(year, 9) == 215 + feb;
    assert DaysBeforeMonth(year, 10) == 245 + feb;
    assert DaysBeforeMonth(year, 11) == 276 + feb;
    assert DaysBeforeMonth(year, 12) == 306 + feb;
    if m == 1 {} else if m == 2 {} else if m == 3 {} else if m == 4 {} else if m == 5 {}
    else if m == 6 {} else if m == 7 {} else if m == 8 {} else if m == 9 {} else if m == 10 {}
    else if m == 11 {} else {}
  }

  lemma {:induction false} DaysBeforeMonthGrows(year: int, m: int, m': int)
    requires 1 <= m < m' <= 12
    ensures DaysBeforeMonth(year, m) + MonthLength(year, m) <= DaysBeforeMonth(year, m')
    decreases m' - m
  {
    if m + 1 < m' {
      DaysBeforeMonthGrows(year, m + 1, m');
    }
  }

  /** julian_test.go: JD 2451545.2577546295 is the first day of the year 2000. */
  lemma ToSolarDayExample()
    ensures SolarDate(2451545.2577546295) == Date(2000, 1, 1)
    ensures ToSolarDay(2451545.2577546295) == 1
  {
    var jd := 2451545.2577546295;
    assert CivilDay(jd) == 2451545;
    assert Floor((2451545.0 - 1867216.25) / 36524.25) == 15;
    assert CorrectedDay(2451545) == 2451558;
    assert Floor((2453082.0 - 122.1) / 365.25) == 6715;
    assert Floor(365.25 * 6715.0) == 2452653;
    assert Floor(429.0 / 30.6001) == 14;
    assert Floor(30.6001 * 14.0) == 428;
  }

  /** The calendar switch: day 2299160 decodes in the Julian calendar as 1582-10-04 and
      the next day, 2299161, in the Gregorian calendar as 1582-10-15. */
  lemma CalendarSwitch()
    ensures CorrectedDay(2299160) == 2299160
    ensures CorrectedDay(2299161) == 2299161 + 10
    ensures SolarDate(2299160.0) == Date(1582, 10, 4)
    ensures SolarDate(2299161.0) == Date(1582, 10, 15)
  {
    assert CivilDay(2299160.0) == 2299160;
    assert CivilDay(2299161.0) == 2299161;
    assert Floor((2299161.0 - 1867216.25) / 36524.25) == 11;
    assert Floor((2300684.0 - 122.1) / 365.25) == 6298;
    assert Floor((2300695.0 - 122.1) / 365.25) == 6298;
    assert Floor(365.25 * 6298.0) == 2300344;
    assert Floor(340.0 / 30.6001) == 11;
    assert Floor(351.0 / 30.6001) == 11;
    assert Floor(30.6001 * 11.0) == 336;
  }
}
