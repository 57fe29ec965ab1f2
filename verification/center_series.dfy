/** The equation-of-center series of package `celestia` and its bound. */
module OrbitSeries {
  import opened Trig
  import opened Bodies

  /** The six-term series c1 sin(x) + c2 sin(2x) + ... + c6 sin(6x) of `EquationOfCenter`.
      With sines in [-1, 1] and non-negative coefficients it stays within
      `CenterBound`. */
  function CenterSeries(m: MathLib, c: Params, x: real): (r: real)
    ensures SinCosBounded(m) && NonNegativeSeries(c) ==> -CenterBound(c) <= r <= CenterBound(c)
  {
    SeriesBound(m, c, x);
    c.c1 * m.sin(x) + c.c2 * m.sin(2.0 * x) + c.c3 * m.sin(3.0 * x)
    + c.c4 * m.sin(4.0 * x) + c.c5 * m.sin(5.0 * x) + c.c6 * m.sin(6.0 * x)
  }

  /** All six equation-of-center coefficients are non-negative, as in every table row. */
  predicate NonNegativeSeries(c: Params)
  {
    c.c1 >= 0.0 && c.c2 >= 0.0 && c.c3 >= 0.0 && c.c4 >= 0.0 && c.c5 >= 0.0 && c.c6 >= 0.0
  }

  /** The largest magnitude the series can take when every sine is in [-1, 1]: the sum
      of the (non-negative) coefficients, 1.9351 degrees for Earth. */
  function CenterBound(c: Params): real
  {
    c.c1 + c.c2 + c.c3 + c.c4 + c.c5 + c.c6
  }

  /** With sines in [-1, 1] each term of the series is at most its coefficient in
      magnitude. */
  lemma TermBounds(m: MathLib, c: Params, x: real)
    requires SinCosBounded(m) && NonNegativeSeries(c)
    ensures -c.c1 <= c.c1 * m.sin(x) <= c.c1
    ensures -c.c2 <= c.c2 * m.sin(2.0 * x) <= c.c2
    ensures -c.c3 <= c.c3 * m.sin(3.0 * x) <= c.c3
    ensures -c.c4 <= c.c4 * m.sin(4.0 * x) <= c.c4
    ensures -c.c5 <= c.c5 * m.sin(5.0 * x) <= c.c5
    ensures -c.c6 <= c.c6 * m.sin(6.0 * x) <= c.c6
  {
    ScaledUnitBound(c.c1, m.sin(x));
    ScaledUnitBound(c.c2, m.sin(2.0 * x));
    ScaledUnitBound(c.c3, m.sin(3.0 * x));
    ScaledUnitBound(c.c4, m.sin(4.0 * x));
    ScaledUnitBound(c.c5, m.sin(5.0 * x));
    ScaledUnitBound(c.c6, m.sin(6.0 * x));
  }

  /** The bound of `CenterSeries`, on the sum of its six terms. */
  lemma SeriesBound(m: MathLib, c: Params, x: real)
    ensures SinCosBounded(m) && NonNegativeSeries(c) ==>
              -CenterBound(c) <= c.c1 * m.sin(x) + c.c2 * m.sin(2.0 * x) + c.c3 * m.sin(3.0 * x)
                                 + c.c4 * m.sin(4.0 * x) + c.c5 * m.sin(5.0 * x) + c.c6 * m.sin(6.0 * x)
                              <= CenterBound(c)
  {
    if SinCosBounded(m) && NonNegativeSeries(c) {
      TermBounds(m, c, x);
      SixTermBound(c.c1 * m.sin(x), c.c2 * m.sin(2.0 * x), c.c3 * m.sin(3.0 * x),
                   c.c4 * m.sin(4.0 * x), c.c5 * m.sin(5.0 * x), c.c6 * m.sin(6.0 * x), c);
    }
  }

  lemma SixTermBound(t1: real, t2: real, t3: real, t4: real, t5: real, t6: real, c: Params)
    requires -c.c1 <= t1 <= c.c1 && -c.c2 <= t2 <= c.c2 && -c.c3 <= t3 <= c.c3
    requires -c.c4 <= t4 <= c.c4 && -c.c5 <= t5 <= c.c5 && -c.c6 <= t6 <= c.c6
    ensures -CenterBound(c) <= t1 + t2 + t3 + t4 + t5 + t6 <= CenterBound(c)
  {
  }
}
