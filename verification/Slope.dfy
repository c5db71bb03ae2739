/** The least-squares fit that decides whether a resource accumulates, over real numbers
    (scripts/release/accumulation.py). */
module Slope {
  import opened Wrappers

  /** One sample: a time in seconds and a value. */
  datatype Point = Point(t: real, v: real)

  /** Sum of a term over all points. */
  function Sum(ps: seq<Point>, f: Point -> real): real {
    if ps == [] then 0.0 else Sum(ps[..|ps| - 1], f) + f(ps[|ps| - 1])
  }

  // ----- the fit

  function Time(): Point -> real {
    (p: Point) => p.t
  }

  function Value(): Point -> real {
    (p: Point) => p.v
  }

  function Mean(ps: seq<Point>, f: Point -> real): real
    requires ps != []
  {
    Sum(ps, f) / |ps| as real
  }

  /** The deviation of a term from a centre. */
  function From(f: Point -> real, centre: real): Point -> real {
    p => f(p) - centre
  }

  function Times(f: Point -> real, g: Point -> real): Point -> real {
    p => f(p) * g(p)
  }

  /** How far a point is above the line with this intercept and gradient. */
  function Residual(intercept: real, gradient: real): Point -> real {
    (p: Point) => p.v - (intercept + gradient * p.t)
  }

  /** Sum of the squared residuals of a line. */
  function SquaredError(ps: seq<Point>, intercept: real, gradient: real): real {
    Sum(ps, Times(Residual(intercept, gradient), Residual(intercept, gradient)))
  }

  function Span(ps: seq<Point>): real
    requires ps != []
  {
    var mean := Mean(ps, Time());
    Sum(ps, Times(From(Time(), mean), From(Time(), mean)))
  }

  function Gradient(ps: seq<Point>): real
    requires ps != [] && Span(ps) != 0.0
  {
    Sum(ps, Times(From(Time(), Mean(ps, Time())), From(Value(), Mean(ps, Value())))) / Span(ps)
  }

  function Intercept(ps: seq<Point>): real
    requires ps != [] && Span(ps) != 0.0
  {
    Mean(ps, Value()) - Gradient(ps) * Mean(ps, Time())
  }

  function Spread(ps: seq<Point>): real
    requires ps != []
  {
    var mean := Mean(ps, Value());
    Sum(ps, Times(From(Value(), mean), From(Value(), mean)))
  }

  function Highest(ps: seq<Point>, f: Point -> real): real
    requires ps != []
  {
    var last := f(ps[|ps| - 1]);
    if |ps| == 1 then last
    else
      var rest := Highest(ps[..|ps| - 1], f);
      if rest >= last then rest else last
  }

  function Lowest(ps: seq<Point>, f: Point -> real): real
    requires ps != []
  {
    var last := f(ps[|ps| - 1]);
    if |ps| == 1 then last
    else
      var rest := Lowest(ps[..|ps| - 1], f);
      if rest <= last then rest else last
  }

  /** `errorSquared` is the square of the standard error. */
  datatype Fit = Fit(perSecond: real, errorSquared: real, explained: real, range: real,
                     samples: nat, mean: real, seconds: real)

  function Explained(error: real, spread: real): real {
    if spread != 0.0 then 1.0 - error / spread else 1.0
  }

  function Slope(ps: seq<Point>): Option<Fit> {
    if |ps| < 4 || Span(ps) == 0.0 then None
    else
      var error := SquaredError(ps, Intercept(ps), Gradient(ps));
      var variance := error / (|ps| - 2) as real;
      Some(Fit(
        Gradient(ps),
        variance / Span(ps),
        Explained(error, Spread(ps)),
        Highest(ps, Value()) - Lowest(ps, Value()),
        |ps|,
        Mean(ps, Value()),
        Highest(ps, Time()) - Lowest(ps, Time())))
  }

  // ----- sums

  lemma {:induction false} SumSame(ps: seq<Point>, f: Point -> real, g: Point -> real)
    requires forall p :: p in ps ==> f(p) == g(p)
    ensures Sum(ps, f) == Sum(ps, g)
  {
    if ps == [] {
    } else {
      SumSame(ps[..|ps| - 1], f, g);
    }
  }

  lemma {:induction false} SumFrom(ps: seq<Point>, f: Point -> real, centre: real)
    ensures Sum(ps, From(f, centre)) == Sum(ps, f) - |ps| as real * centre
  {
    if ps == [] {
    } else {
      SumFrom(ps[..|ps| - 1], f, centre);
      assert |ps| as real * centre == (|ps| - 1) as real * centre + centre;
    }
  }

  /** Deviations from the mean sum to zero. */
  lemma MeanBalances(ps: seq<Point>, f: Point -> real)
    requires ps != []
    ensures Sum(ps, From(f, Mean(ps, f))) == 0.0
  {
    SumFrom(ps, f, Mean(ps, f));
  }

  lemma {:induction false} SumLinear(ps: seq<Point>, f: Point -> real, g: Point -> real, b: real, h: Point -> real)
    requires forall p :: h(p) == f(p) - b * g(p)
    ensures Sum(ps, h) == Sum(ps, f) - b * Sum(ps, g)
  {
    if ps == [] {
    } else {
      SumLinear(ps[..|ps| - 1], f, g, b, h);
      Distribute(b, Sum(ps[..|ps| - 1], g), g(ps[|ps| - 1]));
    }
  }

  lemma Distribute(b: real, x: real, y: real)
    ensures b * (x + y) == b * x + b * y
  {
  }

  lemma {:induction false} SumSquares(ps: seq<Point>, f: Point -> real)
    ensures Sum(ps, Times(f, f)) >= 0.0
    ensures Sum(ps, Times(f, f)) == 0.0 <==> forall p :: p in ps ==> f(p) == 0.0
  {
    if ps == [] {
    } else {
      var init, last := ps[..|ps| - 1], ps[|ps| - 1];
      SumSquares(init, f);
      assert Times(f, f)(last) == Squared(f(last));
      hide Squared, Times;
      assert ps == init + [last];
    }
  }

  function Product(x: real, y: real): (r: real)
    ensures (x > 0.0 && y > 0.0) || (x < 0.0 && y < 0.0) ==> r > 0.0
    ensures x == 0.0 || y == 0.0 ==> r == 0.0
  {
    x * y
  }

  function Squared(x: real): (r: real)
    ensures r >= 0.0
    ensures x == 0.0 <==> r == 0.0
  {
    Product(x, x)
  }

  // ----- the best line

  /** The square of r - c - e * u, and of sums of it, from the moments of r and u. */
  function Combine(rr: real, r: real, ru: real, n: real, u: real, uu: real, c: real, e: real): real {
    rr - (2.0 * c) * r - (2.0 * e) * ru + (c * c) * n + (2.0 * c * e) * u + (e * e) * uu
  }

  lemma CombineOne(q: real, r: real, u: real, c: real, e: real)
    requires q == r - c - e * u
    ensures q * q == Combine(r * r, r, r * u, 1.0, u, u * u, c, e)
  {
  }

  lemma CombineAt(q: Point -> real, r: Point -> real, u: Point -> real, c: real, e: real, p: Point)
    requires q(p) == r(p) - c - e * u(p)
    ensures Times(q, q)(p) == Combine(Times(r, r)(p), r(p), Times(r, u)(p), 1.0, u(p), Times(u, u)(p), c, e)
  {
    CombineOne(q(p), r(p), u(p), c, e);
  }

  lemma CombineNone(c: real, e: real)
    ensures Combine(0.0, 0.0, 0.0, 0.0, 0.0, 0.0, c, e) == 0.0
  {
  }

  lemma CombineAdds(rr: real, r: real, ru: real, n: real, u: real, uu: real,
                    rr': real, r': real, ru': real, n': real, u': real, uu': real, c: real, e: real)
    ensures Combine(rr + rr', r + r', ru + ru', n + n', u + u', uu + uu', c, e)
         == Combine(rr, r, ru, n, u, uu, c, e) + Combine(rr', r', ru', n', u', uu', c, e)
  {
    Distribute(2.0 * c, r, r');
    Distribute(2.0 * e, ru, ru');
    Distribute(c * c, n, n');
    Distribute(2.0 * c * e, u, u');
    Distribute(e * e, uu, uu');
  }

  /** The squared error of a line that differs from the residuals `r` by a level and a tilt. */
  lemma {:induction false} SumExpand(ps: seq<Point>, q: Point -> real, r: Point -> real, u: Point -> real,
                                     c: real, e: real)
    requires forall p :: q(p) == r(p) - c - e * u(p)
    ensures Sum(ps, Times(q, q))
         == Combine(Sum(ps, Times(r, r)), Sum(ps, r), Sum(ps, Times(r, u)), |ps| as real,
                    Sum(ps, u), Sum(ps, Times(u, u)), c, e)
  {
    hide Combine, Times;
    if ps == [] {
      CombineNone(c, e);
    } else {
      var init, p := ps[..|ps| - 1], ps[|ps| - 1];
      SumExpand(init, q, r, u, c, e);
      CombineAt(q, r, u, c, e, p);
      CombineAdds(Sum(init, Times(r, r)), Sum(init, r), Sum(init, Times(r, u)), |init| as real,
                  Sum(init, u), Sum(init, Times(u, u)),
                  Times(r, r)(p), r(p), Times(r, u)(p), 1.0, u(p), Times(u, u)(p), c, e);
    }
  }

  /** The residuals of the fitted line balance, also when weighted by time. */
  lemma NormalEquations(ps: seq<Point>)
    requires ps != [] && Span(ps) != 0.0
    ensures var r := Residual(Intercept(ps), Gradient(ps));
            Sum(ps, r) == 0.0 && Sum(ps, Times(r, From(Time(), Mean(ps, Time())))) == 0.0
  {
    var mt, mv, g := Mean(ps, Time()), Mean(ps, Value()), Gradient(ps);
    var r, u, w := Residual(Intercept(ps), g), From(Time(), mt), From(Value(), mv);
    MeanBalances(ps, Time());
    MeanBalances(ps, Value());
    forall p ensures r(p) == w(p) - g * u(p) {
      Recentre(p.v, mv, p.t, mt, g);
    }
    SumLinear(ps, w, u, g, r);
    forall p ensures Times(r, u)(p) == Times(u, w)(p) - g * Times(u, u)(p) {
      Weigh(w(p), u(p), g);
    }
    SumLinear(ps, Times(u, w), Times(u, u), g, Times(r, u));
    Quotient(Sum(ps, Times(u, w)), Span(ps));
  }

  lemma Recentre(v: real, mv: real, t: real, mt: real, g: real)
    ensures v - ((mv - g * mt) + g * t) == (v - mv) - g * (t - mt)
  {
  }

  lemma Weigh(w: real, u: real, g: real)
    ensures (w - g * u) * u == u * w - g * (u * u)
  {
  }

  lemma Quotient(x: real, y: real)
    requires y != 0.0
    ensures (x / y) * y == x
  {
  }

  /** Any line misses the points by what the fitted line does, plus what its height above
      the mean point and the difference of the gradients add. */
  lemma Decomposition(ps: seq<Point>, intercept: real, gradient: real)
    requires ps != [] && Span(ps) != 0.0
    ensures var c := intercept + gradient * Mean(ps, Time()) - Mean(ps, Value());
            var e := gradient - Gradient(ps);
            SquaredError(ps, intercept, gradient)
            == SquaredError(ps, Intercept(ps), Gradient(ps)) + (c * c) * |ps| as real + (e * e) * Span(ps)
  {
    hide Sum, Mean, Gradient;
    var mt, mv, g := Mean(ps, Time()), Mean(ps, Value()), Gradient(ps);
    var c, e := intercept + gradient * mt - mv, gradient - g;
    var q, r, u := Residual(intercept, gradient), Residual(Intercept(ps), g), From(Time(), mt);
    forall p ensures q(p) == r(p) - c - e * u(p) {
      Relative(p.v, p.t, mt, mv, intercept, gradient, g);
    }
    SumExpand(ps, q, r, u, c, e);
    NormalEquations(ps);
    MeanBalances(ps, Time());
  }

  lemma Relative(v: real, t: real, mt: real, mv: real, a: real, b: real, g: real)
    ensures v - (a + b * t) == (v - ((mv - g * mt) + g * t)) - (a + b * mt - mv) - (b - g) * (t - mt)
  {
  }

  lemma SpanPositive(ps: seq<Point>)
    requires ps != []
    ensures Span(ps) >= 0.0
    ensures Span(ps) == 0.0 <==> forall p, q :: p in ps && q in ps ==> p.t == q.t
  {
    var mean := Mean(ps, Time());
    SumSquares(ps, From(Time(), mean));
    if forall p, q :: p in ps && q in ps ==> p.t == q.t {
      var one := ps[0].t;
      SumSame(ps, From(Time(), one), From(Time(), one));
      SumFrom(ps, Time(), one);
      Constant(ps, one);
    }
  }

  lemma {:induction false} Constant(ps: seq<Point>, one: real)
    requires forall p :: p in ps ==> p.t == one
    ensures Sum(ps, Time()) == |ps| as real * one
    ensures ps != [] ==> Mean(ps, Time()) == one
  {
    if ps == [] {
    } else {
      Constant(ps[..|ps| - 1], one);
      Distribute(one, (|ps| - 1) as real, 1.0);
      Quotient(one, |ps| as real);
    }
  }

  /** There is a fit exactly when there are four samples and some spread in time. */
  lemma FitIff(ps: seq<Point>)
    ensures Slope(ps).Some? <==> |ps| >= 4 && exists p, q :: p in ps && q in ps && p.t != q.t
  {
    if ps != [] {
      SpanPositive(ps);
    }
  }

  /** The fitted line is the only one with the least sum of squared residuals. */
  lemma FitIsBest(ps: seq<Point>, intercept: real, gradient: real)
    requires Slope(ps).Some?
    ensures Slope(ps).value.perSecond == Gradient(ps)
    ensures SquaredError(ps, Intercept(ps), Gradient(ps)) <= SquaredError(ps, intercept, gradient)
    ensures SquaredError(ps, Intercept(ps), Gradient(ps)) == SquaredError(ps, intercept, gradient) <==>
              intercept == Intercept(ps) && gradient == Gradient(ps)
  {
    hide SquaredError, Mean, Span, Gradient;
    var mt, mv, g := Mean(ps, Time()), Mean(ps, Value()), Gradient(ps);
    Decomposition(ps, intercept, gradient);
    SpanPositive(ps);
    Least(intercept + gradient * mt - mv, gradient - g, |ps| as real, Span(ps));
  }

  lemma Least(c: real, e: real, n: real, span: real)
    requires n > 0.0 && span > 0.0
    ensures (c * c) * n + (e * e) * span >= 0.0
    ensures (c * c) * n + (e * e) * span == 0.0 <==> c == 0.0 && e == 0.0
  {
    Weighted(n, Squared(c));
    Weighted(span, Squared(e));
    assert (c * c) * n + (e * e) * span == Squared(c) * n + Squared(e) * span;
    hide Squared;
  }

  lemma Weighted(x: real, y: real)
    requires x > 0.0 && y >= 0.0
    ensures y * x >= 0.0 && (y * x == 0.0 <==> y == 0.0)
  {
  }

  // ----- what is reported

  lemma {:induction false} Extremes(ps: seq<Point>, f: Point -> real)
    requires ps != []
    ensures forall p :: p in ps ==> Lowest(ps, f) <= f(p) <= Highest(ps, f)
    ensures exists p, q :: p in ps && q in ps && f(p) == Highest(ps, f) && f(q) == Lowest(ps, f)
  {
    var init, last := ps[..|ps| - 1], ps[|ps| - 1];
    assert ps == init + [last];
    if |ps| == 1 {
      assert last in ps && f(last) == Highest(ps, f) == Lowest(ps, f);
    } else {
      Extremes(init, f);
      var p, q :| p in init && q in init && f(p) == Highest(init, f) && f(q) == Lowest(init, f);
      var top := if f(p) >= f(last) then p else last;
      var bottom := if f(q) <= f(last) then q else last;
      assert top in ps && bottom in ps && f(top) == Highest(ps, f) && f(bottom) == Lowest(ps, f);
    }
  }

  /** `range` is the largest difference there is between two points. */
  ghost predicate IsRange(ps: seq<Point>, f: Point -> real, range: real) {
    && (forall p, q :: p in ps && q in ps ==> f(p) - f(q) <= range)
    && (exists p, q :: p in ps && q in ps && f(p) - f(q) == range)
  }

  lemma RangeIs(ps: seq<Point>, f: Point -> real)
    requires ps != []
    ensures IsRange(ps, f, Highest(ps, f) - Lowest(ps, f))
  {
    Extremes(ps, f);
  }

  lemma TwiceDivided(x: real, m: real, span: real)
    requires m > 0.0 && span > 0.0
    ensures x / m / span * span * m == x
  {
    Quotient(x, m);
    Quotient(x / m, span);
  }

  /** What the fit reports, for the line that no other beats: its gradient, the variance of its
      residuals with n - 2 degrees of freedom over the span, the part of the spread it removes, the
      mean, and how far values and times range. */
  lemma FitReports(ps: seq<Point>, intercept: real, gradient: real)
    requires Slope(ps).Some?
    requires forall a, b :: SquaredError(ps, intercept, gradient) <= SquaredError(ps, a, b)
    ensures var fit := Slope(ps).value;
            && fit.perSecond == gradient && fit.samples == |ps| >= 4
            && fit.errorSquared * Span(ps) * (|ps| - 2) as real == SquaredError(ps, intercept, gradient)
            && fit.mean * |ps| as real == Sum(ps, Value())
            && IsRange(ps, Value(), fit.range) && IsRange(ps, Time(), fit.seconds)
    ensures Spread(ps) > 0.0 ==>
              Slope(ps).value.explained * Spread(ps) == Spread(ps) - SquaredError(ps, intercept, gradient)
    ensures Spread(ps) == 0.0 ==> Slope(ps).value.explained == 1.0
  {
    hide SquaredError, Span, Gradient, Intercept, Spread, Highest, Lowest, IsRange, Sum;
    var best := SquaredError(ps, Intercept(ps), Gradient(ps));
    FitIsBest(ps, intercept, gradient);
    assert SquaredError(ps, intercept, gradient) <= best;
    SpanPositive(ps);
    TwiceDivided(best, (|ps| - 2) as real, Span(ps));
    Quotient(Sum(ps, Value()), |ps| as real);
    RangeIs(ps, Value());
    RangeIs(ps, Time());
    if Spread(ps) > 0.0 {
      Remains(best, Spread(ps));
    }
  }

  lemma Remains(x: real, y: real)
    requires y > 0.0
    ensures (1.0 - x / y) * y == y - x
  {
    Quotient(x, y);
    assert (1.0 - x / y) * y == 1.0 * y - x / y * y;
  }

  /** The part of the movement a line accounts for is a fraction; it is one exactly when
      every point is on the line. */
  lemma ExplainedIsFraction(ps: seq<Point>)
    requires Slope(ps).Some?
    ensures 0.0 <= Slope(ps).value.explained <= 1.0
    ensures Slope(ps).value.explained == 1.0 <==>
              forall p :: p in ps ==> p.v == Intercept(ps) + Gradient(ps) * p.t
    ensures Slope(ps).value.errorSquared >= 0.0
  {
    hide Mean, Span, Gradient, Intercept, SquaredError, Spread, Explained;
    var best := SquaredError(ps, Intercept(ps), Gradient(ps));
    SpreadIsLevel(ps);
    FitIsBest(ps, Mean(ps, Value()), 0.0);
    SpanPositive(ps);
    OnLine(ps, Intercept(ps), Gradient(ps));
    ExplainedOf(best, Spread(ps));
    NonNegative(best, (|ps| - 2) as real);
    NonNegative(best / (|ps| - 2) as real, Span(ps));
  }

  lemma ExplainedOf(error: real, spread: real)
    requires 0.0 <= error <= spread
    ensures 0.0 <= Explained(error, spread) <= 1.0 && (Explained(error, spread) == 1.0 <==> error == 0.0)
  {
    if spread != 0.0 {
      Fraction(error, spread);
    }
  }

  /** The spread of the values is the squared error of the level line through their mean. */
  lemma SpreadIsLevel(ps: seq<Point>)
    requires ps != []
    ensures Spread(ps) == SquaredError(ps, Mean(ps, Value()), 0.0)
  {
    hide Mean;
    var mv := Mean(ps, Value());
    SumSame(ps, Times(Residual(mv, 0.0), Residual(mv, 0.0)), Times(From(Value(), mv), From(Value(), mv)));
  }

  lemma OnLine(ps: seq<Point>, intercept: real, gradient: real)
    ensures SquaredError(ps, intercept, gradient) >= 0.0
    ensures SquaredError(ps, intercept, gradient) == 0.0 <==> forall p :: p in ps ==> p.v == intercept + gradient * p.t
  {
    var r := Residual(intercept, gradient);
    SumSquares(ps, r);
    assert forall p: Point :: r(p) == 0.0 <==> p.v == intercept + gradient * p.t;
  }

  lemma Fraction(x: real, y: real)
    requires 0.0 <= x <= y && y > 0.0
    ensures 0.0 <= x / y <= 1.0 && (x / y == 0.0 <==> x == 0.0)
  {
    Quotient(x, y);
  }

  lemma NonNegative(x: real, y: real)
    requires x >= 0.0 && y > 0.0
    ensures x / y >= 0.0
  {
  }

  // ----- shifting

  function Shift(ps: seq<Point>, d: real): (r: seq<Point>)
    ensures |r| == |ps|
  {
    seq(|ps|, i requires 0 <= i < |ps| => Point(ps[i].t, ps[i].v + d))
  }

  lemma ShiftLast(ps: seq<Point>, d: real)
    requires ps != []
    ensures var n := |ps| - 1;
            Shift(ps, d)[..n] == Shift(ps[..n], d) && Shift(ps, d)[n] == Point(ps[n].t, ps[n].v + d)
  {
  }

  /** A term that does not see the shift has the same sum. */
  lemma {:induction false} ShiftSum(ps: seq<Point>, d: real, f: Point -> real, g: Point -> real)
    requires forall t, v :: g(Point(t, v + d)) == f(Point(t, v))
    ensures Sum(Shift(ps, d), g) == Sum(ps, f)
  {
    if ps == [] {
    } else {
      var last := ps[|ps| - 1];
      ShiftSum(ps[..|ps| - 1], d, f, g);
      ShiftLast(ps, d);
      assert g(Point(last.t, last.v + d)) == f(Point(last.t, last.v));
    }
  }

  lemma ShiftMeans(ps: seq<Point>, d: real)
    requires ps != []
    ensures Mean(Shift(ps, d), Time()) == Mean(ps, Time())
    ensures Mean(Shift(ps, d), Value()) == Mean(ps, Value()) + d
  {
    var qs, n := Shift(ps, d), |ps| as real;
    ShiftSum(ps, d, Time(), Time());
    ShiftSum(ps, d, Value(), From(Value(), d));
    SumFrom(qs, Value(), d);
    hide Sum, Time, Value, From, Shift;
    assert Sum(qs, Value()) == Sum(ps, Value()) + n * d;
    Share(Sum(ps, Value()), n, d);
  }

  lemma Share(x: real, n: real, d: real)
    requires n > 0.0
    ensures (x + n * d) / n == x / n + d
  {
    Quotient(n * d, n);
  }

  lemma {:induction false} ShiftExtremes(ps: seq<Point>, d: real)
    requires ps != []
    ensures Highest(Shift(ps, d), Value()) == Highest(ps, Value()) + d
    ensures Lowest(Shift(ps, d), Value()) == Lowest(ps, Value()) + d
    ensures Highest(Shift(ps, d), Time()) == Highest(ps, Time())
    ensures Lowest(Shift(ps, d), Time()) == Lowest(ps, Time())
  {
    ShiftLast(ps, d);
    if |ps| <= 1 {
    } else {
      ShiftExtremes(ps[..|ps| - 1], d);
    }
  }

  /** The deviations, and so the line's gradient and its misses, are the same. */
  lemma ShiftParts(ps: seq<Point>, d: real)
    requires ps != []
    ensures Span(Shift(ps, d)) == Span(ps) && Spread(Shift(ps, d)) == Spread(ps)
    ensures Span(ps) != 0.0 ==>
              && Gradient(Shift(ps, d)) == Gradient(ps)
              && Intercept(Shift(ps, d)) == Intercept(ps) + d
  {
    hide Mean;
    ShiftMeans(ps, d);
    var qs := Shift(ps, d);
    var mt, mv := Mean(ps, Time()), Mean(ps, Value());
    var u, w, w' := From(Time(), mt), From(Value(), mv), From(Value(), mv + d);
    ShiftSum(ps, d, Times(u, u), Times(u, u));
    ShiftSum(ps, d, Times(w, w), Times(w', w'));
    ShiftSum(ps, d, Times(u, w), Times(u, w'));
  }

  lemma ShiftError(ps: seq<Point>, d: real, intercept: real, gradient: real)
    ensures SquaredError(Shift(ps, d), intercept + d, gradient) == SquaredError(ps, intercept, gradient)
  {
    var r, r' := Residual(intercept, gradient), Residual(intercept + d, gradient);
    assert forall t, v :: r'(Point(t, v + d)) == r(Point(t, v));
    ShiftSum(ps, d, Times(r, r), Times(r', r'));
  }

  /** Adding one constant to every value changes the mean and nothing else of the fit. */
  lemma ShiftKeepsFit(ps: seq<Point>, d: real)
    ensures Slope(ps).None? <==> Slope(Shift(ps, d)).None?
    ensures Slope(ps).Some? ==>
              Slope(Shift(ps, d)).value == Slope(ps).value.(mean := Slope(ps).value.mean + d)
  {
    if |ps| >= 4 {
      hide Mean, Span, Gradient, Intercept, Spread, SquaredError, Highest, Lowest;
      ShiftParts(ps, d);
      ShiftMeans(ps, d);
      ShiftExtremes(ps, d);
      if Span(ps) != 0.0 {
        ShiftError(ps, d, Intercept(ps), Gradient(ps));
      }
    }
  }

  // ----- the population check

  /** Significance below three, with the comparison squared: |gradient| / error < 3, where a
      zero error makes the significance zero for a zero gradient and infinite otherwise. */
  predicate Insignificant(fit: Fit) {
    if fit.errorSquared != 0.0 then fit.perSecond * fit.perSecond < 9.0 * fit.errorSquared
    else fit.perSecond == 0.0
  }

  function Magnitude(x: real): real {
    if x < 0.0 then -x else x
  }

  /** With the standard error itself: the gradient is less than three of them from zero. */
  lemma InsignificantIff(fit: Fit, error: real)
    requires error >= 0.0 && error * error == fit.errorSquared
    ensures Insignificant(fit) <==>
              if error == 0.0 then fit.perSecond == 0.0 else Magnitude(fit.perSecond) / error < 3.0
  {
    var g := Magnitude(fit.perSecond);
    assert g * g == fit.perSecond * fit.perSecond;
    if error > 0.0 {
      Quotient(g, error);
      ThreeErrors(g, error, g / error);
    }
  }

  lemma ThreeErrors(g: real, error: real, q: real)
    requires g >= 0.0 && error > 0.0 && q * error == g
    ensures error * error != 0.0 && (g * g < 9.0 * (error * error) <==> q < 3.0)
  {
    if q < 3.0 {
      assert g < 3.0 * error by {
        assert (3.0 - q) * error > 0.0;
      }
      SquareLess(g, 3.0 * error);
    } else {
      assert g >= 3.0 * error by {
        assert (q - 3.0) * error >= 0.0;
      }
      SquareAtLeast(3.0 * error, g);
    }
  }

  lemma SquareLess(x: real, y: real)
    requires 0.0 <= x < y
    ensures x * x < y * y
  {
    Weighted(y - x, y + x);
    assert (y + x) * (y - x) == y * y - x * x;
  }

  lemma SquareAtLeast(x: real, y: real)
    requires 0.0 <= x <= y
    ensures x * x <= y * y
  {
    assert x * x <= x * y;
    assert x * y <= y * y;
  }

  /** None when there is nothing to fit. */
  function PopulationIsComparable(ps: seq<Point>): Option<bool> {
    match Slope(ps)
    case None => None
    case Some(fit) => Some(Insignificant(fit))
  }

  /** A constant omission does not change the answer, and a constant count is comparable. */
  lemma OmissionIsHarmless(ps: seq<Point>, d: real)
    ensures PopulationIsComparable(Shift(ps, d)) == PopulationIsComparable(ps)
    ensures Slope(ps).Some? && (forall p, q :: p in ps && q in ps ==> p.v == q.v) ==>
              PopulationIsComparable(ps) == Some(true)
  {
    hide Slope;
    ShiftKeepsFit(ps, d);
    if Slope(ps).Some? && (forall p, q :: p in ps && q in ps ==> p.v == q.v) {
      LevelFit(ps);
    }
  }

  lemma LevelFit(ps: seq<Point>)
    requires Slope(ps).Some? && forall p, q :: p in ps && q in ps ==> p.v == q.v
    ensures Slope(ps).value.perSecond == 0.0 && Slope(ps).value.errorSquared == 0.0
  {
    var level := ps[0].v;
    OnLine(ps, level, 0.0);
    OnLine(ps, Intercept(ps), Gradient(ps));
    FitIsBest(ps, level, 0.0);
  }
}
