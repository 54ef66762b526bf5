/** Points in canvas coordinates, the Euclidean distance the source takes from
    `Math.hypot`, and the quadratic Bezier point used by connectors. */
module Geometry {

  datatype Point = Point(x: real, y: real)

  /** `Math.hypot(dx, dy)` is a foreign call; the model receives it as a
      function value and relies only on this contract: the non-negative square
      root of dx*dx + dy*dy. */
  ghost predicate IsHypot(hypot: (real, real) -> real)
  {
    forall dx: real, dy: real :: IsRootOfSquares(hypot, dx, dy)
  }

  /** The contract at one argument pair. Quantifying over this predicate,
      rather than over `hypot` itself, keeps the non-linear fact out of proofs
      that only carry distances around; `DistanceFacts` brings it in. */
  ghost predicate IsRootOfSquares(hypot: (real, real) -> real, dx: real, dy: real)
  {
    0.0 <= hypot(dx, dy) && hypot(dx, dy) * hypot(dx, dy) == dx * dx + dy * dy
  }

  /** A distance is non-negative and squares to the sum of the squared
      coordinate differences. */
  lemma DistanceFacts(hypot: (real, real) -> real, a: Point, b: Point)
    requires IsHypot(hypot)
    ensures 0.0 <= Distance(hypot, a, b)
    ensures Distance(hypot, a, b) * Distance(hypot, a, b) == (a.x - b.x) * (a.x - b.x) + (a.y - b.y) * (a.y - b.y)
  {
    assert IsRootOfSquares(hypot, a.x - b.x, a.y - b.y);
  }

  /** `distance(p1, p2)` of events.js and ring.js. */
  function Distance(hypot: (real, real) -> real, a: Point, b: Point): real
  {
    hypot(a.x - b.x, a.y - b.y)
  }

  /** Sine and cosine, foreign to the model, passed in where the source calls them. */
  datatype Trig = Trig(sin: real -> real, cos: real -> real)

  /** p5's TWO_PI, as the double the library defines. */
  const TwoPi: real := 6.283185307179586

  lemma DistanceIsSquareRoot(hypot: (real, real) -> real, a: Point, b: Point, d: real)
    requires IsHypot(hypot)
    requires 0.0 <= d && d * d == (a.x - b.x) * (a.x - b.x) + (a.y - b.y) * (a.y - b.y)
    ensures Distance(hypot, a, b) == d
  {
    var h := Distance(hypot, a, b);
    DistanceFacts(hypot, a, b);
    assert 0.0 <= h && h * h == d * d;
    SquareRootUnique(h, d);
  }

  lemma SquareRootUnique(a: real, b: real)
    requires 0.0 <= a && 0.0 <= b && a * a == b * b
    ensures a == b
  {
    if a < b {
      SquareLess(a, b, a * a, b * b);
    } else if b < a {
      SquareLess(b, a, b * b, a * a);
    }
  }

  /** Squaring is strictly increasing on the non-negative reals. The products
      are passed as plain values so that the solver only chains inequalities. */
  lemma SquareLess(a: real, b: real, aa: real, bb: real)
    requires 0.0 <= a < b && aa == a * a && bb == b * b
    ensures aa < bb
  {
    var ab := a * b;
    MulMonotone(a, a, b, aa, ab);
    MulStrict(b, a, b, ab, bb);
  }

  lemma MulMonotone(k: real, x: real, y: real, kx: real, ky: real)
    requires 0.0 <= k && x <= y && kx == k * x && ky == k * y
    ensures kx <= ky
  {
    assert ky - kx == k * (y - x);
  }

  lemma MulStrict(k: real, x: real, y: real, kx: real, ky: real)
    requires 0.0 < k && x < y && kx == k * x && ky == k * y
    ensures kx < ky
  {
    assert ky - kx == k * (y - x);
  }

  /** A point at parameter t on the quadratic Bezier curve p0 -> p2 with control
      point p1 (`computeQuadraticPoint` in events.js, `getQuadraticPoint` in
      connector.js: the same formula). */
  function QuadraticPoint(p0: Point, p1: Point, p2: Point, t: real): (p: Point)
    ensures t == 0.0 ==> p == p0
    ensures t == 1.0 ==> p == p2
  {
    var u := 1.0 - t;
    var tt := t * t;
    var uu := u * u;
    Point(uu * p0.x + 2.0 * u * t * p1.x + tt * p2.x,
          uu * p0.y + 2.0 * u * t * p1.y + tt * p2.y)
  }

  /** For 0 <= t <= 1 the curve point is a convex combination of the three
      control points, so each coordinate lies between their least and greatest. */
  lemma QuadraticPointInHull(p0: Point, p1: Point, p2: Point, t: real)
    requires 0.0 <= t <= 1.0
    ensures Min3(p0.x, p1.x, p2.x) <= QuadraticPoint(p0, p1, p2, t).x <= Max3(p0.x, p1.x, p2.x)
    ensures Min3(p0.y, p1.y, p2.y) <= QuadraticPoint(p0, p1, p2, t).y <= Max3(p0.y, p1.y, p2.y)
  {
    var u := 1.0 - t;
    var a, b, c := u * u, 2.0 * u * t, t * t;
    MulMonotone(u, 0.0, u, 0.0, a);
    MulMonotone(t, 0.0, t, 0.0, c);
    MulMonotone(2.0 * u, 0.0, t, 0.0, b);
    assert a + b + c == (u + t) * (u + t);
    ConvexCombination(a, b, c, p0.x, p1.x, p2.x, QuadraticPoint(p0, p1, p2, t).x);
    ConvexCombination(a, b, c, p0.y, p1.y, p2.y, QuadraticPoint(p0, p1, p2, t).y);
  }

  /** A weighted average with non-negative weights summing to one lies between
      the least and the greatest of the averaged values. */
  lemma ConvexCombination(a: real, b: real, c: real, x0: real, x1: real, x2: real, s: real)
    requires 0.0 <= a && 0.0 <= b && 0.0 <= c && a + b + c == 1.0
    requires s == a * x0 + b * x1 + c * x2
    ensures Min3(x0, x1, x2) <= s <= Max3(x0, x1, x2)
  {
    var lo, hi := Min3(x0, x1, x2), Max3(x0, x1, x2);
    var p0, p1, p2 := a * x0, b * x1, c * x2;
    var l0, l1, l2 := a * lo, b * lo, c * lo;
    var h0, h1, h2 := a * hi, b * hi, c * hi;
    MulMonotone(a, lo, x0, l0, p0);
    MulMonotone(b, lo, x1, l1, p1);
    MulMonotone(c, lo, x2, l2, p2);
    MulMonotone(a, x0, hi, p0, h0);
    MulMonotone(b, x1, hi, p1, h1);
    MulMonotone(c, x2, hi, p2, h2);
    assert l0 + l1 + l2 == (a + b + c) * lo;
    assert h0 + h1 + h2 == (a + b + c) * hi;
  }

  function Min3(a: real, b: real, c: real): real
  {
    if a <= b && a <= c then a else if b <= c then b else c
  }

  function Max3(a: real, b: real, c: real): real
  {
    if a >= b && a >= c then a else if b >= c then b else c
  }

  /** The sample count `sampleThresholdInfluence` uses along a connector. */
  const BezierSteps: nat := 32

  /** The probe points t = i/32, i = 0..32, along a connector's curve. */
  function BezierSamples(p0: Point, p1: Point, p2: Point): (s: seq<Point>)
    ensures |s| == BezierSteps + 1
    ensures s[0] == p0 && s[BezierSteps] == p2
    ensures forall i :: 0 <= i <= BezierSteps ==> s[i] == QuadraticPoint(p0, p1, p2, i as real / BezierSteps as real)
  {
    seq(BezierSteps + 1, i requires 0 <= i <= BezierSteps => QuadraticPoint(p0, p1, p2, i as real / BezierSteps as real))
  }
}
