/** The threshold field of the interaction manager (abstract-wheels/events.js):
    listener and mouse thresholds, the influence they exert at a point (the
    greatest single contribution, never the sum), the listener picked for
    removal, the visual bounds of a ring and the alpha/factor interpolation.
    Everything here is a value computation; the stateful manager that owns the
    threshold list lives in module Interaction. */
module Thresholds {
  import opened Util
  import opened Geometry

  /** A listener is numbered by the manager's id counter; the pointer's own
      threshold carries the id 'mouse'. */
  datatype ThresholdId = Listener(n: nat) | Mouse

  datatype Threshold = Threshold(id: ThresholdId, center: Point, radius: real, falloff: real, intensity: real)

  /** Bounds of the mouse threshold radius and the step of the bracket keys. */
  const MinRadius: real := 10.0
  const MaxRadius: real := 125.0
  const DefaultRadius: real := 15.0
  const RadiusStep: real := 5.0
  /** Stored on every threshold; no computation reads it. */
  const DefaultFalloff: real := 140.0

  /** What one threshold adds at point p: nothing for a zero radius or beyond
      the radius, otherwise the linear falloff 1 - d/r scaled by its intensity. */
  function Contribution(hypot: (real, real) -> real, t: Threshold, p: Point): real
  {
    if t.radius == 0.0 then 0.0
    else
      var d := Distance(hypot, p, t.center);
      if d > t.radius then 0.0 else (1.0 - d / t.radius) * t.intensity
  }

  /** A threshold of positive radius and intensity in [0, 1] contributes a value
      between 0 and its intensity: the full intensity at its centre, nothing
      beyond its radius, and less the farther the point lies. */
  lemma ContributionRange(hypot: (real, real) -> real, t: Threshold, p: Point, q: Point)
    requires IsHypot(hypot) && 0.0 < t.radius && 0.0 <= t.intensity <= 1.0
    ensures 0.0 <= Contribution(hypot, t, p) <= t.intensity
    ensures Distance(hypot, p, t.center) == 0.0 ==> Contribution(hypot, t, p) == t.intensity
    ensures Distance(hypot, p, t.center) > t.radius ==> Contribution(hypot, t, p) == 0.0
    ensures Distance(hypot, p, t.center) <= Distance(hypot, q, t.center) ==>
              Contribution(hypot, t, q) <= Contribution(hypot, t, p)
  {
    var dp, dq := Distance(hypot, p, t.center), Distance(hypot, q, t.center);
    var fp, fq := Falloff(dp, t.radius), Falloff(dq, t.radius);
    DistanceFacts(hypot, p, t.center);
    DistanceFacts(hypot, q, t.center);
    if dp <= t.radius {
      MulMonotone(t.intensity, 0.0, fp, t.intensity * 0.0, t.intensity * fp);
      MulMonotone(t.intensity, fp, 1.0, t.intensity * fp, t.intensity * 1.0);
      assert Contribution(hypot, t, p) == fp * t.intensity;
    }
    if dp <= dq && dq <= t.radius {
      FalloffMonotone(dp, dq, t.radius);
      MulMonotone(t.intensity, fq, fp, t.intensity * fq, t.intensity * fp);
      assert Contribution(hypot, t, q) == fq * t.intensity;
    }
  }

  /** The unscaled falloff 1 - d/r inside the radius. */
  function Falloff(d: real, r: real): (f: real)
    requires 0.0 < r
    ensures 0.0 <= d <= r ==> 0.0 <= f <= 1.0
    ensures d == 0.0 ==> f == 1.0
  {
    DivideBelow(d, r);
    1.0 - d / r
  }

  /** The falloff shrinks as the distance grows. */
  lemma FalloffMonotone(d: real, e: real, r: real)
    requires 0.0 < r && d <= e
    ensures Falloff(e, r) <= Falloff(d, r)
  {
    var q, s := d / r, e / r;
    assert q * r == d && s * r == e;
    if s < q {
      MulStrict(r, s, q, r * s, r * q);
    }
  }

  lemma DivideBelow(d: real, r: real)
    requires 0.0 < r
    ensures 0.0 <= d <= r ==> 0.0 <= d / r <= 1.0
  {
    if 0.0 <= d <= r {
      var q := d / r;
      assert q * r == d;
      if q < 0.0 {
        MulStrict(r, q, 0.0, r * q, r * 0.0);
      }
      if 1.0 < q {
        MulStrict(r, 1.0, q, r * 1.0, r * q);
      }
    }
  }

  /** The running maximum of `getThresholdInfluenceAt` before its final clamp:
      0 for no thresholds, otherwise the greatest of 0 and every contribution. */
  function Peak(hypot: (real, real) -> real, ts: seq<Threshold>, p: Point): (r: real)
    ensures 0.0 <= r
  {
    if |ts| == 0 then 0.0
    else Max(Peak(hypot, ts[..|ts| - 1], p), Contribution(hypot, ts[|ts| - 1], p))
  }

  /** The peak bounds every contribution and is 0 or one of them. */
  lemma {:induction false} PeakIsMaximum(hypot: (real, real) -> real, ts: seq<Threshold>, p: Point)
    ensures forall i :: 0 <= i < |ts| ==> Contribution(hypot, ts[i], p) <= Peak(hypot, ts, p)
    ensures Peak(hypot, ts, p) == 0.0 || exists i :: 0 <= i < |ts| && Contribution(hypot, ts[i], p) == Peak(hypot, ts, p)
    decreases |ts|
  {
    if |ts| > 0 {
      var front := ts[..|ts| - 1];
      PeakIsMaximum(hypot, front, p);
      var r := Peak(hypot, ts, p);
      forall i | 0 <= i < |front|
        ensures Contribution(hypot, ts[i], p) <= r
      {
        assert front[i] == ts[i];
      }
      if r != 0.0 && r != Contribution(hypot, ts[|ts| - 1], p) {
        var i :| 0 <= i < |front| && Contribution(hypot, front[i], p) == r;
        assert front[i] == ts[i];
      }
    }
  }

  /** The influence of a list of active thresholds at p, in [0, 1]. */
  function InfluenceAt(hypot: (real, real) -> real, ts: seq<Threshold>, p: Point): (r: real)
    ensures 0.0 <= r <= 1.0
    ensures |ts| == 0 ==> r == 0.0
  {
    if |ts| == 0 then 0.0 else Clamp01(Peak(hypot, ts, p))
  }

  /** The greatest influence over the first n of a run of probe points, as
      the probing loops of `getSolidThresholdSample` and
      `sampleThresholdInfluence` accumulate it. */
  function PeakAlong(hypot: (real, real) -> real, ts: seq<Threshold>, ps: seq<Point>, n: nat): (r: real)
    requires n <= |ps|
    ensures 0.0 <= r <= 1.0
    decreases n
  {
    if n == 0 then 0.0 else Max(PeakAlong(hypot, ts, ps, n - 1), InfluenceAt(hypot, ts, ps[n - 1]))
  }

  /** The peak bounds the influence at every probe it covers. */
  lemma {:induction false} PeakAlongBounds(hypot: (real, real) -> real, ts: seq<Threshold>, ps: seq<Point>, n: nat)
    requires n <= |ps|
    ensures forall i :: 0 <= i < n ==> InfluenceAt(hypot, ts, ps[i]) <= PeakAlong(hypot, ts, ps, n)
    decreases n
  {
    if n > 0 {
      PeakAlongBounds(hypot, ts, ps, n - 1);
      var peak := PeakAlong(hypot, ts, ps, n);
      forall i | 0 <= i < n
        ensures InfluenceAt(hypot, ts, ps[i]) <= peak
      {
        if i < n - 1 {
          assert InfluenceAt(hypot, ts, ps[i]) <= PeakAlong(hypot, ts, ps, n - 1);
        }
      }
    }
  }

  /** A positive peak is the influence at one of the probes it covers. */
  lemma {:induction false} PeakAlongReached(hypot: (real, real) -> real, ts: seq<Threshold>, ps: seq<Point>, n: nat)
    requires n <= |ps|
    ensures PeakAlong(hypot, ts, ps, n) == 0.0 ||
            exists i :: 0 <= i < n && InfluenceAt(hypot, ts, ps[i]) == PeakAlong(hypot, ts, ps, n)
    decreases n
  {
    if n > 0 {
      PeakAlongReached(hypot, ts, ps, n - 1);
    }
  }

  /** The peak is the only value that bounds every covered probe and is
      either 0 or reached at one of them. */
  lemma PeakAlongUnique(hypot: (real, real) -> real, ts: seq<Threshold>, ps: seq<Point>, n: nat, m: real)
    requires n <= |ps| && 0.0 <= m
    requires forall i :: 0 <= i < n ==> InfluenceAt(hypot, ts, ps[i]) <= m
    requires m == 0.0 || exists i :: 0 <= i < n && InfluenceAt(hypot, ts, ps[i]) == m
    ensures m == PeakAlong(hypot, ts, ps, n)
  {
    PeakAlongBounds(hypot, ts, ps, n);
    PeakAlongReached(hypot, ts, ps, n);
  }

  /** Once the first k probes reach full influence, so do the first n >= k:
      later probes cannot change the peak, which is why the probing loops stop. */
  lemma PeakAlongSaturates(hypot: (real, real) -> real, ts: seq<Threshold>, ps: seq<Point>, k: nat, n: nat)
    requires k <= n <= |ps| && PeakAlong(hypot, ts, ps, k) >= 1.0
    ensures PeakAlong(hypot, ts, ps, n) == 1.0
  {
    PeakAlongReached(hypot, ts, ps, k);
    PeakAlongBounds(hypot, ts, ps, n);
  }

  /** The loop of `getThresholdInfluenceAt`: a running best that starts at 0 and
      is replaced by any larger scaled falloff of a threshold in range. */
  method MaxContribution(hypot: (real, real) -> real, ts: seq<Threshold>, p: Point) returns (best: real)
    ensures best == Peak(hypot, ts, p)
  {
    best := 0.0;
    var i := 0;
    while i < |ts|
      invariant 0 <= i <= |ts|
      invariant best == Peak(hypot, ts[..i], p)
    {
      var t := ts[i];
      ghost var before := best;
      if t.radius != 0.0 {
        var dist := Distance(hypot, p, t.center);
        if dist <= t.radius {
          var influence := 1.0 - dist / t.radius;
          var scaled := influence * t.intensity;
          assert scaled == Contribution(hypot, t, p);
          if scaled > best {
            best := scaled;
          }
        }
      }
      assert best == Max(before, Contribution(hypot, t, p));
      PeakStep(hypot, ts, i, p);
      i := i + 1;
    }
    assert ts[..|ts|] == ts;
  }

  lemma PeakStep(hypot: (real, real) -> real, ts: seq<Threshold>, i: nat, p: Point)
    requires i < |ts|
    ensures Peak(hypot, ts[..i + 1], p) == Max(Peak(hypot, ts[..i], p), Contribution(hypot, ts[i], p))
  {
    assert ts[..i + 1][..i] == ts[..i];
  }

  /** The influence does not depend on the order of the thresholds. */
  lemma PeakPermutation(hypot: (real, real) -> real, ts: seq<Threshold>, us: seq<Threshold>, p: Point)
    requires multiset(ts) == multiset(us)
    ensures Peak(hypot, ts, p) == Peak(hypot, us, p)
  {
    forall t | t in ts
      ensures t in us
    {
      assert t in multiset(ts);
    }
    forall t | t in us
      ensures t in ts
    {
      assert t in multiset(us);
    }
    PeakBelow(hypot, ts, us, p);
    PeakBelow(hypot, us, ts, p);
  }

  /** When every threshold of ts also occurs in us, the peak over ts is at most
      the peak over us: adding thresholds never lowers the influence. */
  lemma PeakBelow(hypot: (real, real) -> real, ts: seq<Threshold>, us: seq<Threshold>, p: Point)
    requires forall t :: t in ts ==> t in us
    ensures Peak(hypot, ts, p) <= Peak(hypot, us, p)
  {
    var r := Peak(hypot, ts, p);
    PeakIsMaximum(hypot, ts, p);
    PeakIsMaximum(hypot, us, p);
    if r != 0.0 {
      var i :| 0 <= i < |ts| && Contribution(hypot, ts[i], p) == r;
      assert ts[i] in us;
      var j :| 0 <= j < |us| && us[j] == ts[i];
    }
  }

  /** Max, not sum: a threshold that duplicates one already present leaves the
      influence unchanged, and so do any number of copies. */
  lemma PeakIgnoresDuplicate(hypot: (real, real) -> real, ts: seq<Threshold>, t: Threshold, p: Point)
    requires t in ts
    ensures Peak(hypot, ts + [t], p) == Peak(hypot, ts, p)
  {
    PeakBelow(hypot, ts, ts + [t], p);
    PeakBelow(hypot, ts + [t], ts, p);
  }

  /** Two listeners of radius 20 placed on the same spot still give influence 1
      there, not 2. */
  lemma CoincidentListenersDoNotAdd(hypot: (real, real) -> real, c: Point)
    requires IsHypot(hypot)
    ensures var t1 := Threshold(Listener(1), c, 20.0, DefaultFalloff, 1.0);
            var t2 := Threshold(Listener(2), c, 20.0, DefaultFalloff, 1.0);
            InfluenceAt(hypot, [t1, t2], c) == 1.0
  {
    var t1 := Threshold(Listener(1), c, 20.0, DefaultFalloff, 1.0);
    var t2 := Threshold(Listener(2), c, 20.0, DefaultFalloff, 1.0);
    var h := Distance(hypot, c, c);
    DistanceFacts(hypot, c, c);
    SquareRootUnique(h, 0.0);
    assert [t1, t2][..1] == [t1];
    assert Contribution(hypot, t1, c) == 1.0;
    assert Contribution(hypot, t2, c) == 1.0;
  }

  /** The listener `removeThresholdNear` picks: within its own radius, at least
      as close as every listener in range, and strictly closer than every
      earlier one in range (the first of equally close ones wins). */
  ghost predicate InRange(hypot: (real, real) -> real, t: Threshold, p: Point)
  {
    Distance(hypot, p, t.center) <= t.radius
  }

  ghost predicate IsNearestInRange(hypot: (real, real) -> real, ts: seq<Threshold>, p: Point, k: nat)
  {
    k < |ts| && InRange(hypot, ts[k], p) &&
    (forall j :: 0 <= j < |ts| && InRange(hypot, ts[j], p) ==>
       Distance(hypot, p, ts[k].center) <= Distance(hypot, p, ts[j].center)) &&
    (forall j :: 0 <= j < k && InRange(hypot, ts[j], p) ==>
       Distance(hypot, p, ts[k].center) < Distance(hypot, p, ts[j].center))
  }

  /** The search loop of `removeThresholdNear`: the index of the nearest
      listener in range, or None when no listener has p within its radius. */
  method NearestInRange(hypot: (real, real) -> real, ts: seq<Threshold>, p: Point) returns (k: Option<nat>)
    ensures k.None? <==> forall j :: 0 <= j < |ts| ==> !InRange(hypot, ts[j], p)
    ensures k.Some? ==> IsNearestInRange(hypot, ts, p, k.value)
  {
    k := None;
    var candidateDist := 0.0;
    var i := 0;
    while i < |ts|
      invariant 0 <= i <= |ts|
      invariant k.None? <==> forall j :: 0 <= j < i ==> !InRange(hypot, ts[j], p)
      invariant k.Some? ==> k.value < i && candidateDist == Distance(hypot, p, ts[k.value].center)
      invariant k.Some? ==> IsNearestInRange(hypot, ts[..i], p, k.value)
    {
      var d := Distance(hypot, p, ts[i].center);
      if (k.None? || d < candidateDist) && d <= ts[i].radius {
        candidateDist := d;
        k := Some(i);
      }
      i := i + 1;
    }
    assert ts[..|ts|] == ts;
  }

  /** The list after removing index k: the entries before and after it, in
      their old order. */
  function RemoveAt<T>(s: seq<T>, k: nat): (r: seq<T>)
    requires k < |s|
    ensures |r| == |s| - 1
    ensures forall j :: 0 <= j < k ==> r[j] == s[j]
    ensures forall j :: k <= j < |r| ==> r[j] == s[j + 1]
    ensures multiset(r) + multiset{s[k]} == multiset(s)
  {
    assert s == s[..k] + [s[k]] + s[k + 1..];
    s[..k] + s[k + 1..]
  }

  /** Ring styles. */
  datatype RingKind = Solid | Dots | Rays

  datatype Bounds = Bounds(inner: real, outer: real)

  /** `getRingVisualBounds`: the annulus a ring occupies on screen. A solid ring
      is stroked on the circle of radius inner + outer with the stroke width
      outer - inner, dots sit on the middle circle padded by 0.3 of the width but at least 4,
      rays span the ring itself widened by 6 on either side. */
  function RingVisualBounds(innerR: real, outerR: real, kind: RingKind): (b: Bounds)
    ensures 0.0 <= b.inner <= b.outer
    ensures var lo := Max(0.0, innerR);
            var hi := Max(lo, if outerR == 0.0 then lo else outerR);
            match kind
            case Solid =>
              b.outer == (lo + hi) + (hi - lo) / 2.0 &&
              b.inner == Max(0.0, (lo + hi) - (hi - lo) / 2.0)
            case Dots =>
              b.outer - (lo + hi) / 2.0 >= 4.0 &&
              b.outer - (lo + hi) / 2.0 >= (hi - lo) * 0.3 &&
              b.outer == (lo + hi) / 2.0 + Max((hi - lo) * 0.3, 4.0) &&
              b.inner == Max(0.0, (lo + hi) / 2.0 - (b.outer - (lo + hi) / 2.0))
            case Rays =>
              b.inner <= lo && hi + 6.0 == b.outer &&
              b.inner == Max(0.0, lo - 6.0)
  {
    var baseInner := Max(0.0, innerR);
    var baseOuter := Max(baseInner, if outerR == 0.0 then baseInner else outerR);
    match kind
    case Solid =>
      var thickness := baseOuter - baseInner;
      var coreRadius := baseInner + baseOuter;
      Bounds(Max(0.0, coreRadius - thickness * 0.5), coreRadius + thickness * 0.5)
    case Dots =>
      var mid := (baseInner + baseOuter) * 0.5;
      var spread := Max(baseOuter - baseInner, 8.0);
      var padding := Max(spread * 0.3, 4.0);
      Bounds(Max(0.0, mid - padding), mid + padding)
    case Rays =>
      var padding := 6.0;
      Bounds(Max(0.0, baseInner - padding), baseOuter + padding)
  }

  /** Interpolation from lo towards hi by amt in [0, 1]. */
  function Lerp(lo: real, hi: real, amt: real): (r: real)
    requires lo <= hi && 0.0 <= amt <= 1.0
    ensures lo <= r <= hi
    ensures amt == 0.0 ==> r == lo
    ensures amt == 1.0 ==> r == hi
  {
    var w := hi - lo;
    MulMonotone(w, 0.0, amt, w * 0.0, w * amt);
    MulMonotone(w, amt, 1.0, w * amt, w * 1.0);
    lo + w * amt
  }

  lemma LerpMonotone(lo: real, hi: real, a1: real, a2: real)
    requires lo <= hi && 0.0 <= a1 <= a2 <= 1.0
    ensures Lerp(lo, hi, a1) <= Lerp(lo, hi, a2)
  {
    MulMonotone(hi - lo, a1, a2, (hi - lo) * a1, (hi - lo) * a2);
  }

  /** `alphaFromInfluence`: an alpha between the clamped base and highlight,
      both within [0, 255]; the base for no influence, the highlight for full
      influence. */
  function AlphaFromInfluence(baseAlpha: real, highlightAlpha: real, influence: real): (a: real)
    ensures 0.0 <= a <= 255.0
    ensures Clamp(0.0, 255.0, baseAlpha) <= a
    ensures influence <= 0.0 ==> a == Clamp(0.0, 255.0, baseAlpha)
    ensures influence >= 1.0 ==> a == Max(Clamp(0.0, 255.0, baseAlpha), Min(255.0, highlightAlpha))
  {
    var base := Clamp(0.0, 255.0, baseAlpha);
    var hi := Max(base, Min(255.0, highlightAlpha));
    Lerp(base, hi, Clamp01(influence))
  }

  /** `factorFromInfluence`: like the alpha, without the upper bound of 255. */
  function FactorFromInfluence(baseFactor: real, highlightFactor: real, influence: real): (f: real)
    ensures Max(0.0, baseFactor) <= f <= Max(Max(0.0, baseFactor), highlightFactor)
    ensures influence <= 0.0 ==> f == Max(0.0, baseFactor)
    ensures influence >= 1.0 ==> f == Max(Max(0.0, baseFactor), highlightFactor)
  {
    var base := Max(0.0, baseFactor);
    var hi := Max(base, highlightFactor);
    Lerp(base, hi, Clamp01(influence))
  }

  /** More influence never gives a lower alpha or factor. */
  lemma {:induction false} InterpolationMonotone(base: real, hi: real, i1: real, i2: real)
    requires i1 <= i2
    ensures AlphaFromInfluence(base, hi, i1) <= AlphaFromInfluence(base, hi, i2)
    ensures FactorFromInfluence(base, hi, i1) <= FactorFromInfluence(base, hi, i2)
  {
    var b := Clamp(0.0, 255.0, base);
    LerpMonotone(b, Max(b, Min(255.0, hi)), Clamp01(i1), Clamp01(i2));
    LerpMonotone(Max(0.0, base), Max(Max(0.0, base), hi), Clamp01(i1), Clamp01(i2));
  }

  /** A connector's effect level `factorFromInfluence(0, 1, x)` is x clamped to
      [0, 1]. */
  lemma EffectLevelIsClampedInfluence(x: real)
    ensures FactorFromInfluence(0.0, 1.0, x) == Clamp01(x)
  {
    var a := Clamp01(x);
    assert Lerp(0.0, 1.0, a) == 0.0 + (1.0 - 0.0) * a;
  }

  /** Fade rates per second while a pointer is present and after it left, and
      the longest time step one update takes into account. */
  const FadeRateUp: real := 6.0
  const FadeRateDown: real := 2.5
  const MaxFadeStep: real := 0.2

  /** `updatePointerFade` as a function of the fade, the presence of a pointer
      and the milliseconds since the previous update. */
  function FadeAfter(fade: real, hasPointer: bool, elapsedMs: real): (r: real)
    ensures 0.0 <= elapsedMs && 0.0 <= fade <= 1.0 ==> 0.0 <= r <= 1.0
    ensures 0.0 <= elapsedMs && hasPointer ==> fade <= r || r == 1.0
    ensures 0.0 <= elapsedMs && !hasPointer ==> r <= fade || r == 0.0
    ensures hasPointer ==> r - fade <= MaxFadeStep * FadeRateUp
    ensures !hasPointer && r != 0.0 ==> fade - r <= MaxFadeStep * FadeRateDown
    ensures elapsedMs == 0.0 && 0.0 <= fade <= 1.0 ==> r == fade
  {
    var deltaSeconds := Min(MaxFadeStep, elapsedMs / 1000.0);
    if hasPointer then Min(1.0, fade + deltaSeconds * FadeRateUp)
    else Max(0.0, fade - deltaSeconds * FadeRateDown)
  }
}
