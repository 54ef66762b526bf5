/** The walk a ring or a connector makes over its probe points, judged
    against the interaction manager's thresholds: what the walk delivers, its
    running state, and the manager's pointer fade across a frame's queries
    (abstract-wheels/ring.js, `getSolidThresholdSample`, and
    abstract-wheels/connector.js, `sampleThresholdInfluence`). */
module Walks {
  import opened Util
  import opened Geometry
  import opened Interaction
  import opened Thresholds

  /** The interaction manager as a set: empty when there is none. */
  function Present(manager: InteractionManager?): (s: set<InteractionManager>)
    ensures manager != null <==> manager in s
    ensures |s| <= 1
  {
    if manager == null then {} else {manager}
  }

  /** An interaction manager, when there is one, well formed and not ahead
      of the clock. */
  ghost predicate ManagerReady(manager: InteractionManager?, now: real)
    reads manager
  {
    manager != null ==> manager.Valid() && manager.lastFadeUpdate <= now
  }

  /** The interaction manager's fade after a frame's queries, against the
      fade and clock it had before them: brought up to date once audio is
      ready, untouched otherwise. */
  ghost predicate SettledFrom(manager: InteractionManager, ready: bool, now: real, fade0: real, last0: real)
    reads manager
  {
    (ready ==>
       manager.pointerFade == FadeAfter(fade0, manager.pointer.Some?, now - last0) &&
       manager.lastFadeUpdate == now) &&
    (!ready ==> manager.pointerFade == fade0 && manager.lastFadeUpdate == last0)
  }

  /** The fade settled across a frame's queries. */
  twostate predicate FadeSettled(manager: InteractionManager, ready: bool, now: real)
    reads manager
  {
    SettledFrom(manager, ready, now, old(manager.pointerFade), old(manager.lastFadeUpdate))
  }

  /** What sweeping a curve for its influence leaves behind, against the
      fade, clock and thresholds in play before it: a well-formed manager
      with its fade settled, the level at the peak influence along the
      curve, and, when the fade was already up to date, the same thresholds
      in play as before. */
  ghost predicate SweptFrom(manager: InteractionManager, curve: seq<Point>, ready: bool, now: real, level: real,
                            fade0: real, last0: real, ts0: seq<Threshold>)
    reads manager
  {
    manager.Valid() && SettledFrom(manager, ready, now, fade0, last0) &&
    level == manager.PeakInfluence(curve, |curve|, ready) &&
    (ready && last0 == now ==> manager.ActiveThresholds(ready) == ts0)
  }

  /** A sweep of a curve, from the state before it. */
  twostate predicate Swept(manager: InteractionManager, curve: seq<Point>, ready: bool, now: real, level: real)
    reads manager
  {
    SweptFrom(manager, curve, ready, now, level,
              old(manager.pointerFade), old(manager.lastFadeUpdate), old(manager.ActiveThresholds(ready)))
  }

  /** What a walk over probe points delivers: the greatest influence along
      them, and the first probe that reaches it (no point when nothing
      reaches). The walk made `probed` queries, stopping at the first probe
      whose influence is 1. */
  ghost predicate PeakWalk(manager: InteractionManager, probes: seq<Point>, ready: bool,
                           influence: real, point: Option<Point>, probed: nat)
    reads manager
  {
    influence == manager.PeakInfluence(probes, |probes|, ready) &&
    (point.None? <==> influence == 0.0) &&
    (point.Some? ==> point.value in probes && manager.InfluenceNow(point.value, ready) == influence) &&
    1 <= probed <= |probes| &&
    (point.Some? ==>
       exists k :: 0 <= k < probed && probes[k] == point.value &&
         forall j :: 0 <= j < k ==> manager.InfluenceNow(probes[j], ready) < influence) &&
    (probed < |probes| ==> influence == 1.0) &&
    manager.PeakInfluence(probes, probed - 1, ready) < 1.0
  }

  /** The point is the first of the first n probes whose influence against
      ts is the best: every probe before it falls short of the best. */
  ghost predicate FirstReaching(hypot: (real, real) -> real, ts: seq<Threshold>, probes: seq<Point>, n: nat,
                                best: real, p: Point)
  {
    exists k :: 0 <= k < n && k < |probes| && probes[k] == p && InfluenceAt(hypot, ts, probes[k]) == best &&
      forall j :: 0 <= j < k ==> InfluenceAt(hypot, ts, probes[j]) < best
  }

  /** The running state of the walk after i probes, judged against the
      thresholds ts: the best so far is the peak over those probes and below
      1, and the point is the probe that reached it. */
  ghost predicate Scanning(hypot: (real, real) -> real, ts: seq<Threshold>, probes: seq<Point>, ready: bool,
                           i: nat, best: real, bestPoint: Option<Point>)
  {
    i <= |probes| && best < 1.0 &&
    best == (if ready then PeakAlong(hypot, ts, probes, i) else 0.0) &&
    (ready && i > 0 ==> PeakAlong(hypot, ts, probes, i - 1) < 1.0) &&
    (bestPoint.None? <==> best == 0.0) &&
    (bestPoint.Some? ==> ready && bestPoint.value in probes && InfluenceAt(hypot, ts, bestPoint.value) == best) &&
    (bestPoint.Some? ==> FirstReaching(hypot, ts, probes, i, best, bestPoint.value))
  }

  /** The outcome of a walk that made `probed` queries, judged against ts. */
  ghost predicate Scanned(hypot: (real, real) -> real, ts: seq<Threshold>, probes: seq<Point>, ready: bool,
                          probed: nat, best: real, bestPoint: Option<Point>)
  {
    1 <= probed <= |probes| &&
    best == (if ready then PeakAlong(hypot, ts, probes, |probes|) else 0.0) &&
    (ready ==> PeakAlong(hypot, ts, probes, probed - 1) < 1.0) &&
    (probed < |probes| ==> best == 1.0) &&
    (bestPoint.None? <==> best == 0.0) &&
    (bestPoint.Some? ==> ready && bestPoint.value in probes && InfluenceAt(hypot, ts, bestPoint.value) == best) &&
    (bestPoint.Some? ==> FirstReaching(hypot, ts, probes, probed, best, bestPoint.value))
  }

  /** One step of the walk: a larger influence replaces the best, and one
      that reaches 1 ends the walk with the peak over every probe. */
  lemma ScanStep(hypot: (real, real) -> real, ts: seq<Threshold>, probes: seq<Point>, ready: bool,
                 i: nat, best: real, bestPoint: Option<Point>, influence: real)
    requires i < |probes| && (i == 0 ==> best == 0.0 && bestPoint.None?)
    requires i > 0 ==> Scanning(hypot, ts, probes, ready, i, best, bestPoint)
    requires influence == (if ready then InfluenceAt(hypot, ts, probes[i]) else 0.0)
    ensures influence > best && influence >= 1.0 ==> Scanned(hypot, ts, probes, ready, i + 1, influence, Some(probes[i]))
    ensures influence > best && influence < 1.0 ==> Scanning(hypot, ts, probes, ready, i + 1, influence, Some(probes[i]))
    ensures influence <= best ==> Scanning(hypot, ts, probes, ready, i + 1, best, bestPoint)
  {
    if ready && influence > best {
      if i > 0 {
        PeakAlongBounds(hypot, ts, probes, i);
      }
      assert probes[i] == probes[i] && InfluenceAt(hypot, ts, probes[i]) == influence;
      assert FirstReaching(hypot, ts, probes, i + 1, influence, probes[i]);
      if influence >= 1.0 {
        PeakAlongSaturates(hypot, ts, probes, i + 1, |probes|);
      }
    }
  }

  /** A walk that met no full influence covered every probe. */
  lemma ScanEnd(hypot: (real, real) -> real, ts: seq<Threshold>, probes: seq<Point>, ready: bool,
                best: real, bestPoint: Option<Point>)
    requires |probes| > 0 && Scanning(hypot, ts, probes, ready, |probes|, best, bestPoint)
    ensures Scanned(hypot, ts, probes, ready, |probes|, best, bestPoint)
  {
  }

  /** The walk's outcome stated over a snapshot of the thresholds the fade
      left in place is the walk over the manager itself. */
  lemma WalkFromSnapshot(manager: InteractionManager, probes: seq<Point>, ready: bool, ts: seq<Threshold>,
                         best: real, bestPoint: Option<Point>, probed: nat)
    requires ready ==> ts == manager.ActiveThresholds(ready)
    requires Scanned(manager.hypot, ts, probes, ready, probed, best, bestPoint)
    ensures PeakWalk(manager, probes, ready, best, bestPoint, probed)
  {
  }

  /** Each level is the peak influence of thresholds ts along the curve at
      the same position (0 while audio is not ready), stated level by level
      from the last one back. */
  ghost predicate Measured(hypot: (real, real) -> real, ts: seq<Threshold>, curves: seq<seq<Point>>, levels: seq<real>, ready: bool)
    decreases |levels|
  {
    |levels| <= |curves| &&
    (|levels| > 0 ==>
       var n := |levels| - 1;
       Measured(hypot, ts, curves, levels[..n], ready) &&
       levels[n] == (if ready then PeakAlong(hypot, ts, curves[n], |curves[n]|) else 0.0))
  }

  /** One more measured level extends the measured prefix. */
  lemma MeasuredAppend(hypot: (real, real) -> real, ts: seq<Threshold>, curves: seq<seq<Point>>, levels: seq<real>,
                       level: real, ready: bool)
    requires Measured(hypot, ts, curves, levels, ready) && |levels| < |curves|
    requires level == (if ready then PeakAlong(hypot, ts, curves[|levels|], |curves[|levels|]|) else 0.0)
    ensures Measured(hypot, ts, curves, levels + [level], ready)
  {
    assert (levels + [level])[..|levels|] == levels;
  }

  /** A measured prefix holds the peak at every one of its positions. */
  lemma {:induction false} MeasuredAt(hypot: (real, real) -> real, ts: seq<Threshold>, curves: seq<seq<Point>>,
                                      levels: seq<real>, ready: bool, k: nat)
    requires Measured(hypot, ts, curves, levels, ready) && k < |levels|
    ensures k < |curves| && levels[k] == (if ready then PeakAlong(hypot, ts, curves[k], |curves[k]|) else 0.0)
    decreases |levels|
  {
    var n := |levels| - 1;
    if k < n {
      MeasuredAt(hypot, ts, curves, levels[..n], ready, k);
    }
  }

  /** A frame part-way through its connectors, as the interaction manager
      sees it: the manager is well formed and not ahead of the clock, every
      level so far lies in [0, 1] (exactly 1 without a manager) and is the
      peak influence of thresholds ts along its curve, and once a query has
      been made ts are the manager's active thresholds and its fade is up to
      date. */
  ghost predicate Measuring(manager: InteractionManager?, ready: bool, curves: seq<seq<Point>>, levels: seq<real>,
                            ts: seq<Threshold>, now: real)
    reads manager
  {
    ManagerReady(manager, now) &&
    |levels| <= |curves| &&
    (forall k :: 0 <= k < |levels| ==> 0.0 <= levels[k] <= 1.0) &&
    (manager == null ==> forall k :: 0 <= k < |levels| ==> levels[k] == 1.0) &&
    (manager != null && |levels| > 0 ==>
       ts == manager.ActiveThresholds(ready) && (ready ==> manager.lastFadeUpdate == now)) &&
    (manager != null ==> Measured(manager.hypot, ts, curves, levels, ready))
  }

  /** Each level is the peak influence the manager's thresholds have along
      the curve at the same position. */
  ghost predicate PeaksAlong(manager: InteractionManager, curves: seq<seq<Point>>, levels: seq<real>, ready: bool)
    reads manager
  {
    |levels| == |curves| &&
    forall k :: 0 <= k < |curves| ==> levels[k] == manager.PeakInfluence(curves[k], |curves[k]|, ready)
  }

  /** Levels measured against the manager's active thresholds are its peaks
      along the curves. */
  lemma MeasuredPeaks(manager: InteractionManager, ts: seq<Threshold>, curves: seq<seq<Point>>, levels: seq<real>, ready: bool)
    requires Measured(manager.hypot, ts, curves, levels, ready) && |levels| == |curves|
    requires ready && |curves| > 0 ==> ts == manager.ActiveThresholds(ready)
    ensures PeaksAlong(manager, curves, levels, ready)
  {
    forall k | 0 <= k < |curves|
      ensures levels[k] == manager.PeakInfluence(curves[k], |curves[k]|, ready)
    {
      MeasuredAt(manager.hypot, ts, curves, levels, ready, k);
    }
  }
}
