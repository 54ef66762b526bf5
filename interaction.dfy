/** The interaction manager of abstract-wheels/events.js: the ordered list of
    listener thresholds placed by clicks, the mouse threshold radius and output
    flag with their observers, the pointer with its fade and its suppression
    zone, the influence query every shape makes while drawing, and the
    reference ids handed out to shapes.

    Browser inputs are parameters: `ready` is whether the audio manager is
    enabled (`isAudioReady`), `now` is `performance.now()` in milliseconds, and
    a position of None is an event whose canvas position cannot be read.
    Observer callbacks are modelled by the list of values they were handed. */
module Interaction {
  import opened Util
  import opened Geometry
  import opened Thresholds

  /** The zone around a freshly placed listener in which the mouse threshold
      is muted until the pointer leaves it. */
  datatype Suppression = Suppression(center: Point, radius: real)

  /** A shape's reference id, written `prefix-n` by the source. */
  datatype RefId = RefId(prefix: string, n: nat)

  /** The two fields of a keyboard event the manager reads. */
  datatype KeyEvent = KeyEvent(code: string, key: string)

  /** Listeners as `addThreshold` creates them: numbered by the id counter in
      placement order, with a radius the clamp allows and intensity 1. */
  ghost predicate ListenersWellFormed(ts: seq<Threshold>, counter: nat)
  {
    (forall i :: 0 <= i < |ts| ==>
       ts[i].id.Listener? && 1 <= ts[i].id.n <= counter &&
       MinRadius <= ts[i].radius <= MaxRadius &&
       ts[i].falloff == DefaultFalloff && ts[i].intensity == 1.0) &&
    (forall i, j :: 0 <= i < j < |ts| ==> ts[i].id.n < ts[j].id.n)
  }

  /** Every shape holds its own number, none above the counter. */
  ghost predicate RefIdsWellFormed(ids: map<ShapeId, RefId>, counter: nat)
  {
    (forall s :: s in ids ==> 1 <= ids[s].n <= counter) &&
    (forall s1, s2 :: s1 in ids && s2 in ids && s1 != s2 ==> ids[s1].n != ids[s2].n)
  }

  class InteractionManager {
    /** `Math.hypot`. */
    const hypot: (real, real) -> real
    var listenerThresholds: seq<Threshold>
    var thresholdRadius: real
    var thresholdIdCounter: nat
    var referenceCounter: nat
    /** The id stored on each shape object by `ensureRefId`. */
    var refIds: map<ShapeId, RefId>
    var mouseOutputEnabled: bool
    var pointer: Option<Point>
    const thresholdFalloff: real
    var pointerFade: real
    var lastFadeUpdate: real
    var pointerSuppression: Option<Suppression>
    /** What the radius-change observers were handed, oldest first. */
    var radiusNotices: seq<real>
    /** What the mouse-output observers were handed, oldest first. */
    var mouseOutputNotices: seq<bool>

    ghost predicate Valid()
      reads this
    {
      Consistent() && 0.0 <= pointerFade <= 1.0
    }

    /** Everything `Valid` asks of the fields the pointer fade leaves alone. */
    ghost predicate Consistent()
      reads this`thresholdRadius, this`listenerThresholds, this`thresholdIdCounter,
            this`pointerSuppression, this`refIds, this`referenceCounter
    {
      IsHypot(hypot) &&
      MinRadius <= thresholdRadius <= MaxRadius &&
      thresholdFalloff == DefaultFalloff &&
      ListenersWellFormed(listenerThresholds, thresholdIdCounter) &&
      (pointerSuppression.Some? ==> MinRadius <= pointerSuppression.value.radius <= MaxRadius) &&
      RefIdsWellFormed(refIds, referenceCounter)
    }

    constructor (hypot: (real, real) -> real, now: real)
      requires IsHypot(hypot)
      ensures Valid() && this.hypot == hypot
      ensures listenerThresholds == [] && thresholdIdCounter == 0
      ensures thresholdRadius == DefaultRadius && mouseOutputEnabled
      ensures pointer == None && pointerFade == 0.0 && lastFadeUpdate == now && pointerSuppression == None
      ensures referenceCounter == 0 && refIds == map[]
      ensures radiusNotices == [] && mouseOutputNotices == []
    {
      this.hypot := hypot;
      listenerThresholds := [];
      thresholdRadius := DefaultRadius;
      thresholdIdCounter := 0;
      referenceCounter := 0;
      refIds := map[];
      mouseOutputEnabled := true;
      pointer := None;
      thresholdFalloff := DefaultFalloff;
      pointerFade := 0.0;
      lastFadeUpdate := now;
      pointerSuppression := None;
      radiusNotices := [];
      mouseOutputNotices := [];
    }

    /** `setMouseThresholdRadius`: None stands for a value that is not a finite
        number, which keeps the current radius. Observers hear of the new radius
        only when it differs from the old one. */
    method SetMouseThresholdRadius(value: Option<real>)
      requires Valid()
      modifies this`thresholdRadius, this`radiusNotices
      ensures Valid()
      ensures thresholdRadius == Clamp(MinRadius, MaxRadius, value.GetOr(old(thresholdRadius)))
      ensures radiusNotices ==
                if thresholdRadius == old(thresholdRadius) then old(radiusNotices)
                else old(radiusNotices) + [thresholdRadius]
      ensures value.None? ==> thresholdRadius == old(thresholdRadius) && radiusNotices == old(radiusNotices)
    {
      var numeric := if value.Some? then value.value else thresholdRadius;
      var clamped := Max(MinRadius, Min(MaxRadius, numeric));
      if clamped == thresholdRadius {
        return;
      }
      thresholdRadius := clamped;
      radiusNotices := radiusNotices + [thresholdRadius];
    }

    /** `adjustThresholdRadius`: the radius moved by delta, through the clamp. */
    method AdjustThresholdRadius(delta: real)
      requires Valid()
      modifies this`thresholdRadius, this`radiusNotices
      ensures Valid()
      ensures thresholdRadius == Clamp(MinRadius, MaxRadius, old(thresholdRadius) + delta)
      ensures radiusNotices ==
                if thresholdRadius == old(thresholdRadius) then old(radiusNotices)
                else old(radiusNotices) + [thresholdRadius]
    {
      SetMouseThresholdRadius(Some(thresholdRadius + delta));
    }

    /** `setMouseOutputEnabled`: observers hear only of an actual change. */
    method SetMouseOutputEnabled(enabled: bool)
      requires Valid()
      modifies this`mouseOutputEnabled, this`mouseOutputNotices
      ensures Valid() && mouseOutputEnabled == enabled
      ensures mouseOutputNotices ==
                if enabled == old(mouseOutputEnabled) then old(mouseOutputNotices)
                else old(mouseOutputNotices) + [enabled]
    {
      if enabled == mouseOutputEnabled {
        return;
      }
      mouseOutputEnabled := enabled;
      mouseOutputNotices := mouseOutputNotices + [mouseOutputEnabled];
    }

    method ToggleMouseOutput()
      requires Valid()
      modifies this`mouseOutputEnabled, this`mouseOutputNotices
      ensures Valid() && mouseOutputEnabled == !old(mouseOutputEnabled)
      ensures mouseOutputNotices == old(mouseOutputNotices) + [mouseOutputEnabled]
    {
      SetMouseOutputEnabled(!mouseOutputEnabled);
    }

    /** `addThreshold`: appends one listener with the next id, the current
        radius and intensity 1, and mutes the pointer around it. */
    method AddThreshold(position: Point) returns (t: Threshold)
      requires Valid()
      modifies this`thresholdIdCounter, this`listenerThresholds, this`pointerSuppression
      ensures Valid()
      ensures thresholdIdCounter == old(thresholdIdCounter) + 1
      ensures t == Threshold(Listener(thresholdIdCounter), position, thresholdRadius, DefaultFalloff, 1.0)
      ensures listenerThresholds == old(listenerThresholds) + [t]
      ensures forall u :: u in old(listenerThresholds) ==> u.id != t.id
      ensures pointerSuppression == Some(Suppression(position, thresholdRadius))
    {
      thresholdIdCounter := thresholdIdCounter + 1;
      t := Threshold(Listener(thresholdIdCounter), position, thresholdRadius, thresholdFalloff, 1.0);
      listenerThresholds := listenerThresholds + [t];
      pointerSuppression := Some(Suppression(position, thresholdRadius));
    }

    /** `removeThresholdNear`: removes the nearest listener that has the
        position within its own radius, the earliest of equally near ones, and
        keeps the others in order; with none in range nothing changes. */
    method RemoveThresholdNear(position: Point) returns (removed: Option<Threshold>)
      requires Valid()
      modifies this`listenerThresholds
      ensures Valid()
      ensures removed.None? <==>
                forall j :: 0 <= j < |old(listenerThresholds)| ==> !InRange(hypot, old(listenerThresholds)[j], position)
      ensures removed.None? ==> listenerThresholds == old(listenerThresholds)
      ensures removed.Some? ==>
                exists k: nat :: IsNearestInRange(hypot, old(listenerThresholds), position, k) &&
                  removed.value == old(listenerThresholds)[k] &&
                  listenerThresholds == RemoveAt(old(listenerThresholds), k)
    {
      if |listenerThresholds| == 0 {
        return None;
      }
      var candidate := NearestInRange(hypot, listenerThresholds, position);
      if candidate.None? {
        return None;
      }
      var k := candidate.value;
      removed := Some(listenerThresholds[k]);
      ghost var was := listenerThresholds;
      listenerThresholds := RemoveAt(listenerThresholds, k);
      forall i, j | 0 <= i < j < |listenerThresholds|
        ensures listenerThresholds[i].id.n < listenerThresholds[j].id.n
      {
        var i', j' := if i < k then i else i + 1, if j < k then j else j + 1;
        assert listenerThresholds[i] == was[i'] && listenerThresholds[j] == was[j'];
      }
    }

    /** `isPointerSuppressed`: a pointer lies inside the suppression zone. */
    predicate IsPointerSuppressed()
      reads this`pointer, this`pointerSuppression
    {
      pointerSuppression.Some? && pointer.Some? &&
      Distance(hypot, pointer.value, pointerSuppression.value.center) <= pointerSuppression.value.radius
    }

    /** `clearPointerSuppressionIfNeeded`: a pointer outside the zone ends it. */
    method ClearPointerSuppressionIfNeeded()
      requires Valid()
      modifies this`pointerSuppression
      ensures Valid()
      ensures pointerSuppression ==
                if old(pointerSuppression).Some? && pointer.Some? && !old(IsPointerSuppressed()) then None
                else old(pointerSuppression)
      ensures IsPointerSuppressed() == old(IsPointerSuppressed())
    {
      if pointerSuppression.None? || pointer.None? {
        return;
      }
      if Distance(hypot, pointer.value, pointerSuppression.value.center) > pointerSuppression.value.radius {
        pointerSuppression := None;
      }
    }

    /** `handlePointerMove`: with audio ready and a readable position, the
        pointer moves there at full fade and a zone it has left is cleared. */
    method HandlePointerMove(position: Option<Point>, ready: bool)
      requires Valid()
      modifies this`pointer, this`pointerFade, this`pointerSuppression
      ensures Valid()
      ensures !ready || position.None? ==>
                pointer == old(pointer) && pointerFade == old(pointerFade) && pointerSuppression == old(pointerSuppression)
      ensures ready && position.Some? ==>
                pointer == position && pointerFade == 1.0 &&
                (IsPointerSuppressed() <==>
                   old(pointerSuppression).Some? &&
                   Distance(hypot, position.value, old(pointerSuppression).value.center) <= old(pointerSuppression).value.radius) &&
                (pointerSuppression.Some? ==> pointerSuppression == old(pointerSuppression) && IsPointerSuppressed())
    {
      if !ready || position.None? {
        return;
      }
      pointer := position;
      pointerFade := 1.0;
      ClearPointerSuppressionIfNeeded();
    }

    /** `handlePointerLeave`: with audio ready, the pointer and its zone go. */
    method HandlePointerLeave(ready: bool)
      requires Valid()
      modifies this`pointer, this`pointerSuppression
      ensures Valid()
      ensures !ready ==> pointer == old(pointer) && pointerSuppression == old(pointerSuppression)
      ensures ready ==> pointer == None && pointerSuppression == None && !IsPointerSuppressed()
    {
      if !ready {
        return;
      }
      pointer := None;
      pointerSuppression := None;
    }

    /** `handleClick`: a primary-button click with audio ready places a
        listener, or removes the nearest one when shift is held. */
    method HandleClick(button: int, shiftKey: bool, position: Option<Point>, ready: bool)
      requires Valid()
      modifies this`thresholdIdCounter, this`listenerThresholds, this`pointerSuppression
      ensures Valid()
      ensures button != 0 || !ready || position.None? ==>
                listenerThresholds == old(listenerThresholds) && thresholdIdCounter == old(thresholdIdCounter) &&
                pointerSuppression == old(pointerSuppression)
      ensures button == 0 && ready && position.Some? && !shiftKey ==>
                listenerThresholds ==
                  old(listenerThresholds) + [Threshold(Listener(old(thresholdIdCounter) + 1), position.value, thresholdRadius, DefaultFalloff, 1.0)] &&
                thresholdIdCounter == old(thresholdIdCounter) + 1 &&
                pointerSuppression == Some(Suppression(position.value, thresholdRadius))
      ensures button == 0 && ready && position.Some? && shiftKey ==>
                thresholdIdCounter == old(thresholdIdCounter) && pointerSuppression == old(pointerSuppression)
      ensures button == 0 && ready && position.Some? && shiftKey &&
              (forall j :: 0 <= j < |old(listenerThresholds)| ==> !InRange(hypot, old(listenerThresholds)[j], position.value)) ==>
                listenerThresholds == old(listenerThresholds)
      ensures button == 0 && ready && position.Some? && shiftKey &&
              (exists j :: 0 <= j < |old(listenerThresholds)| && InRange(hypot, old(listenerThresholds)[j], position.value)) ==>
                exists k: nat :: IsNearestInRange(hypot, old(listenerThresholds), position.value, k) &&
                  listenerThresholds == RemoveAt(old(listenerThresholds), k)
    {
      if button == 0 && ready && position.Some? {
        if shiftKey {
          var removed := RemoveThresholdNear(position.value);
        } else {
          var listener := AddThreshold(position.value);
        }
      }
    }

    /** `handleContextMenu`: with audio ready, removes the nearest listener. */
    method HandleContextMenu(position: Option<Point>, ready: bool) returns (removed: Option<Threshold>)
      requires Valid()
      modifies this`listenerThresholds
      ensures Valid()
      ensures !ready || position.None? ==> removed == None && listenerThresholds == old(listenerThresholds)
      ensures ready && position.Some? ==>
                (removed.None? <==>
                   forall j :: 0 <= j < |old(listenerThresholds)| ==> !InRange(hypot, old(listenerThresholds)[j], position.value))
      ensures removed.None? ==> listenerThresholds == old(listenerThresholds)
      ensures removed.Some? ==>
                exists k: nat :: IsNearestInRange(hypot, old(listenerThresholds), position.value, k) &&
                  listenerThresholds == RemoveAt(old(listenerThresholds), k)
    {
      if !ready || position.None? {
        return None;
      }
      removed := RemoveThresholdNear(position.value);
    }

    /** `handleKeyDown`: Space toggles the mouse output, '[' and ']' shrink and
        grow the radius by 5. */
    method HandleKeyDown(evt: KeyEvent)
      requires Valid()
      modifies this`mouseOutputEnabled, this`mouseOutputNotices, this`thresholdRadius, this`radiusNotices
      ensures Valid()
      ensures evt.code == "Space" ==>
                mouseOutputEnabled == !old(mouseOutputEnabled) &&
                mouseOutputNotices == old(mouseOutputNotices) + [mouseOutputEnabled] &&
                thresholdRadius == old(thresholdRadius) && radiusNotices == old(radiusNotices)
      ensures evt.code != "Space" ==>
                mouseOutputEnabled == old(mouseOutputEnabled) && mouseOutputNotices == old(mouseOutputNotices)
      ensures evt.code != "Space" && evt.key == "[" ==>
                thresholdRadius == Clamp(MinRadius, MaxRadius, old(thresholdRadius) - RadiusStep)
      ensures evt.code != "Space" && evt.key == "]" ==>
                thresholdRadius == Clamp(MinRadius, MaxRadius, old(thresholdRadius) + RadiusStep)
      ensures evt.code != "Space" && (evt.key == "[" || evt.key == "]") ==>
                radiusNotices ==
                  if thresholdRadius == old(thresholdRadius) then old(radiusNotices)
                  else old(radiusNotices) + [thresholdRadius]
      ensures evt.code != "Space" && evt.key != "[" && evt.key != "]" ==>
                thresholdRadius == old(thresholdRadius) && radiusNotices == old(radiusNotices)
    {
      if evt.code == "Space" {
        ToggleMouseOutput();
        return;
      }
      if evt.key == "[" {
        AdjustThresholdRadius(-RadiusStep);
      } else if evt.key == "]" {
        AdjustThresholdRadius(RadiusStep);
      }
    }

    /** `getMouseThreshold`: the pointer's threshold, present exactly when the
        output is on, a pointer is present with a fade above 0.001, audio is
        ready and the pointer is not muted; its intensity is the fade. */
    function MouseThreshold(ready: bool): (m: Option<Threshold>)
      reads this`mouseOutputEnabled, this`pointer, this`pointerFade, this`pointerSuppression,
              this`thresholdRadius, this`listenerThresholds
      ensures m.Some? <==>
                mouseOutputEnabled && pointer.Some? && pointerFade > 0.001 && ready && !IsPointerSuppressed()
      ensures m.Some? ==>
                m.value.id == Mouse && m.value.center == pointer.value &&
                m.value.radius == thresholdRadius && m.value.intensity == pointerFade
    {
      if !mouseOutputEnabled || pointer.None? || pointerFade <= 0.001 || !ready || IsPointerSuppressed() then None
      else Some(Threshold(Mouse, pointer.value, thresholdRadius, thresholdFalloff, pointerFade))
    }

    /** `getActiveThresholds`: the listeners in order, then the mouse threshold
        when there is one. */
    function ActiveThresholds(ready: bool): (ts: seq<Threshold>)
      reads this`mouseOutputEnabled, this`pointer, this`pointerFade, this`pointerSuppression,
              this`thresholdRadius, this`listenerThresholds
      ensures |ts| == |listenerThresholds| + (if MouseThreshold(ready).Some? then 1 else 0)
      ensures ts[..|listenerThresholds|] == listenerThresholds
      ensures MouseThreshold(ready).Some? ==> ts[|listenerThresholds|] == MouseThreshold(ready).value
    {
      var mouse := MouseThreshold(ready);
      if mouse.Some? then listenerThresholds + [mouse.value] else listenerThresholds
    }

    /** `updatePointerFade`. The clock never runs backwards. */
    method UpdatePointerFade(now: real)
      requires Valid() && lastFadeUpdate <= now
      modifies this`pointerFade, this`lastFadeUpdate
      ensures Valid()
      ensures pointerFade == FadeAfter(old(pointerFade), pointer.Some?, now - old(lastFadeUpdate))
      ensures lastFadeUpdate == now
    {
      var deltaSeconds := Min(MaxFadeStep, (now - lastFadeUpdate) / 1000.0);
      lastFadeUpdate := now;
      var hasPointer := pointer.Some?;
      if hasPointer {
        pointerFade := Min(1.0, pointerFade + deltaSeconds * FadeRateUp);
      } else {
        pointerFade := Max(0.0, pointerFade - deltaSeconds * FadeRateDown);
      }
    }

    /** `getThresholdInfluenceAt`: 0 while audio is not ready; otherwise the
        fade is brought up to date and the result is the greatest contribution
        of the active thresholds, clamped to [0, 1]. */
    method GetThresholdInfluenceAt(point: Point, ready: bool, now: real) returns (r: real)
      requires Valid() && lastFadeUpdate <= now
      modifies this`pointerFade, this`lastFadeUpdate
      ensures Valid() && 0.0 <= r <= 1.0
      ensures !ready ==> r == 0.0 && pointerFade == old(pointerFade) && lastFadeUpdate == old(lastFadeUpdate)
      ensures ready ==>
                pointerFade == FadeAfter(old(pointerFade), pointer.Some?, now - old(lastFadeUpdate)) &&
                lastFadeUpdate == now &&
                r == InfluenceAt(hypot, ActiveThresholds(ready), point)
      ensures r == InfluenceNow(point, ready)
      ensures ready && old(lastFadeUpdate) == now ==> pointerFade == old(pointerFade)
    {
      if !ready {
        return 0.0;
      }
      UpdatePointerFade(now);
      var thresholds := ActiveThresholds(ready);
      if |thresholds| == 0 {
        return 0.0;
      }
      var best := MaxContribution(hypot, thresholds, point);
      r := Max(0.0, Min(1.0, best));
    }

    /** What a query at p reports once the fade is up to date for this frame:
        the influence of the active thresholds, or 0 while audio is not ready. */
    function InfluenceNow(p: Point, ready: bool): (r: real)
      reads this`mouseOutputEnabled, this`pointer, this`pointerFade, this`pointerSuppression,
              this`thresholdRadius, this`listenerThresholds
      ensures 0.0 <= r <= 1.0
      ensures !ready || |ActiveThresholds(ready)| == 0 ==> r == 0.0
    {
      if ready then InfluenceAt(hypot, ActiveThresholds(ready), p) else 0.0
    }

    /** The greatest influence over the first n probe points once the fade is
        up to date for the frame: 0 while audio is not ready. */
    function PeakInfluence(ps: seq<Point>, n: nat, ready: bool): (r: real)
      requires n <= |ps|
      reads this`mouseOutputEnabled, this`pointer, this`pointerFade, this`pointerSuppression,
              this`thresholdRadius, this`listenerThresholds
      ensures 0.0 <= r <= 1.0
    {
      if ready then PeakAlong(hypot, ActiveThresholds(ready), ps, n) else 0.0
    }

    /** `getAlphaForPoint`: the alpha for the influence at the point. */
    method GetAlphaForPoint(point: Point, baseAlpha: real, highlightAlpha: real, ready: bool, now: real) returns (alpha: real)
      requires Valid() && lastFadeUpdate <= now
      modifies this`pointerFade, this`lastFadeUpdate
      ensures Valid()
      ensures lastFadeUpdate == (if ready then now else old(lastFadeUpdate))
      ensures alpha == AlphaFromInfluence(baseAlpha, highlightAlpha,
                         if ready then InfluenceAt(hypot, ActiveThresholds(ready), point) else 0.0)
    {
      var influence := GetThresholdInfluenceAt(point, ready, now);
      alpha := AlphaFromInfluence(baseAlpha, highlightAlpha, influence);
    }

    /** `getFactorForPoint`: the scale factor for the influence at the point. */
    method GetFactorForPoint(point: Point, baseFactor: real, highlightFactor: real, ready: bool, now: real) returns (factor: real)
      requires Valid() && lastFadeUpdate <= now
      modifies this`pointerFade, this`lastFadeUpdate
      ensures Valid()
      ensures lastFadeUpdate == (if ready then now else old(lastFadeUpdate))
      ensures factor == FactorFromInfluence(baseFactor, highlightFactor,
                          if ready then InfluenceAt(hypot, ActiveThresholds(ready), point) else 0.0)
    {
      var influence := GetThresholdInfluenceAt(point, ready, now);
      factor := FactorFromInfluence(baseFactor, highlightFactor, influence);
    }

    /** `ensureRefId`: a shape keeps the id it was first given, whatever prefix
        later calls pass; a new shape gets the next number, which no other
        shape holds. */
    method EnsureRefId(shape: ShapeId, prefix: string) returns (id: RefId)
      requires Valid()
      modifies this`referenceCounter, this`refIds
      ensures Valid()
      ensures shape in old(refIds) ==>
                id == old(refIds)[shape] && refIds == old(refIds) && referenceCounter == old(referenceCounter)
      ensures shape !in old(refIds) ==>
                referenceCounter == old(referenceCounter) + 1 && id == RefId(prefix, referenceCounter) &&
                refIds == old(refIds)[shape := id]
      ensures shape in refIds && refIds[shape] == id
      ensures forall s :: s in refIds && s != shape ==> refIds[s].n != id.n
    {
      if shape !in refIds {
        referenceCounter := referenceCounter + 1;
        refIds := refIds[shape := RefId(prefix, referenceCounter)];
      }
      id := refIds[shape];
    }
  }
}
