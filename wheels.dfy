/** The wheels of the composition (abstract-wheels/wheel.js) and their rings
    (abstract-wheels/ring.js): the ring layout a wheel builds, the animation
    counters, the edge-triggered percussion flags, the threshold sampling
    around a solid ring and the outline highlight.

    The browser's globals are parameters: `audio` is `window.audioManager`,
    `manager` is `window.interactionManager` (each may be absent), `now` is
    the frame's clock in milliseconds and `trig` supplies sine and cosine.
    The trigonometric hit tests (`isPointTouchingDotRing`,
    `isPointTouchingRayRing`, `isPointOnDash`) are inputs: a flag, or the
    predicate `onDash`. A shape's identity is its `id`. */
module Wheels {
  import opened Util
  import opened Geometry
  import opened Interaction
  import opened AudioGraph
  import opened Audio
  import opened Percussion
  import opened Thresholds
  import opened Walks

  /** The ring style a draw u in [0, 1) picks. */
  function KindFor(u: real): (k: RingKind)
    ensures k == Solid <==> u < 0.33
    ensures k == Dots <==> 0.33 <= u < 0.66
    ensures k == Rays <==> 0.66 <= u
  {
    if u < 0.33 then Solid else if u < 0.66 then Dots else Rays
  }

  /** `floor(random(3, 6))` for the draw u. */
  function RingCount(u: real): (n: nat)
    requires 0.0 <= u < 1.0
    ensures 3 <= n <= 5
  {
    var x := 3.0 + 3.0 * u;
    assert 3.0 <= x < 6.0;
    x.Floor
  }

  /** Probes around a solid ring, and the influence above which it counts as
      touched. */
  const SolidSamples: nat := 18
  const SolidActiveLevel: real := 0.05

  /** The points `getSolidThresholdSample` probes: evenly spaced around the
      circle of the given radius about the wheel's centre, starting at the
      wheel's rotation. */
  function SolidProbes(trig: Trig, cx: real, cy: real, rotation: real, radius: real): (ps: seq<Point>)
    ensures |ps| == SolidSamples
  {
    seq(SolidSamples, i requires 0 <= i < SolidSamples => SolidProbe(trig, cx, cy, rotation, radius, i))
  }

  /** Probe i: at angle rotation + 2πi/18 on the circle. */
  function SolidProbe(trig: Trig, cx: real, cy: real, rotation: real, radius: real, i: nat): Point
  {
    var angle := rotation + TwoPi * i as real / SolidSamples as real;
    Point(cx + trig.cos(angle) * radius, cy + trig.sin(angle) * radius)
  }

  /** The outline's alpha when nothing touches it, and when something does. */
  const OutlineBaseAlpha: real := 35.0
  const OutlineHighlightAlpha: real := 220.0

  /** k ring widths laid end to end from the centre: the running inner
      radius of `initRings`, which adds one width per ring. */
  function Offset(k: nat, step: real): real
  {
    if k == 0 then 0.0 else Offset(k - 1, step) + step
  }

  /** The running sum is the product: ring k starts k widths out. */
  lemma {:induction false} OffsetIsProduct(k: nat, step: real)
    ensures Offset(k, step) == k as real * step
  {
    if k > 0 {
      OffsetIsProduct(k - 1, step);
      assert (k - 1) as real * step + step == k as real * step;
    }
  }

  /** The audio manager as a set, to frame the fields of an optional manager
      (`Walks.Present` does the same for the interaction manager): empty when
      there is none. */
  function Sounding(audio: AudioManager?): (s: set<AudioManager>)
    ensures audio != null <==> audio in s
    ensures |s| <= 1
  {
    if audio == null then {} else {audio}
  }

  /** An audio manager, when there is one, well formed. */
  ghost predicate AudioReady(audio: AudioManager?)
    reads audio
  {
    audio != null ==> audio.Valid()
  }

  class Ring {
    const id: ShapeId
    const innerR: real
    const outerR: real
    const kind: RingKind
    var noiseOffset: real
    var parentWheel: Wheel?
    /** `activeStates`: one edge flag per style. */
    var activeSolid: bool
    var activeDots: bool
    var activeRays: bool

    /** A ring as `new Ring` builds it: no parent yet, a noise offset drawn in
        [0, 1000), and all three flags down. */
    constructor (id: ShapeId, innerR: real, outerR: real, kind: RingKind, uNoise: real)
      requires 0.0 <= uNoise < 1.0
      ensures this.id == id && this.innerR == innerR && this.outerR == outerR && this.kind == kind
      ensures 0.0 <= noiseOffset < 1000.0 && noiseOffset == 1000.0 * uNoise
      ensures parentWheel == null
      ensures !activeSolid && !activeDots && !activeRays
    {
      this.id := id;
      this.innerR := innerR;
      this.outerR := outerR;
      this.kind := kind;
      noiseOffset := 1000.0 * uNoise;
      parentWheel := null;
      activeSolid, activeDots, activeRays := false, false, false;
    }

    /** `update`: the noise offset advances by 0.01 per frame. */
    method Update()
      modifies this`noiseOffset
      ensures noiseOffset == old(noiseOffset) + 0.01
    {
      noiseOffset := noiseOffset + 0.01;
    }

    method SetParentWheel(wheel: Wheel)
      modifies this`parentWheel
      ensures parentWheel == wheel
    {
      parentWheel := wheel;
    }

    /** `getSolidRadius`: the radius the solid ring is drawn and probed at. */
    function GetSolidRadius(): real
    {
      innerR + outerR
    }

    /** `handleSolidPercussion`: with an audio manager present the solid flag
        follows whether the influence exceeds 0.05; nothing is ever struck. */
    method HandleSolidPercussion(audio: AudioManager?, influence: real)
      modifies this`activeSolid
      ensures audio == null ==> activeSolid == old(activeSolid)
      ensures audio != null ==> activeSolid == EdgeStep(old(activeSolid), influence > SolidActiveLevel).active
    {
      if audio == null {
        return;
      }
      var active := influence > SolidActiveLevel;
      if active && !activeSolid {
        activeSolid := true;
      } else if !active && activeSolid {
        activeSolid := false;
      }
    }

    /** `handleDotPercussion`: with an audio manager present, a kick is struck
        for this ring exactly when the dots turn active, and the flag follows
        the activity. */
    method HandleDotPercussion(audio: AudioManager?, isActive: bool, u: real)
      requires AudioReady(audio)
      requires 0.0 <= u < 1.0
      modifies this`activeDots, Sounding(audio)`sampleAssignments, Sounding(audio)`schedule
      ensures AudioReady(audio)
      ensures audio == null ==> activeDots == old(activeDots)
      ensures audio != null ==> activeDots == isActive
      ensures audio != null && EdgeStep(old(activeDots), isActive).fired ==> audio.Struck(Kick, Some(id), None, u)
      ensures audio != null && !EdgeStep(old(activeDots), isActive).fired ==>
                audio.sampleAssignments == old(audio.sampleAssignments) && audio.schedule == old(audio.schedule)
    {
      if audio != null {
        if isActive && !activeDots {
          audio.TriggerPercussion(Kick, Some(id), None, u);
          activeDots := true;
        } else if !isActive && activeDots {
          activeDots := false;
        }
      }
    }

    /** `handleRayPercussion`: the same edge, striking a hi-hat. */
    method HandleRayPercussion(audio: AudioManager?, isActive: bool, u: real)
      requires AudioReady(audio)
      requires 0.0 <= u < 1.0
      modifies this`activeRays, Sounding(audio)`sampleAssignments, Sounding(audio)`schedule
      ensures AudioReady(audio)
      ensures audio == null ==> activeRays == old(activeRays)
      ensures audio != null ==> activeRays == isActive
      ensures audio != null && EdgeStep(old(activeRays), isActive).fired ==> audio.Struck(Hihat, Some(id), None, u)
      ensures audio != null && !EdgeStep(old(activeRays), isActive).fired ==>
                audio.sampleAssignments == old(audio.sampleAssignments) && audio.schedule == old(audio.schedule)
    {
      if audio != null {
        if isActive && !activeRays {
          audio.TriggerPercussion(Hihat, Some(id), None, u);
          activeRays := true;
        } else if !isActive && activeRays {
          activeRays := false;
        }
      }
    }

    /** `getSolidThresholdSample`: without a manager or a wheel, influence 0 and
        no point; otherwise the walk of `ProbeRun` over the 18 probes on the
        circle of the solid radius about the wheel's centre. */
    method GetSolidThresholdSample(manager: InteractionManager?, audio: AudioManager?, now: real, trig: Trig)
      returns (influence: real, point: Option<Point>, ghost probed: nat, ghost probes: seq<Point>)
      requires ManagerReady(manager, now)
      modifies Present(manager)`pointerFade, Present(manager)`lastFadeUpdate
      ensures manager == null || parentWheel == null ==> influence == 0.0 && point == None && probed == 0
      ensures ManagerReady(manager, now)
      ensures manager != null && parentWheel == null ==>
                manager.pointerFade == old(manager.pointerFade) && manager.lastFadeUpdate == old(manager.lastFadeUpdate)
      ensures parentWheel != null ==>
                probes == SolidProbes(trig, parentWheel.x, parentWheel.y, parentWheel.rotation, GetSolidRadius())
      ensures manager != null && parentWheel != null ==>
                var ready := audio != null && audio.audioEnabled;
                FadeSettled(manager, ready, now) && PeakWalk(manager, probes, ready, influence, point, probed)
    {
      influence, point, probed, probes := 0.0, None, 0, [];
      if parentWheel != null {
        var circle := SolidProbes(trig, parentWheel.x, parentWheel.y, parentWheel.rotation, GetSolidRadius());
        probes := circle;
        if manager != null {
          var ready := audio != null && audio.audioEnabled;
          influence, point, probed := ProbeRun(manager, ready, now, circle);
        }
      }
    }
  }

  /** The probing loop of `getSolidThresholdSample` and
      `sampleThresholdInfluence`: a running best over the probes, replaced by
      any larger influence, the walk ending once the best reaches 1. Every
      query is made at the one time `now` of the frame, so only the first
      query moves the fade; the later ones find it up to date for that time
      and leave it, and every probe is judged against the same fade. */
  method ProbeRun(manager: InteractionManager, ready: bool, now: real, probes: seq<Point>)
    returns (best: real, bestPoint: Option<Point>, ghost probed: nat)
    requires |probes| > 0
    requires ManagerReady(manager, now)
    modifies manager`pointerFade, manager`lastFadeUpdate
    ensures ManagerReady(manager, now) && FadeSettled(manager, ready, now)
    ensures PeakWalk(manager, probes, ready, best, bestPoint, probed)
  {
    ghost var ts: seq<Threshold> := [];
    ghost var fade0, last0 := manager.pointerFade, manager.lastFadeUpdate;
    best, bestPoint := 0.0, None;
    var i := 0;
    var done := false;
    while i < |probes| && !done
      invariant i <= |probes| && (i == 0 ==> best == 0.0 && bestPoint.None?)
      invariant ManagerReady(manager, now)
      invariant i == 0 ==> manager.pointerFade == fade0 && manager.lastFadeUpdate == last0
      invariant i > 0 ==> SettledFrom(manager, ready, now, fade0, last0) && ts == manager.ActiveThresholds(ready)
      invariant i > 0 && !done ==> Scanning(manager.hypot, ts, probes, ready, i, best, bestPoint)
      invariant done ==> Scanned(manager.hypot, ts, probes, ready, i, best, bestPoint)
    {
      best, bestPoint, done, ts := ProbeAt(manager, ready, now, probes, i, best, bestPoint, ts, fade0, last0);
      i := i + 1;
    }
    if !done {
      ScanEnd(manager.hypot, ts, probes, ready, best, bestPoint);
    }
    probed := i;
    WalkFromSnapshot(manager, probes, ready, ts, best, bestPoint, probed);
  }

  /** One probe of the walk: the query at probe i, judged against thresholds
      that stay put from the second probe on, and the running best it leaves;
      `done` when the best reached 1. */
  method ProbeAt(manager: InteractionManager, ready: bool, now: real, probes: seq<Point>, i: nat,
                 best: real, bestPoint: Option<Point>, ghost ts: seq<Threshold>, ghost fade0: real, ghost last0: real)
    returns (best': real, bestPoint': Option<Point>, done: bool, ghost ts': seq<Threshold>)
    requires i < |probes| && (i == 0 ==> best == 0.0 && bestPoint.None?)
    requires ManagerReady(manager, now)
    requires i == 0 ==> manager.pointerFade == fade0 && manager.lastFadeUpdate == last0
    requires i > 0 ==> SettledFrom(manager, ready, now, fade0, last0) && ts == manager.ActiveThresholds(ready)
    requires i > 0 ==> Scanning(manager.hypot, ts, probes, ready, i, best, bestPoint)
    modifies manager`pointerFade, manager`lastFadeUpdate
    ensures ManagerReady(manager, now) && FadeSettled(manager, ready, now)
    ensures i > 0 ==> manager.pointerFade == old(manager.pointerFade) && manager.lastFadeUpdate == old(manager.lastFadeUpdate)
    ensures SettledFrom(manager, ready, now, fade0, last0)
    ensures ts' == manager.ActiveThresholds(ready) && (i > 0 ==> ts' == ts)
    ensures !done ==> Scanning(manager.hypot, ts', probes, ready, i + 1, best', bestPoint')
    ensures done ==> Scanned(manager.hypot, ts', probes, ready, i + 1, best', bestPoint')
  {
    var influence := manager.GetThresholdInfluenceAt(probes[i], ready, now);
    ts' := manager.ActiveThresholds(ready);
    ScanStep(manager.hypot, ts', probes, ready, i, best, bestPoint, influence);
    best', bestPoint', done := best, bestPoint, false;
    if influence > best {
      best', bestPoint', done := influence, Some(probes[i]), influence >= 1.0;
    }
  }

  class Wheel {
    const id: ShapeId
    const x: real
    const y: real
    const baseRadius: real
    var rings: seq<Ring>
    var rotation: real
    const rotationSpeed: real
    var outlineActive: bool

    ghost predicate RingsDistinct()
      reads this
    {
      Distinct(rings)
    }

    /** `new Wheel`: no rings yet, a rotation drawn in [0, 2π), a spin drawn in
        [-0.01, 0.01) and the outline untouched. */
    constructor (id: ShapeId, x: real, y: real, baseRadius: real, uRotation: real, uSpeed: real)
      requires 0.0 <= uRotation < 1.0 && 0.0 <= uSpeed < 1.0
      ensures this.id == id && this.x == x && this.y == y && this.baseRadius == baseRadius
      ensures rings == [] && RingsDistinct()
      ensures rotation == TwoPi * uRotation && 0.0 <= rotation < TwoPi
      ensures rotationSpeed == -0.01 + 0.02 * uSpeed && -0.01 <= rotationSpeed < 0.01
      ensures !outlineActive
    {
      this.id := id;
      this.x := x;
      this.y := y;
      this.baseRadius := baseRadius;
      rings := [];
      rotation := TwoPi * uRotation;
      rotationSpeed := -0.01 + 0.02 * uSpeed;
      outlineActive := false;
    }

    /** `initRings`: between three and five new rings are appended, partitioning
        the base radius into equal widths from the centre outwards; each takes
        the style its draw picks, except the outermost, which is always solid,
        and each has this wheel as its parent. Ring k gets the id firstId + k. */
    method InitRings(uCount: real, uKinds: seq<real>, uNoise: seq<real>, firstId: ShapeId) returns (ghost made: seq<Ring>)
      requires 0.0 <= uCount < 1.0
      requires |uKinds| >= RingCount(uCount) && |uNoise| >= RingCount(uCount)
      requires forall k :: 0 <= k < |uNoise| ==> 0.0 <= uNoise[k] < 1.0
      requires RingsDistinct()
      modifies this`rings
      ensures RingsDistinct()
      ensures rings == old(rings) + made && |made| == RingCount(uCount)
      ensures forall r :: r in made ==> fresh(r)
      ensures LaidOut(made, RingCount(uCount), baseRadius / RingCount(uCount) as real, uKinds, uNoise, firstId)
    {
      var numRings := RingCount(uCount);
      var step := baseRadius / numRings as real;
      var currentInner := 0.0;
      ghost var before := rings;
      made := [];
      var i := 0;
      while i < numRings
        invariant 0 <= i <= numRings && |made| == i
        invariant currentInner == Offset(i, step)
        invariant rings == before + made
        invariant forall r :: r in made ==> fresh(r)
        invariant RingsDistinct()
        invariant LaidOut(made, numRings, step, uKinds, uNoise, firstId)
      {
        var innerR := currentInner;
        var outerR := currentInner + step;
        currentInner := outerR;
        var kind := KindFor(uKinds[i]);
        if i == numRings - 1 {
          kind := Solid;
        }
        var ring := AppendRing(made, i, numRings, step, uKinds, uNoise, firstId, innerR, outerR, kind);
        made := made + [ring];
        i := i + 1;
      }
    }

    /** One pass of the `initRings` loop: the next ring, made and appended. */
    method AppendRing(ghost made: seq<Ring>, k: nat, n: nat, step: real, uKinds: seq<real>, uNoise: seq<real>, firstId: ShapeId,
                      innerR: real, outerR: real, kind: RingKind)
      returns (ring: Ring)
      requires LaidOut(made, n, step, uKinds, uNoise, firstId) && k == |made| < n
      requires 0.0 <= uNoise[k] < 1.0
      requires innerR == Offset(k, step) && outerR == Offset(k + 1, step)
      requires kind == (if k == n - 1 then Solid else KindFor(uKinds[k]))
      requires RingsDistinct()
      modifies this`rings
      ensures fresh(ring) && rings == old(rings) + [ring]
      ensures RingsDistinct()
      ensures LaidOut(made + [ring], n, step, uKinds, uNoise, firstId)
    {
      ring := NewRing(firstId + k, innerR, outerR, kind, uNoise[k]);
      LaidOutAppend(made, ring, n, step, uKinds, uNoise, firstId);
      DistinctAppend(rings, ring);
      rings := rings + [ring];
    }

    /** The rings one `initRings` call made, in order: ring k has the id
        firstId + k and spans [Offset(k, step), Offset(k + 1, step)], k and k + 1
        widths out from the centre; its style is the one its
        draw picks, except that the n-th and last is solid; it has this wheel as
        its parent, its drawn noise offset and all flags down. */
    ghost predicate LaidOut(made: seq<Ring>, n: nat, step: real, uKinds: seq<real>, uNoise: seq<real>, firstId: ShapeId)
      reads made
    {
      |made| <= n <= |uKinds| && n <= |uNoise| &&
      forall k :: 0 <= k < |made| ==> PlacedAt(made[k], k, n, step, uKinds, uNoise, firstId)
    }

    /** Ring k of an `initRings` call that makes n rings. */
    ghost predicate PlacedAt(ring: Ring, k: nat, n: nat, step: real, uKinds: seq<real>, uNoise: seq<real>, firstId: ShapeId)
      requires k < n <= |uKinds| && n <= |uNoise|
      reads ring
    {
      ring.id == firstId + k &&
      ring.innerR == Offset(k, step) && ring.outerR == Offset(k + 1, step) &&
      ring.kind == (if k == n - 1 then Solid else KindFor(uKinds[k])) &&
      ring.parentWheel == this && ring.noiseOffset == 1000.0 * uNoise[k] &&
      !ring.activeSolid && !ring.activeDots && !ring.activeRays
    }

    /** One ring of `initRings`, with this wheel as its parent. */
    method NewRing(id: ShapeId, innerR: real, outerR: real, kind: RingKind, uNoise: real) returns (ring: Ring)
      requires 0.0 <= uNoise < 1.0
      ensures fresh(ring)
      ensures ring.id == id && ring.innerR == innerR && ring.outerR == outerR && ring.kind == kind
      ensures ring.parentWheel == this && ring.noiseOffset == 1000.0 * uNoise
      ensures !ring.activeSolid && !ring.activeDots && !ring.activeRays
    {
      ring := new Ring(id, innerR, outerR, kind, uNoise);
      ring.SetParentWheel(this);
    }

    lemma LaidOutAppend(made: seq<Ring>, ring: Ring, n: nat, step: real, uKinds: seq<real>, uNoise: seq<real>, firstId: ShapeId)
      requires LaidOut(made, n, step, uKinds, uNoise, firstId) && |made| < n
      requires PlacedAt(ring, |made|, n, step, uKinds, uNoise, firstId)
      ensures LaidOut(made + [ring], n, step, uKinds, uNoise, firstId)
    {
      var all := made + [ring];
      forall k | 0 <= k < |all|
        ensures PlacedAt(all[k], k, n, step, uKinds, uNoise, firstId)
      {
        if k < |made| {
          assert all[k] == made[k];
        }
      }
    }

    /** `update`: the wheel turns by its speed and every ring's noise moves on. */
    method Update()
      requires RingsDistinct()
      modifies this`rotation, rings
      ensures rotation == old(rotation) + rotationSpeed
      ensures forall k :: 0 <= k < |rings| ==> rings[k].noiseOffset == old(rings[k].noiseOffset) + 0.01
      ensures forall k :: 0 <= k < |rings| ==>
                rings[k].parentWheel == old(rings[k].parentWheel) &&
                rings[k].activeSolid == old(rings[k].activeSolid) &&
                rings[k].activeDots == old(rings[k].activeDots) &&
                rings[k].activeRays == old(rings[k].activeRays)
    {
      rotation := rotation + rotationSpeed;
      var i := 0;
      while i < |rings|
        invariant 0 <= i <= |rings|
        invariant rotation == old(rotation) + rotationSpeed
        invariant forall k :: 0 <= k < i ==> rings[k].noiseOffset == old(rings[k].noiseOffset) + 0.01
        invariant forall k :: i <= k < |rings| ==> rings[k].noiseOffset == old(rings[k].noiseOffset)
        invariant forall k :: 0 <= k < |rings| ==>
                    rings[k].parentWheel == old(rings[k].parentWheel) &&
                    rings[k].activeSolid == old(rings[k].activeSolid) &&
                    rings[k].activeDots == old(rings[k].activeDots) &&
                    rings[k].activeRays == old(rings[k].activeRays)
      {
        rings[i].Update();
        i := i + 1;
      }
    }

    /** `getOutlinePoints`: nothing without a manager; otherwise the pointer,
        when there is one, then the centre of every listener in order. */
    function OutlinePoints(manager: InteractionManager?): (pts: seq<Point>)
      reads manager
      ensures manager == null ==> pts == []
    {
      if manager == null then []
      else
        var listeners := manager.listenerThresholds;
        (if manager.pointer.Some? then [manager.pointer.value] else []) +
        seq(|listeners|, i requires 0 <= i < |listeners| => listeners[i].center)
    }

    /** The outline points are exactly the pointer and the listeners' centres. */
    lemma OutlinePointsAre(manager: InteractionManager)
      ensures forall p :: p in OutlinePoints(manager) <==>
                manager.pointer == Some(p) ||
                exists i :: 0 <= i < |manager.listenerThresholds| && manager.listenerThresholds[i].center == p
    {
      var listeners := manager.listenerThresholds;
      var head := if manager.pointer.Some? then [manager.pointer.value] else [];
      var centres := seq(|listeners|, i requires 0 <= i < |listeners| => listeners[i].center);
      assert OutlinePoints(manager) == head + centres;
      forall p
        ensures p in OutlinePoints(manager) <==>
                  manager.pointer == Some(p) || exists i :: 0 <= i < |listeners| && listeners[i].center == p
      {
        if exists i :: 0 <= i < |listeners| && listeners[i].center == p {
          var i :| 0 <= i < |listeners| && listeners[i].center == p;
          assert centres[i] == p;
        }
      }
    }

    /** `isOutlineTouched`: some outline point lies on a dash. */
    predicate IsOutlineTouched(manager: InteractionManager?, onDash: Point -> bool)
      reads manager
    {
      exists i :: 0 <= i < |OutlinePoints(manager)| && onDash(OutlinePoints(manager)[i])
    }

    /** `getOutlineAlpha`: the highlight alpha exactly when the outline is
        touched, the base alpha otherwise. */
    method GetOutlineAlpha(manager: InteractionManager?, onDash: Point -> bool, baseAlpha: real, highlightAlpha: real)
      returns (alpha: real)
      ensures IsOutlineTouched(manager, onDash) ==> alpha == highlightAlpha
      ensures !IsOutlineTouched(manager, onDash) ==> alpha == baseAlpha
    {
      var points := OutlinePoints(manager);
      var i := 0;
      while i < |points|
        invariant 0 <= i <= |points|
        invariant forall k :: 0 <= k < i ==> !onDash(points[k])
      {
        if onDash(points[i]) {
          return highlightAlpha;
        }
        i := i + 1;
      }
      return baseAlpha;
    }

    /** `handleOutlinePercussion`: nothing while audio is absent or disabled;
        otherwise a snare is struck for this wheel exactly when the outline
        becomes touched, and the flag follows the touch. */
    method HandleOutlinePercussion(audio: AudioManager?, manager: InteractionManager?, onDash: Point -> bool, u: real)
      requires AudioReady(audio)
      requires 0.0 <= u < 1.0
      modifies this`outlineActive, Sounding(audio)`sampleAssignments, Sounding(audio)`schedule
      ensures AudioReady(audio)
      ensures audio == null || !audio.audioEnabled ==> outlineActive == old(outlineActive)
      ensures audio != null && !audio.audioEnabled ==>
                audio.sampleAssignments == old(audio.sampleAssignments) && audio.schedule == old(audio.schedule)
      ensures audio != null && audio.audioEnabled ==>
                var touched := IsOutlineTouched(manager, onDash);
                outlineActive == touched &&
                (EdgeStep(old(outlineActive), touched).fired ==> audio.Struck(Snare, Some(id), None, u)) &&
                (!EdgeStep(old(outlineActive), touched).fired ==>
                   audio.sampleAssignments == old(audio.sampleAssignments) && audio.schedule == old(audio.schedule))
    {
      if audio != null && audio.audioEnabled {
        var touched := IsOutlineTouched(manager, onDash);
        if touched && !outlineActive {
          audio.TriggerPercussion(Snare, Some(id), None, u);
          outlineActive := true;
        } else if !touched && outlineActive {
          outlineActive := false;
        }
      }
    }
  }
}
