/** The connectors between wheels (abstract-wheels/connector.js): each one
    samples the influence of the thresholds along its curve and feeds it into
    its own effect, which keeps the strongest level it is fed in a frame. */
module Connectors {
  import opened Util
  import opened Geometry
  import opened Thresholds
  import opened Walks
  import opened Interaction
  import opened AudioGraph
  import opened Audio
  import opened Wheels

  /** How far the control point sways from the midpoint, and the sway phase
      advance per frame. */
  const Sway: real := 30.0
  const PhaseStep: real := 0.02

  class Connector {
    /** The wheel the curve starts at. */
    const startWheel: Wheel
    /** The end of the curve. */
    const endPos: Point
    /** The effect this connector feeds for the whole session. */
    const effectType: Effect
    /** The sway phase. */
    var t: real

    /** `new Connector`: the phase drawn in [0, 2π) by uT and the effect
        drawn among flange, reverb, delay and phaser by uEffect. */
    constructor (startWheel: Wheel, endPos: Point, uT: real, uEffect: real)
      requires 0.0 <= uT < 1.0 && 0.0 <= uEffect < 1.0
      ensures this.startWheel == startWheel && this.endPos == endPos
      ensures t == TwoPi * uT && 0.0 <= t < TwoPi
      ensures effectType == EffectTypes[Pick(|EffectTypes|, uEffect)]
    {
      this.startWheel := startWheel;
      this.endPos := endPos;
      t := TwoPi * uT;
      effectType := PickEffectType(uEffect);
    }

    /** `update`: the sway advances by one step. */
    method Update()
      modifies this`t
      ensures t == old(t) + PhaseStep
    {
      t := t + PhaseStep;
    }

    /** The start of the curve: the start wheel's centre. */
    function Start(): Point
    {
      Point(startWheel.x, startWheel.y)
    }

    /** The swaying control point of `display`. */
    function ControlPoint(trig: Trig): Point
      reads this`t
    {
      Point((startWheel.x + endPos.x) / 2.0 + Sway * trig.sin(t),
            (startWheel.y + endPos.y) / 2.0 + Sway * trig.cos(t))
    }

    /** The 33 probe points of the curve as it is drawn this frame. */
    function Curve(trig: Trig): (s: seq<Point>)
      reads this`t
      ensures |s| == BezierSteps + 1 && s[0] == Start() && s[BezierSteps] == endPos
    {
      BezierSamples(Start(), ControlPoint(trig), endPos)
    }

    /** `display`, less the drawing: the influence along the curve (1 without
        a manager), turned into an effect level and added to the connector's
        effect. With a manager the level is the curve's peak influence itself,
        since `factorFromInfluence(0, 1, x)` clamps x to [0, 1] and the peak
        already lies there. Inside a frame whose earlier connectors measured
        `levels` along `curves`, this one's level extends that record. */
    method Display(audio: AudioManager?, manager: InteractionManager?, trig: Trig, now: real,
                   ghost curves: seq<seq<Point>>, ghost levels: seq<real>, ghost ts: seq<Threshold>)
      returns (ghost level: real, ghost ts': seq<Threshold>)
      requires FrameReady(audio, manager, now)
      modifies Sounding(audio)`effectInfluence, Present(manager)`pointerFade, Present(manager)`lastFadeUpdate
      ensures 0.0 <= level <= 1.0
      ensures manager == null ==> level == 1.0
      ensures manager != null ==> Swept(manager, Curve(trig), old(audio != null && audio.audioEnabled), now, level)
      ensures old(Measuring(manager, audio != null && audio.audioEnabled, curves, levels, ts, now)) &&
              |levels| < |curves| && curves[|levels|] == Curve(trig) ==>
                Measuring(manager, old(audio != null && audio.audioEnabled), curves, levels + [level], ts', now)
      ensures AudioReady(audio) && (audio != null ==> audio.audioEnabled == old(audio.audioEnabled))
      ensures audio != null && !audio.audioEnabled ==> audio.effectInfluence == old(audio.effectInfluence)
      ensures audio != null && audio.audioEnabled ==>
                effectType in old(audio.effectInfluence) &&
                audio.effectInfluence == old(audio.effectInfluence)[effectType := Max(old(audio.effectInfluence)[effectType], level)]
    {
      var ready := audio != null && audio.audioEnabled;
      var curve := Curve(trig);
      if audio == null {
        level, ts' := EffectLevelAlong(manager, curve, ready, now, curves, levels, ts);
      } else {
        level, ts' := SweepAndContribute(audio, manager, curve, effectType, ready, now, curves, levels, ts);
      }
    }
  }

  /** `display` with audio present: the sweep, then the contribution of its
      level, which leaves what the sweep did to the interaction manager as it
      is. */
  method SweepAndContribute(audio: AudioManager, manager: InteractionManager?, curve: seq<Point>, e: Effect,
                            ready: bool, now: real,
                            ghost curves: seq<seq<Point>>, ghost levels: seq<real>, ghost ts: seq<Threshold>)
    returns (level: real, ghost ts': seq<Threshold>)
    requires |curve| > 0
    requires audio.Valid() && ready == audio.audioEnabled
    requires ManagerReady(manager, now)
    modifies audio`effectInfluence, Present(manager)`pointerFade, Present(manager)`lastFadeUpdate
    ensures 0.0 <= level <= 1.0
    ensures manager == null ==> level == 1.0
    ensures manager != null ==> Swept(manager, curve, ready, now, level)
    ensures old(Measuring(manager, ready, curves, levels, ts, now)) && |levels| < |curves| && curves[|levels|] == curve ==>
              Measuring(manager, ready, curves, levels + [level], ts', now)
    ensures audio.Valid() && audio.audioEnabled == ready
    ensures !ready ==> audio.effectInfluence == old(audio.effectInfluence)
    ensures ready ==>
              e in old(audio.effectInfluence) &&
              audio.effectInfluence == old(audio.effectInfluence)[e := Max(old(audio.effectInfluence)[e], level)]
  {
    ghost var fade0, last0, ts0 := 0.0, 0.0, [];
    if manager != null {
      fade0, last0, ts0 := manager.pointerFade, manager.lastFadeUpdate, manager.ActiveThresholds(ready);
    }
    level, ts' := EffectLevelAlong(manager, curve, ready, now, curves, levels, ts);
    ContributeAfterSweep(audio, level, e, manager, curve, ready, now, fade0, last0, ts0, curves, levels + [level], ts');
  }

  /** The effect level of `display`: 1 without a manager (the influence
      defaults to 1 and is used as it is); otherwise the curve's sampled
      influence through `factorFromInfluence(0, 1, ·)`, which leaves the peak
      as it is since it already lies in [0, 1]. Inside a frame whose earlier
      connectors measured `levels` along `curves`, this level extends that
      record. */
  method EffectLevelAlong(manager: InteractionManager?, curve: seq<Point>, ready: bool, now: real,
                          ghost curves: seq<seq<Point>>, ghost levels: seq<real>, ghost ts: seq<Threshold>)
    returns (effectLevel: real, ghost ts': seq<Threshold>)
    requires |curve| > 0
    requires ManagerReady(manager, now)
    modifies Present(manager)`pointerFade, Present(manager)`lastFadeUpdate
    ensures 0.0 <= effectLevel <= 1.0
    ensures manager == null ==> effectLevel == 1.0
    ensures manager != null ==> Swept(manager, curve, ready, now, effectLevel)
    ensures old(Measuring(manager, ready, curves, levels, ts, now)) && |levels| < |curves| && curves[|levels|] == curve ==>
              Measuring(manager, ready, curves, levels + [effectLevel], ts', now)
  {
    ts' := ts;
    if manager == null {
      effectLevel := 1.0;
    } else {
      var influence, point, probed := SampleThresholdInfluence(manager, curve, ready, now);
      effectLevel := FactorFromInfluence(0.0, 1.0, influence);
      EffectLevelIsClampedInfluence(influence);
      ts' := manager.ActiveThresholds(ready);
      if old(Measuring(manager, ready, curves, levels, ts, now)) && |levels| < |curves| && curves[|levels|] == curve {
        MeasuredAppend(manager.hypot, ts', curves, levels, effectLevel, ready);
      }
    }
  }

  /** `pickEffectType`. */
  function PickEffectType(u: real): (e: Effect)
    requires 0.0 <= u < 1.0
    ensures e == EffectTypes[Pick(|EffectTypes|, u)]
    ensures e in AllEffects()
  {
    EffectTypes[Pick(|EffectTypes|, u)]
  }

  /** Every effect is one of the four the audio manager keeps a chain for. */
  lemma EffectListed(e: Effect)
    ensures e in AllEffects()
  {
    match e
    case Flange =>
    case Reverb =>
    case Delay =>
    case Phaser =>
  }

  /** An effect's own name parses back to it, so a connector always feeds the
      effect it was given. */
  lemma ParseEffectName(e: Effect)
    ensures ParseEffect(EffectName(e)) == Some(e)
  {
  }

  /** The `accumulateConnectorInfluence` call of `display`, made when there
      is an audio manager, with the name of the connector's own effect. */
  method Contribute(audio: AudioManager, level: real, e: Effect)
    requires audio.Valid()
    modifies audio`effectInfluence
    ensures audio.Valid()
    ensures !audio.audioEnabled ==> audio.effectInfluence == old(audio.effectInfluence)
    ensures audio.audioEnabled ==>
              e in old(audio.effectInfluence) &&
              audio.effectInfluence == old(audio.effectInfluence)[e := Max(old(audio.effectInfluence)[e], level)]
  {
    ParseEffectName(e);
    EffectListed(e);
    audio.AccumulateConnectorInfluence(level, EffectName(e));
  }

  /** `Contribute` as `display` makes it, after the sweep: it touches the
      audio side only, so what the sweep left in the interaction manager
      stands. */
  method ContributeAfterSweep(audio: AudioManager, level: real, e: Effect, manager: InteractionManager?,
                              ghost curve: seq<Point>, ghost ready: bool, ghost now: real,
                              ghost fade0: real, ghost last0: real, ghost ts0: seq<Threshold>,
                              ghost curves: seq<seq<Point>>, ghost levels: seq<real>, ghost ts: seq<Threshold>)
    requires audio.Valid()
    modifies audio`effectInfluence
    ensures audio.Valid() && audio.audioEnabled == old(audio.audioEnabled)
    ensures !audio.audioEnabled ==> audio.effectInfluence == old(audio.effectInfluence)
    ensures audio.audioEnabled ==>
              e in old(audio.effectInfluence) &&
              audio.effectInfluence == old(audio.effectInfluence)[e := Max(old(audio.effectInfluence)[e], level)]
    ensures manager != null && old(SweptFrom(manager, curve, ready, now, level, fade0, last0, ts0)) ==>
              SweptFrom(manager, curve, ready, now, level, fade0, last0, ts0)
    ensures old(Measuring(manager, ready, curves, levels, ts, now)) ==> Measuring(manager, ready, curves, levels, ts, now)
  {
    Contribute(audio, level, e);
  }

  /** `sampleThresholdInfluence`: 0 without a manager; otherwise the walk
      along the curve's probe points, which keeps only the influence. */
  method SampleThresholdInfluence(manager: InteractionManager?, curve: seq<Point>, ready: bool, now: real)
    returns (best: real, ghost point: Option<Point>, ghost probed: nat)
    requires |curve| > 0
    requires ManagerReady(manager, now)
    modifies Present(manager)`pointerFade, Present(manager)`lastFadeUpdate
    ensures manager == null ==> best == 0.0
    ensures manager != null ==>
              manager.Valid() && FadeSettled(manager, ready, now) &&
              PeakWalk(manager, curve, ready, best, point, probed)
  {
    if manager == null {
      return 0.0, None, 0;
    }
    best, point, probed := ProbeRun(manager, ready, now, curve);
  }

  /** The strongest level among the first n connectors of effect e: 0 when
      none of them feeds e. */
  function Strongest(levels: seq<real>, kinds: seq<Effect>, n: nat, e: Effect): (r: real)
    requires n <= |levels| && n <= |kinds|
    ensures 0.0 <= r
    decreases n
  {
    if n == 0 then 0.0
    else if kinds[n - 1] == e then Max(Strongest(levels, kinds, n - 1, e), levels[n - 1])
    else Strongest(levels, kinds, n - 1, e)
  }

  /** The strongest level bounds every level of its effect and is 0 or one of
      them. */
  lemma {:induction false} StrongestIsMaximum(levels: seq<real>, kinds: seq<Effect>, n: nat, e: Effect)
    requires n <= |levels| && n <= |kinds|
    ensures forall k :: 0 <= k < n && kinds[k] == e ==> levels[k] <= Strongest(levels, kinds, n, e)
    ensures Strongest(levels, kinds, n, e) == 0.0 ||
            exists k :: 0 <= k < n && kinds[k] == e && levels[k] == Strongest(levels, kinds, n, e)
    decreases n
  {
    if n > 0 {
      StrongestIsMaximum(levels, kinds, n - 1, e);
    }
  }

  /** An effect that none of the first n connectors feeds stays at 0. */
  lemma StrongestUnfed(levels: seq<real>, kinds: seq<Effect>, n: nat, e: Effect)
    requires n <= |levels| && n <= |kinds|
    requires forall k :: 0 <= k < n ==> kinds[k] != e
    ensures Strongest(levels, kinds, n, e) == 0.0
  {
    StrongestIsMaximum(levels, kinds, n, e);
  }

  /** Levels recorded later do not change the strongest of earlier ones. */
  lemma {:induction false} StrongestPrefix(levels: seq<real>, kinds: seq<Effect>, level: real, n: nat, e: Effect)
    requires n <= |levels| && n <= |kinds|
    ensures Strongest(levels + [level], kinds, n, e) == Strongest(levels, kinds, n, e)
    decreases n
  {
    if n > 0 {
      StrongestPrefix(levels, kinds, level, n - 1, e);
      assert (levels + [level])[n - 1] == levels[n - 1];
    }
  }

  /** Every effect at the strongest level among the given levels. */
  function StrongestMap(levels: seq<real>, kinds: seq<Effect>): map<Effect, real>
    requires |levels| <= |kinds|
  {
    map e | e in AllEffects() :: Strongest(levels, kinds, |levels|, e)
  }

  /** One more connector's level, fed into its effect with `max`, keeps every
      effect at the strongest level so far. */
  lemma StrongestFeed(m: map<Effect, real>, levels: seq<real>, kinds: seq<Effect>, level: real)
    requires |levels| < |kinds|
    requires m == StrongestMap(levels, kinds)
    ensures kinds[|levels|] in m
    ensures m[kinds[|levels|] := Max(m[kinds[|levels|]], level)] ==
            StrongestMap(levels + [level], kinds)
  {
    var n := |levels|;
    var k := kinds[n];
    EffectListed(k);
    forall e | e in AllEffects()
      ensures Strongest(levels + [level], kinds, n + 1, e) ==
              (if e == k then Max(m[k], level) else m[e])
    {
      StrongestPrefix(levels, kinds, level, n, e);
    }
  }

  /** The effects the connectors feed, in order. */
  function KindsOf(connectors: seq<Connector>): (kinds: seq<Effect>)
    ensures |kinds| == |connectors|
    ensures forall k :: 0 <= k < |connectors| ==> kinds[k] == connectors[k].effectType
  {
    if connectors == [] then []
    else KindsOf(connectors[..|connectors| - 1]) + [connectors[|connectors| - 1].effectType]
  }

  /** The managers a frame works with, each well formed when present. */
  ghost predicate FrameReady(audio: AudioManager?, manager: InteractionManager?, now: real)
    reads audio, manager
  {
    AudioReady(audio) && ManagerReady(manager, now)
  }

  /** Every effect holds the strongest level among the connectors seen so
      far that feed it. */
  ghost predicate FedSoFar(audio: AudioManager, levels: seq<real>, kinds: seq<Effect>)
    requires |levels| <= |kinds|
    reads audio`effectInfluence
  {
    audio.effectInfluence == StrongestMap(levels, kinds)
  }

  /** The probe points of each connector's curve this frame. */
  function CurvesOf(connectors: seq<Connector>, trig: Trig): (curves: seq<seq<Point>>)
    reads connectors
    ensures |curves| == |connectors|
    ensures forall k :: 0 <= k < |connectors| ==> curves[k] == connectors[k].Curve(trig)
  {
    if connectors == [] then []
    else CurvesOf(connectors[..|connectors| - 1], trig) + [connectors[|connectors| - 1].Curve(trig)]
  }

  /** A frame part-way through its connectors: the managers are well formed,
      every level so far lies in [0, 1] (1 without a manager) and is the peak
      influence of the thresholds ts along its curve, ts are the manager's
      active thresholds once a query has been made, and every effect holds
      the strongest level fed to it so far. */
  ghost predicate Progress(audio: AudioManager?, manager: InteractionManager?, ready: bool, kinds: seq<Effect>,
                           curves: seq<seq<Point>>, levels: seq<real>, ts: seq<Threshold>, now: real)
    reads audio, manager
  {
    ready == (audio != null && audio.audioEnabled) &&
    |levels| <= |kinds| && AudioReady(audio) &&
    Measuring(manager, ready, curves, levels, ts, now) &&
    (ready ==> FedSoFar(audio, levels, kinds))
  }

  /** The parts of a frame's progress, put together. */
  lemma ProgressFrom(audio: AudioManager?, manager: InteractionManager?, ready: bool, kinds: seq<Effect>,
                     curves: seq<seq<Point>>, levels: seq<real>, ts: seq<Threshold>, now: real)
    requires ready == (audio != null && audio.audioEnabled) && |levels| <= |kinds| && AudioReady(audio)
    requires Measuring(manager, ready, curves, levels, ts, now)
    requires ready ==> FedSoFar(audio, levels, kinds)
    ensures Progress(audio, manager, ready, kinds, curves, levels, ts, now)
  {
  }

  /** A frame that went through every curve leaves each level at the peak
      influence the manager's thresholds have along its curve. */
  lemma ProgressPeaks(audio: AudioManager?, manager: InteractionManager, ready: bool, kinds: seq<Effect>, curves: seq<seq<Point>>,
                      levels: seq<real>, ts: seq<Threshold>, now: real)
    requires Progress(audio, manager, ready, kinds, curves, levels, ts, now) && |levels| == |curves|
    ensures PeaksAlong(manager, curves, levels, ready)
  {
    MeasuredPeaks(manager, ts, curves, levels, ready);
  }

  /** A frame after every connector's `display`: the interaction manager is
      well formed and not ahead of the clock, every level lies in [0, 1] and
      is exactly 1 without a manager, each level is the peak influence along
      its connector's curve, and while audio is enabled every effect holds
      the strongest level among the connectors that feed it. */
  ghost predicate Drawn(audio: AudioManager?, manager: InteractionManager?, connectors: seq<Connector>, trig: Trig,
                        now: real, levels: seq<real>)
    reads Sounding(audio)`audioEnabled, Sounding(audio)`effectInfluence, manager, connectors
  {
    |levels| == |connectors| && ManagerReady(manager, now) &&
    (forall k :: 0 <= k < |levels| ==> 0.0 <= levels[k] <= 1.0) &&
    (manager == null ==> forall k :: 0 <= k < |levels| ==> levels[k] == 1.0) &&
    (manager != null ==> PeaksAlong(manager, CurvesOf(connectors, trig), levels, audio != null && audio.audioEnabled)) &&
    (audio != null && audio.audioEnabled ==> FedSoFar(audio, levels, KindsOf(connectors)))
  }

  /** The state `draw` leaves after the connectors' part of a frame: a well
      formed audio manager, and the connectors drawn as `Drawn` says. */
  ghost predicate FrameDrawn(audio: AudioManager?, manager: InteractionManager?, connectors: seq<Connector>, trig: Trig,
                             now: real, levels: seq<real>)
    reads audio, manager, connectors
  {
    AudioReady(audio) && Drawn(audio, manager, connectors, trig, now, levels)
  }
}
