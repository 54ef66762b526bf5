/** The connector part of a frame (abstract-wheels/sketch.js, `draw`):
    every frame starts the effect influences at 0, each connector adds the
    influence the thresholds have on its curve to its own effect, and the wet
    gains then follow the strongest connector of each effect. The clock is
    read once for the frame. */
module Sketch {
  import opened Geometry
  import opened Thresholds
  import opened Walks
  import opened Interaction
  import opened AudioGraph
  import opened Audio
  import opened Wheels
  import opened Connectors

  /** One connector's `display` inside a frame: its level is the peak
      influence along its curve, and every effect keeps the strongest level so
      far, now counting this connector's. */
  method DisplayNext(c: Connector, audio: AudioManager?, manager: InteractionManager?, trig: Trig, now: real,
                     ghost ready: bool, ghost kinds: seq<Effect>, ghost curves: seq<seq<Point>>, ghost levels: seq<real>, ghost ts: seq<Threshold>)
    returns (ghost level: real, ghost ts': seq<Threshold>)
    requires Progress(audio, manager, ready, kinds, curves, levels, ts, now)
    requires |levels| < |kinds| && kinds[|levels|] == c.effectType
    requires |levels| < |curves| && curves[|levels|] == c.Curve(trig)
    modifies Sounding(audio)`effectInfluence, Present(manager)`pointerFade, Present(manager)`lastFadeUpdate
    ensures Progress(audio, manager, ready, kinds, curves, levels + [level], ts', now)
    ensures manager != null ==>
              level == manager.PeakInfluence(c.Curve(trig), BezierSteps + 1, ready)
  {
    ghost var before := if audio != null then audio.effectInfluence else map[];
    level, ts' := c.Display(audio, manager, trig, now, curves, levels, ts);
    if ready {
      StrongestFeed(before, levels, kinds, level);
    }
    ProgressFrom(audio, manager, ready, kinds, curves, levels + [level], ts', now);
  }

  /** Each connector's `display` in order: each level is the peak influence
      along the connector's curve, and the effects end at the strongest level
      of the connectors feeding them. */
  method DisplayAll(audio: AudioManager?, manager: InteractionManager?, connectors: seq<Connector>, trig: Trig, now: real,
                    ghost kinds: seq<Effect>)
    returns (ghost levels: seq<real>)
    requires kinds == KindsOf(connectors)
    requires FrameReady(audio, manager, now)
    requires audio != null && audio.audioEnabled ==> FedSoFar(audio, [], kinds)
    modifies Sounding(audio)`effectInfluence, Present(manager)`pointerFade, Present(manager)`lastFadeUpdate
    ensures FrameDrawn(audio, manager, connectors, trig, now, levels)
  {
    ghost var ready := audio != null && audio.audioEnabled;
    ghost var curves := CurvesOf(connectors, trig);
    ghost var ts: seq<Threshold> := [];
    levels := [];
    var i := 0;
    while i < |connectors|
      invariant 0 <= i <= |connectors| && |levels| == i
      invariant Progress(audio, manager, ready, kinds, curves, levels, ts, now)
    {
      ghost var level;
      level, ts := DisplayNext(connectors[i], audio, manager, trig, now, ready, kinds, curves, levels, ts);
      levels := levels + [level];
      i := i + 1;
    }
    if manager != null {
      ProgressPeaks(audio, manager, ready, kinds, curves, levels, ts, now);
    }
    assert CurvesOf(connectors, trig) == curves;
  }

  /** The `beginFrame` call of `draw`, made when there is an audio manager:
      no connector has fed any effect yet. */
  method BeginConnectorFrame(audio: AudioManager?, ghost kinds: seq<Effect>)
    requires AudioReady(audio)
    modifies Sounding(audio)`effectInfluence
    ensures AudioReady(audio)
    ensures audio != null ==> audio.effectInfluence == EveryEffect(0.0)
    ensures audio != null ==> FedSoFar(audio, [], kinds)
  {
    if audio != null {
      audio.BeginFrame();
    }
  }

  /** The `applyConnectorEffects` call of `draw`, made when there is an
      audio manager: the connectors stay drawn as they were, and while audio
      is enabled each wet gain heads for the target of its effect's level. */
  method EndConnectorFrame(audio: AudioManager?, manager: InteractionManager?, connectors: seq<Connector>, trig: Trig,
                           now: real, ghost levels: seq<real>)
    requires FrameDrawn(audio, manager, connectors, trig, now, levels)
    modifies Sounding(audio)`wetGains
    ensures FrameDrawn(audio, manager, connectors, trig, now, levels)
    ensures audio != null && audio.audioEnabled ==>
              audio.wetGains == map e | e in AllEffects() ::
                Ramp(WetTarget(e, audio.effectInfluence[e], audio.maxEffectLevel, audio.effectLevelOverrides[e]), 0.05)
  {
    if audio != null {
      audio.ApplyConnectorEffects();
    }
  }

  /** The connector part of `draw`: `beginFrame`, each connector's
      `display`, then `applyConnectorEffects`. While audio is enabled, each
      effect ends the frame at the strongest level among the connectors that
      feed it, and its wet gain heads for the target of that level. */
  method DrawConnectors(audio: AudioManager?, manager: InteractionManager?, connectors: seq<Connector>, trig: Trig, now: real)
    returns (ghost levels: seq<real>)
    requires FrameReady(audio, manager, now)
    modifies Sounding(audio)`effectInfluence, Sounding(audio)`wetGains, Present(manager)`pointerFade, Present(manager)`lastFadeUpdate
    ensures FrameDrawn(audio, manager, connectors, trig, now, levels)
    ensures audio != null && audio.audioEnabled ==>
              audio.wetGains == map e | e in AllEffects() ::
                Ramp(WetTarget(e, audio.effectInfluence[e], audio.maxEffectLevel, audio.effectLevelOverrides[e]), 0.05)
  {
    var kinds := KindsOf(connectors);
    BeginConnectorFrame(audio, kinds);
    levels := DisplayAll(audio, manager, connectors, trig, now, kinds);
    EndConnectorFrame(audio, manager, connectors, trig, now, levels);
  }
}
