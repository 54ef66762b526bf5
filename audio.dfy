/** The control state of the audio manager (abstract-wheels/audio.js): bus
    levels, connector effect levels gathered once per frame, and the per-shape
    side tables that fix a shape's waveform and samples once chosen and hold
    its synth voice and sample loop.

    The Web Audio graph is reduced to what the control logic decides: each gain
    node is the last value scheduled on it (a `Ramp`), and node starts, stops
    and one-shot sample plays are appended to `schedule`. Node handles are
    numbers from a counter. Whether an AudioContext exists is `hasContext`;
    `Math.pow(x, 1.2)` is the injected `gainCurve`; `Math.random()` draws are
    parameters in [0, 1). */
module Audio {
  import opened Util
  import opened Scale
  import opened Samples
  import opened AudioGraph

  const EffectTypes: seq<Effect> := [Flange, Reverb, Delay, Phaser]
  const BusNames: seq<Bus> := [Synth, Kick, Snare, Hihat, Sfx]
  const Waveforms: seq<Waveform> := [Sine, Square, Triangle, Sawtooth]

  function EffectName(e: Effect): string
  {
    match e
    case Flange => "flange"
    case Reverb => "reverb"
    case Delay => "delay"
    case Phaser => "phaser"
  }

  /** The effect a name denotes (the `hasOwnProperty` test), if any. */
  function ParseEffect(name: string): (e: Option<Effect>)
    ensures e.Some? ==> EffectName(e.value) == name
    ensures e.None? ==> forall x :: EffectName(x) != name
  {
    if name == "flange" then Some(Flange)
    else if name == "reverb" then Some(Reverb)
    else if name == "delay" then Some(Delay)
    else if name == "phaser" then Some(Phaser)
    else None
  }

  function BusName(b: Bus): string
  {
    match b
    case Synth => "synth"
    case Kick => "kick"
    case Snare => "snare"
    case Hihat => "hihat"
    case Sfx => "sfx"
  }

  function ChannelOf(name: string): (c: Channel)
    ensures c == Master <==> name == "master"
    ensures c.Named? ==> BusName(c.bus) == name
    ensures c.Unlisted? ==> c.name == name && name != "master" && forall b :: BusName(b) != name
  {
    if name == "master" then Master
    else if name == "synth" then Named(Synth)
    else if name == "kick" then Named(Kick)
    else if name == "snare" then Named(Snare)
    else if name == "hihat" then Named(Hihat)
    else if name == "sfx" then Named(Sfx)
    else Unlisted(name)
  }

  /** Bus levels a fresh manager starts from. */
  function DefaultBusLevels(): map<Channel, real>
  {
    map[Master := 1.0, Named(Synth) := 0.8, Named(Kick) := 0.8, Named(Snare) := 0.8, Named(Hihat) := 0.8, Named(Sfx) := 0.8]
  }

  /** The gain nodes a fresh manager builds when there is a context. */
  function FreshBusGains(hasContext: bool): (gains: map<Bus, Ramp>)
    ensures gains.Keys == if hasContext then AllBuses() else {}
  {
    if hasContext then map b | b in AllBuses() :: Ramp(DefaultBusLevels()[Named(b)], 0.0) else map[]
  }

  /** The wet gains of the effect chains a fresh manager builds when there is
      a context, all silent. */
  function FreshWetGains(hasContext: bool): (gains: map<Effect, Ramp>)
    ensures gains.Keys == if hasContext then AllEffects() else {}
  {
    if hasContext then map e | e in AllEffects() :: Ramp(0.0, 0.0) else map[]
  }

  /** Every effect at the same level. */
  function EveryEffect(level: real): (levels: map<Effect, real>)
    ensures levels.Keys == AllEffects()
    ensures forall e :: e in levels ==> levels[e] == level
  {
    map e | e in AllEffects() :: level
  }

  /** The loop of `beginConnectorFrame`: each effect in turn set to 0. */
  method ZeroEach(levels: map<Effect, real>) returns (zeroed: map<Effect, real>)
    requires levels.Keys == AllEffects()
    ensures zeroed == EveryEffect(0.0)
  {
    zeroed := levels;
    var i := 0;
    while i < |EffectTypes|
      invariant 0 <= i <= |EffectTypes|
      invariant zeroed.Keys == AllEffects()
      invariant forall e :: e in EffectTypes[..i] ==> zeroed[e] == 0.0
    {
      zeroed := zeroed[EffectTypes[i] := 0.0];
      i := i + 1;
    }
    assert EffectTypes[..i] == EffectTypes;
  }

  const DefaultVelocity: real := 0.8
  const MaxVoiceVolume: real := 0.35
  /** The near-zero level a voice or loop fades to before it stops. */
  const FadeFloor: real := 0.0001

  /** The extra gain each effect chain applies to its level. */
  function WetScale(e: Effect): real
  {
    match e
    case Flange => 1.0
    case Reverb => 1.2
    case Delay => 0.8
    case Phaser => 1.1
  }

  /** `getOrCreateAssignment`, as a value: the entry, or an empty one. */
  function AssignmentOf(table: map<ShapeId, Assignment>, s: ShapeId): Assignment
  {
    if s in table then table[s] else Assignment(None, map[], None)
  }

  /** Monotone from [0, 1] onto [0, 1], fixing 0 and 1: what the volume curve
      `Math.pow(x, 1.2)` is relied on for. */
  ghost predicate IsGainCurve(curve: real -> real)
  {
    curve(0.0) == 0.0 && curve(1.0) == 1.0 &&
    (forall x :: 0.0 <= x <= 1.0 ==> 0.0 <= curve(x) <= 1.0) &&
    (forall x, y :: 0.0 <= x <= y <= 1.0 ==> curve(x) <= curve(y))
  }

  /** The volume curve a manager is built with. */
  type GainCurve = f: real -> real | IsGainCurve(f) witness (x: real) => x

  /** `volumeFromInfluence`: silent without influence, 0.35 at full influence,
      never outside [0, 0.35]. */
  function VolumeFromInfluence(curve: real -> real, influence: real): (v: real)
    requires IsGainCurve(curve)
    ensures 0.0 <= v <= MaxVoiceVolume
    ensures influence <= 0.0 ==> v == 0.0
    ensures influence >= 1.0 ==> v == MaxVoiceVolume
  {
    var clamped := Clamp01(influence);
    Min(MaxVoiceVolume, curve(clamped) * MaxVoiceVolume)
  }

  /** More influence never gives a quieter voice. */
  lemma VolumeMonotone(curve: real -> real, i1: real, i2: real)
    requires IsGainCurve(curve) && i1 <= i2
    ensures VolumeFromInfluence(curve, i1) <= VolumeFromInfluence(curve, i2)
  {
    assert curve(Clamp01(i1)) <= curve(Clamp01(i2));
  }

  /** The level `applyConnectorEffects` drives a chain to: never above 1, and
      0 when the connectors exert nothing or the override mutes the chain. */
  function EffectLevel(raw: real, maxLevel: real, override: real): (level: real)
    ensures level <= 1.0
    ensures 0.0 <= raw && 0.0 <= maxLevel && 0.0 <= override ==> 0.0 <= level
    ensures raw == 0.0 || override == 0.0 ==> level == 0.0
    ensures 0.0 <= raw <= 1.0 && maxLevel == 1.0 && 0.0 <= override <= 1.0 ==> level <= raw
  {
    var product := raw * maxLevel * override;
    ProductBounds(raw, maxLevel, override, product);
    Min(1.0, product)
  }

  /** What an effect chain's `setLevel` drives its wet gain to: the level
      times the chain's scale, so never above that scale, and silent when the
      connectors exert nothing or the override mutes the chain. */
  function WetTarget(e: Effect, raw: real, maxLevel: real, override: real): (g: real)
    ensures g <= WetScale(e)
    ensures 0.0 <= raw && 0.0 <= maxLevel && 0.0 <= override ==> 0.0 <= g
    ensures raw == 0.0 || override == 0.0 ==> g == 0.0
  {
    var level := EffectLevel(raw, maxLevel, override);
    var g := level * WetScale(e);
    assert WetScale(e) - g == (1.0 - level) * WetScale(e);
    MulNonNegative(1.0 - level, WetScale(e), (1.0 - level) * WetScale(e));
    MulSign(level, WetScale(e), g);
    g
  }

  lemma ProductBounds(a: real, b: real, c: real, p: real)
    requires p == a * b * c
    ensures 0.0 <= a && 0.0 <= b && 0.0 <= c ==> 0.0 <= p
    ensures a == 0.0 || c == 0.0 ==> p == 0.0
    ensures 0.0 <= a && b == 1.0 && 0.0 <= c <= 1.0 ==> p <= a
  {
    if 0.0 <= a && 0.0 <= b && 0.0 <= c {
      var ab := a * b;
      MulNonNegative(a, b, ab);
      MulNonNegative(ab, c, p);
    }
    if 0.0 <= a && b == 1.0 && 0.0 <= c <= 1.0 {
      assert a - p == a * (1.0 - c);
      MulNonNegative(a, 1.0 - c, a * (1.0 - c));
    }
  }

  lemma MulSign(x: real, y: real, p: real)
    requires p == x * y
    ensures 0.0 <= x && 0.0 <= y ==> 0.0 <= p
    ensures x == 0.0 ==> p == 0.0
  {
  }

  lemma MulNonNegative(x: real, y: real, p: real)
    requires 0.0 <= x && 0.0 <= y && p == x * y
    ensures 0.0 <= p
  {
  }

  /** The pool a sample group draws from: its own, or the sfx pool for a group
      without one. */
  function PoolFor(pools: map<Bus, seq<string>>, group: Bus): seq<string>
    requires Sfx in pools
  {
    if group in pools then pools[group] else pools[Sfx]
  }

  /** What `getSampleForShape` returns: nothing from an empty pool; for no
      shape, the draw from the pool; for a shape, the sample it already holds
      for the group, or else the draw. */
  function ChooseSample(pools: map<Bus, seq<string>>, table: map<ShapeId, Assignment>, shape: Option<ShapeId>, group: Bus, u: real): (p: Option<string>)
    requires Sfx in pools && 0.0 <= u < 1.0
    ensures p.None? <==> |PoolFor(pools, group)| == 0
    ensures p.Some? && shape.Some? && group in AssignmentOf(table, shape.value).samples ==>
              p.value == AssignmentOf(table, shape.value).samples[group]
    ensures p.Some? && (shape.None? || group !in AssignmentOf(table, shape.value).samples) ==>
              p.value in PoolFor(pools, group)
  {
    var pool := PoolFor(pools, group);
    if |pool| == 0 then None
    else if shape.None? then Some(pool[Pick(|pool|, u)])
    else
      var a := AssignmentOf(table, shape.value);
      Some(if group in a.samples then a.samples[group] else pool[Pick(|pool|, u)])
  }

  /** The side table after `getSampleForShape`: the shape's entry exists and
      records the returned sample for the group. */
  function AfterSample(pools: map<Bus, seq<string>>, table: map<ShapeId, Assignment>, shape: Option<ShapeId>, group: Bus, u: real): (t: map<ShapeId, Assignment>)
    requires Sfx in pools && 0.0 <= u < 1.0
    ensures ChooseSample(pools, table, shape, group, u).None? || shape.None? ==> t == table
  {
    var p := ChooseSample(pools, table, shape, group, u);
    if p.None? || shape.None? then table
    else
      var a := AssignmentOf(table, shape.value);
      table[shape.value := a.(samples := a.samples[group := p.value])]
  }

  /** Once a shape has a sample for a group, every later lookup returns it,
      whatever the draw, and leaves the table as it is. */
  lemma {:induction false} SampleStable(pools: map<Bus, seq<string>>, table: map<ShapeId, Assignment>, s: ShapeId, group: Bus, u1: real, u2: real)
    requires Sfx in pools && 0.0 <= u1 < 1.0 && 0.0 <= u2 < 1.0
    requires |PoolFor(pools, group)| > 0
    ensures var t1 := AfterSample(pools, table, Some(s), group, u1);
            ChooseSample(pools, t1, Some(s), group, u2) == ChooseSample(pools, table, Some(s), group, u1) &&
            AfterSample(pools, t1, Some(s), group, u2) == t1
  {
    var t1 := AfterSample(pools, table, Some(s), group, u1);
    var p := ChooseSample(pools, table, Some(s), group, u1);
    var a := AssignmentOf(t1, s);
    assert a.samples[group] == p.value;
    assert a.samples[group := p.value] == a.samples;
    assert t1[s := a.(samples := a.samples[group := p.value])] == t1;
  }

  /** What `getWaveformForShape` returns: sine for no shape, otherwise the
      shape's waveform, drawn on first use. */
  function ChooseWaveform(table: map<ShapeId, Assignment>, shape: Option<ShapeId>, u: real): (w: Waveform)
    requires 0.0 <= u < 1.0
    ensures shape.Some? && AssignmentOf(table, shape.value).waveform.Some? ==>
              w == AssignmentOf(table, shape.value).waveform.value
  {
    if shape.None? then Sine
    else
      var a := AssignmentOf(table, shape.value);
      if a.waveform.Some? then a.waveform.value else Waveforms[Pick(|Waveforms|, u)]
  }

  function AfterWaveform(table: map<ShapeId, Assignment>, shape: Option<ShapeId>, u: real): (t: map<ShapeId, Assignment>)
    requires 0.0 <= u < 1.0
    ensures shape.None? ==> t == table
    ensures shape.Some? ==> shape.value in t && t[shape.value].waveform == Some(ChooseWaveform(table, shape, u))
  {
    if shape.None? then table
    else
      var a := AssignmentOf(table, shape.value);
      table[shape.value := a.(waveform := Some(ChooseWaveform(table, shape, u)))]
  }

  /** Once a shape has a waveform, later lookups return it whatever the draw. */
  lemma {:induction false} WaveformStable(table: map<ShapeId, Assignment>, s: ShapeId, u1: real, u2: real)
    requires 0.0 <= u1 < 1.0 && 0.0 <= u2 < 1.0
    ensures var t1 := AfterWaveform(table, Some(s), u1);
            ChooseWaveform(t1, Some(s), u2) == ChooseWaveform(table, Some(s), u1) &&
            AfterWaveform(t1, Some(s), u2) == t1
  {
    var t1 := AfterWaveform(table, Some(s), u1);
    var a := AssignmentOf(t1, s);
    assert a.waveform == Some(ChooseWaveform(table, Some(s), u1));
    assert a.(waveform := a.waveform) == a;
    assert t1[s := a] == t1;
  }

  /** The voice a shape currently has, if any. */
  function VoiceOf(table: map<ShapeId, Assignment>, s: ShapeId): Option<Voice>
  {
    AssignmentOf(table, s).voice
  }

  /** The table with the shape's voice replaced (None deletes it), its waveform
      and samples kept. */
  function WithVoice(table: map<ShapeId, Assignment>, s: ShapeId, v: Option<Voice>): map<ShapeId, Assignment>
  {
    table[s := AssignmentOf(table, s).(voice := v)]
  }


  class AudioManager {
    const hasContext: bool
    const gainCurve: GainCurve
    const scale: ScaleDef
    const maxEffectLevel: real
    var samplePools: map<Bus, seq<string>>
    /** Paths whose audio was fetched and decoded. */
    var buffers: set<string>
    var audioEnabled: bool
    var busLevels: map<Channel, real>
    var masterGain: Option<Ramp>
    var busGains: map<Bus, Ramp>
    var effectInfluence: map<Effect, real>
    var effectLevelOverrides: map<Effect, real>
    /** The wet gain of each effect chain. */
    var wetGains: map<Effect, Ramp>
    var sampleAssignments: map<ShapeId, Assignment>
    var specialLoops: map<ShapeId, Loop>
    var nextNode: nat
    var schedule: seq<Event>

    ghost predicate Valid()
      reads this
    {
      IsScale(scale) && maxEffectLevel == 1.0 &&
      (audioEnabled ==> hasContext) &&
      samplePools.Keys == PoolBuses() &&
      BusesFit(busLevels, masterGain, busGains, hasContext) &&
      EffectsFit(effectInfluence, effectLevelOverrides, wetGains, hasContext) &&
      TableFits(sampleAssignments, nextNode) &&
      LoopsFit(specialLoops, nextNode, buffers) && (hasContext || specialLoops == map[])
    }

    /** A manager as the page creates it: the scale drawn from uKind and uRoot,
        empty pools, default bus levels on freshly built buses, every effect
        at influence 0 with override 1, and audio not yet enabled. */
    constructor (hasContext: bool, gainCurve: GainCurve, uKind: real, uRoot: real)
      requires 0.0 <= uKind < 1.0 && 0.0 <= uRoot < 1.0
      ensures Valid()
      ensures this.hasContext == hasContext && this.gainCurve == gainCurve
      ensures scale == GenerateScale(uKind, uRoot)
      ensures !audioEnabled && buffers == {} && samplePools == map g | g in PoolBuses() :: []
      ensures busLevels == DefaultBusLevels()
      ensures masterGain == (if hasContext then Some(Ramp(1.0, 0.0)) else None)
      ensures busGains == FreshBusGains(hasContext)
      ensures effectInfluence == EveryEffect(0.0) && effectLevelOverrides == EveryEffect(1.0)
      ensures wetGains == FreshWetGains(hasContext)
      ensures sampleAssignments == map[] && specialLoops == map[] && nextNode == 0 && schedule == []
    {
      this.hasContext := hasContext;
      this.gainCurve := gainCurve;
      samplePools := map g | g in PoolBuses() :: [];
      buffers := {};
      sampleAssignments := map[];
      specialLoops := map[];
      scale := GenerateScale(uKind, uRoot);
      audioEnabled := false;
      busLevels := DefaultBusLevels();
      effectInfluence := EveryEffect(0.0);
      effectLevelOverrides := EveryEffect(1.0);
      maxEffectLevel := 1.0;
      nextNode := 0;
      schedule := [];
      masterGain := if hasContext then Some(Ramp(1.0, 0.0)) else None;
      busGains := FreshBusGains(hasContext);
      wetGains := FreshWetGains(hasContext);
    }

    /** One directory's file list joining its pool (`loadAllSamples`). */
    method AddToPool(group: Bus, files: seq<string>)
      requires Valid() && group in samplePools
      modifies this`samplePools
      ensures Valid()
      ensures samplePools == old(samplePools)[group := old(samplePools)[group] + files]
    {
      samplePools := samplePools[group := samplePools[group] + files];
    }

    /** `loadBuffer`: a path already loaded stays; otherwise it is stored only
        when fetching and decoding succeed. */
    method LoadBuffer(path: string, decodes: bool)
      requires Valid()
      modifies this`buffers
      ensures Valid()
      ensures buffers == if path in old(buffers) || !decodes then old(buffers) else old(buffers) + {path}
    {
      if path in buffers {
        return;
      }
      if decodes {
        buffers := buffers + {path};
      }
    }

    /** `enableAudio`: with a context and not yet enabled, enables audio and
        re-applies the bus levels. */
    method EnableAudio()
      requires Valid()
      modifies this`audioEnabled, this`masterGain, this`busGains
      ensures Valid()
      ensures audioEnabled == (old(audioEnabled) || hasContext)
      ensures old(audioEnabled) || !hasContext ==> masterGain == old(masterGain) && busGains == old(busGains)
      ensures !old(audioEnabled) && hasContext ==>
                masterGain == Some(Ramp(busLevels[Master], 0.2)) &&
                busGains == map b | b in AllBuses() :: Ramp(busLevels[Named(b)], 0.1)
    {
      if !hasContext {
        return;
      }
      if audioEnabled {
        return;
      }
      audioEnabled := true;
      ApplyBusLevels();
    }

    /** `applyBusLevels`: ramps the master to its level over 0.2 s and each bus
        to its level over 0.1 s. */
    method ApplyBusLevels()
      requires Valid()
      modifies this`masterGain, this`busGains
      ensures Valid()
      ensures !hasContext ==> masterGain == old(masterGain) && busGains == old(busGains)
      ensures hasContext ==>
                masterGain == Some(Ramp(busLevels[Master], 0.2)) &&
                busGains == map b | b in AllBuses() :: Ramp(busLevels[Named(b)], 0.1)
    {
      if hasContext {
        masterGain := Some(Ramp(busLevels[Master], 0.2));
        var gains := busGains;
        var i := 0;
        while i < |BusNames|
          invariant 0 <= i <= |BusNames|
          invariant gains.Keys == AllBuses()
          invariant forall b :: b in BusNames[..i] ==> gains[b] == Ramp(busLevels[Named(b)], 0.1)
        {
          var name := BusNames[i];
          var level := if Named(name) in busLevels then busLevels[Named(name)] else 0.8;
          gains := gains[name := Ramp(level, 0.1)];
          i := i + 1;
        }
        assert BusNames[..i] == BusNames;
        forall b | b in AllBuses()
          ensures gains[b] == Ramp(busLevels[Named(b)], 0.1)
        {
          assert b in BusNames;
        }
        busGains := gains;
      }
    }

    /** `setBusLevel`: stores the level clamped to [0, 1] under any name; only
        the master and the five buses also get a 0.1 s ramp to it. */
    method SetBusLevel(name: string, value: real)
      requires Valid()
      modifies this`busLevels, this`masterGain, this`busGains
      ensures Valid()
      ensures busLevels == old(busLevels)[ChannelOf(name) := Clamp01(value)]
      ensures masterGain == if name == "master" && hasContext then Some(Ramp(Clamp01(value), 0.1)) else old(masterGain)
      ensures busGains ==
                if ChannelOf(name).Named? && hasContext then old(busGains)[ChannelOf(name).bus := Ramp(Clamp01(value), 0.1)]
                else old(busGains)
    {
      var clamped := Clamp01(value);
      var channel := ChannelOf(name);
      busLevels := busLevels[channel := clamped];
      if channel == Master {
        if hasContext {
          masterGain := Some(Ramp(clamped, 0.1));
        }
      } else if channel.Named? && channel.bus in busGains {
        busGains := busGains[channel.bus := Ramp(clamped, 0.1)];
      }
    }

    /** `setEffectBusLevel`: an effect's override, clamped to [0, 1]; other
        names are ignored. */
    method SetEffectBusLevel(effect: string, value: real)
      requires Valid()
      modifies this`effectLevelOverrides
      ensures Valid()
      ensures effectLevelOverrides ==
                if ParseEffect(effect).Some? then old(effectLevelOverrides)[ParseEffect(effect).value := Clamp01(value)]
                else old(effectLevelOverrides)
    {
      var e := ParseEffect(effect);
      if e.None? {
        return;
      }
      effectLevelOverrides := effectLevelOverrides[e.value := Max(0.0, Min(1.0, value))];
    }

    /** `beginFrame`: every effect's influence back to 0. */
    method BeginFrame()
      requires Valid()
      modifies this`effectInfluence
      ensures Valid()
      ensures effectInfluence == EveryEffect(0.0)
    {
      var influence := ZeroEach(effectInfluence);
      effectInfluence := influence;
    }

    /** `accumulateConnectorInfluence`: while audio is enabled, the effect's
        influence becomes the larger of itself and the value; a name that is no
        effect counts as flange. */
    method AccumulateConnectorInfluence(value: real, effectType: string)
      requires Valid()
      modifies this`effectInfluence
      ensures Valid()
      ensures !audioEnabled ==> effectInfluence == old(effectInfluence)
      ensures audioEnabled ==>
                var e := ParseEffect(effectType).GetOr(Flange);
                effectInfluence == old(effectInfluence)[e := Max(old(effectInfluence)[e], value)]
    {
      if !audioEnabled {
        return;
      }
      var parsed := ParseEffect(effectType);
      var e := if parsed.Some? then parsed.value else Flange;
      effectInfluence := effectInfluence[e := Max(effectInfluence[e], value)];
    }

    /** `applyConnectorEffects`: while audio is enabled, each effect chain's
        wet gain ramps over 0.05 s to the effect's level times the chain's own
        scale. */
    method ApplyConnectorEffects()
      requires Valid()
      modifies this`wetGains
      ensures Valid()
      ensures !audioEnabled ==> wetGains == old(wetGains)
      ensures audioEnabled ==>
                wetGains == map e | e in AllEffects() ::
                  Ramp(WetTarget(e, effectInfluence[e], maxEffectLevel, effectLevelOverrides[e]), 0.05)
    {
      if audioEnabled {
        var gains := wetGains;
        var i := 0;
        while i < |EffectTypes|
          invariant 0 <= i <= |EffectTypes|
          invariant gains.Keys == AllEffects()
          invariant forall e :: e in EffectTypes[..i] ==>
                      gains[e] == Ramp(WetTarget(e, effectInfluence[e], maxEffectLevel, effectLevelOverrides[e]), 0.05)
        {
          var e := EffectTypes[i];
          gains := gains[e := Ramp(WetTarget(e, effectInfluence[e], maxEffectLevel, effectLevelOverrides[e]), 0.05)];
          i := i + 1;
        }
        assert EffectTypes[..i] == EffectTypes;
        forall e | e in AllEffects()
          ensures gains[e] == Ramp(WetTarget(e, effectInfluence[e], maxEffectLevel, effectLevelOverrides[e]), 0.05)
        {
          assert e in EffectTypes;
        }
        wetGains := gains;
      }
    }

    /** `getBusGain`: the group's bus, or the context's output. */
    function RouteFor(group: Bus): Route
      reads this
    {
      if group in busGains then ToBus(group) else Destination
    }

    /** `playSample`: a loaded sample starts once on its group's bus at the
        given velocity, 0.8 by default. */
    method PlaySample(path: string, group: Bus, velocity: Option<real>)
      requires Valid()
      modifies this`schedule
      ensures Valid()
      ensures schedule ==
                if path in buffers && hasContext then old(schedule) + [OneShot(path, RouteFor(group), velocity.GetOr(DefaultVelocity))]
                else old(schedule)
    {
      if path !in buffers || !hasContext {
        return;
      }
      var v := if velocity.Some? then velocity.value else DefaultVelocity;
      schedule := schedule + [OneShot(path, RouteFor(group), v)];
    }

    /** `getOrCreateAssignment`. */
    method GetOrCreateAssignment(s: ShapeId) returns (a: Assignment)
      requires Valid()
      modifies this`sampleAssignments
      ensures Valid()
      ensures a == AssignmentOf(old(sampleAssignments), s)
      ensures sampleAssignments == old(sampleAssignments)[s := a]
    {
      if s !in sampleAssignments {
        sampleAssignments := sampleAssignments[s := Assignment(None, map[], None)];
      }
      a := sampleAssignments[s];
    }

    /** `getWaveformForShape`. */
    method GetWaveformForShape(shape: Option<ShapeId>, u: real) returns (w: Waveform)
      requires Valid() && 0.0 <= u < 1.0
      modifies this`sampleAssignments
      ensures Valid()
      ensures w == ChooseWaveform(old(sampleAssignments), shape, u)
      ensures sampleAssignments == AfterWaveform(old(sampleAssignments), shape, u)
    {
      if shape.None? {
        w := Sine;
      } else {
        // `getOrCreateAssignment` and the pick, as one update of the table
        var a := AssignmentOf(sampleAssignments, shape.value);
        if a.waveform.None? {
          a := a.(waveform := Some(Waveforms[Pick(|Waveforms|, u)]));
        }
        TableUpdate(sampleAssignments, nextNode, shape.value, a);
        sampleAssignments := sampleAssignments[shape.value := a];
        w := a.waveform.value;
      }
    }

    /** `getSampleForShape`. */
    method GetSampleForShape(shape: Option<ShapeId>, group: Bus, u: real) returns (path: Option<string>)
      requires Valid() && 0.0 <= u < 1.0
      modifies this`sampleAssignments
      ensures Valid()
      ensures path == ChooseSample(samplePools, old(sampleAssignments), shape, group, u)
      ensures sampleAssignments == AfterSample(samplePools, old(sampleAssignments), shape, group, u)
    {
      var pool := PoolFor(samplePools, group);
      if |pool| == 0 || shape.None? {
        path := if |pool| == 0 then None else Some(pool[Pick(|pool|, u)]);
      } else {
        // `getOrCreateAssignment` and the pick, as one update of the table
        var a := AssignmentOf(sampleAssignments, shape.value);
        var chosen := if group in a.samples then a.samples[group] else pool[Pick(|pool|, u)];
        a := a.(samples := a.samples[group := chosen]);
        TableUpdate(sampleAssignments, nextNode, shape.value, a);
        sampleAssignments := sampleAssignments[shape.value := a];
        path := Some(chosen);
      }
    }

    /** `triggerPercussion`: while audio is enabled, plays the shape's sample
        for the group, if the group has one and it is loaded. */
    method TriggerPercussion(group: Bus, shape: Option<ShapeId>, velocity: Option<real>, u: real)
      requires Valid() && 0.0 <= u < 1.0
      modifies this`sampleAssignments, this`schedule
      ensures Valid() && Struck(group, shape, velocity, u)
    {
      if !audioEnabled || !hasContext {
        return;
      }
      var samplePath := GetSampleForShape(shape, group, u);
      if samplePath.None? {
        return;
      }
      PlaySample(samplePath.value, group, velocity);
    }

    /** What `triggerPercussion` does between two states: nothing while audio
        is off; otherwise the shape keeps (or is given) its sample for the group,
        and that sample, when decoded, starts once on the group's bus. */
    twostate predicate Struck(group: Bus, shape: Option<ShapeId>, velocity: Option<real>, u: real)
      reads this
    {
      Sfx in samplePools && 0.0 <= u < 1.0 &&
      (!audioEnabled ==> sampleAssignments == old(sampleAssignments) && schedule == old(schedule)) &&
      (audioEnabled ==>
         var p := ChooseSample(samplePools, old(sampleAssignments), shape, group, u);
         sampleAssignments == AfterSample(samplePools, old(sampleAssignments), shape, group, u) &&
         schedule == if p.Some? && p.value in buffers then old(schedule) + [OneShot(p.value, RouteFor(group), velocity.GetOr(DefaultVelocity))]
                     else old(schedule))
    }

    /** `startVoice`: a new oscillator, started at gain 0 on the shape's
        waveform, playing a scale note in the octave of the hue; it becomes the
        shape's voice. */
    method StartVoice(s: ShapeId, hue: Option<real>, shapeType: string, uWave: real, uNote: real) returns (voice: Option<Voice>)
      requires Valid() && 0.0 <= uWave < 1.0 && 0.0 <= uNote < 1.0
      modifies this`sampleAssignments, this`nextNode, this`schedule
      ensures Valid()
      ensures !hasContext ==> voice == None && sampleAssignments == old(sampleAssignments) &&
                              nextNode == old(nextNode) && schedule == old(schedule)
      ensures hasContext ==>
                voice == Some(Voice(old(nextNode), Ramp(0.0, 0.0), ChooseWaveform(old(sampleAssignments), Some(s), uWave),
                                    MidiFromScale(scale, MapHueToOctave(hue), uNote),
                                    if shapeType == "" then "unknown" else shapeType)) &&
                nextNode == old(nextNode) + 1 && schedule == old(schedule) + [Start(old(nextNode))] &&
                sampleAssignments == WithVoice(AfterWaveform(old(sampleAssignments), Some(s), uWave), s, voice)
    {
      if !hasContext {
        return None;
      }
      var oscillator := StartNode();
      var waveform := GetWaveformForShape(Some(s), uWave);
      var octave := MapHueToOctave(hue);
      var midi := MidiFromScale(scale, octave, uNote);
      var v := Voice(oscillator, Ramp(0.0, 0.0), waveform, midi, if shapeType == "" then "unknown" else shapeType);
      AttachVoice(s, v);
      voice := Some(v);
    }

    /** A new source node, started at once. */
    method StartNode() returns (node: nat)
      requires Valid()
      modifies this`nextNode, this`schedule
      ensures Valid()
      ensures node == old(nextNode) && nextNode == node + 1 && schedule == old(schedule) + [Start(node)]
    {
      node := nextNode;
      TableGrow(sampleAssignments, nextNode, nextNode + 1);
      nextNode := nextNode + 1;
      schedule := schedule + [Start(node)];
    }

    /** The voice recorded in the shape's entry, which already holds the
        voice's waveform. */
    method AttachVoice(s: ShapeId, v: Voice)
      requires Valid() && AssignmentOf(sampleAssignments, s).waveform == Some(v.waveform) && v.oscillator < nextNode
      modifies this`sampleAssignments
      ensures Valid()
      ensures sampleAssignments == WithVoice(old(sampleAssignments), s, Some(v))
    {
      var a := AssignmentOf(sampleAssignments, s).(voice := Some(v));
      TableUpdate(sampleAssignments, nextNode, s, a);
      sampleAssignments := sampleAssignments[s := a];
    }

    /** `stopVoice`: a sounding voice fades to near silence over 0.08 s, stops
        after 0.12 s and is forgotten; the shape keeps its waveform and samples.
        Without a voice nothing happens. */
    method StopVoice(s: ShapeId)
      requires Valid()
      modifies this`sampleAssignments, this`schedule
      ensures Valid()
      ensures !hasContext || VoiceOf(old(sampleAssignments), s).None? ==>
                sampleAssignments == old(sampleAssignments) && schedule == old(schedule)
      ensures hasContext && VoiceOf(old(sampleAssignments), s).Some? ==>
                sampleAssignments == WithVoice(old(sampleAssignments), s, None) &&
                schedule == old(schedule) + [Stop(VoiceOf(old(sampleAssignments), s).value.oscillator, Ramp(FadeFloor, 0.08), 0.12)]
    {
      if !hasContext || s !in sampleAssignments {
        return;
      }
      var a := sampleAssignments[s];
      if a.voice.None? {
        return;
      }
      schedule := schedule + [Stop(a.voice.value.oscillator, Ramp(FadeFloor, 0.08), 0.12)];
      sampleAssignments := sampleAssignments[s := a.(voice := None)];
    }

    /** `setVoiceGain`: the shape's voice ramps to the value over 0.05 s. */
    method SetVoiceGain(s: ShapeId, value: real)
      requires Valid()
      modifies this`sampleAssignments
      ensures Valid()
      ensures !hasContext || VoiceOf(old(sampleAssignments), s).None? ==> sampleAssignments == old(sampleAssignments)
      ensures hasContext && VoiceOf(old(sampleAssignments), s).Some? ==>
                sampleAssignments == WithVoice(old(sampleAssignments), s, Some(VoiceOf(old(sampleAssignments), s).value.(gain := Ramp(value, 0.05))))
    {
      if !hasContext || s !in sampleAssignments || sampleAssignments[s].voice.None? {
        return;
      }
      var a := sampleAssignments[s];
      sampleAssignments := sampleAssignments[s := a.(voice := Some(a.voice.value.(gain := Ramp(value, 0.05))))];
    }

    /** `updateShapeTone`: while audio is enabled, no influence stops the
        shape's voice; positive influence starts a voice only when the shape
        has none, then sets its gain to the influence's volume. */
    method UpdateShapeTone(s: ShapeId, influence: real, hue: Option<real>, shapeType: string, uWave: real, uNote: real)
      requires Valid() && 0.0 <= uWave < 1.0 && 0.0 <= uNote < 1.0
      modifies this`sampleAssignments, this`nextNode, this`schedule
      ensures Valid()
      ensures !audioEnabled ==>
                sampleAssignments == old(sampleAssignments) && nextNode == old(nextNode) && schedule == old(schedule)
      ensures audioEnabled && influence <= 0.0 ==> VoiceOf(sampleAssignments, s).None? && nextNode == old(nextNode)
      ensures audioEnabled && influence <= 0.0 && VoiceOf(old(sampleAssignments), s).None? ==>
                sampleAssignments == old(sampleAssignments) && schedule == old(schedule)
      ensures audioEnabled && influence <= 0.0 && VoiceOf(old(sampleAssignments), s).Some? ==>
                sampleAssignments == WithVoice(old(sampleAssignments), s, None) &&
                schedule == old(schedule) + [Stop(VoiceOf(old(sampleAssignments), s).value.oscillator, Ramp(FadeFloor, 0.08), 0.12)]
      ensures audioEnabled && influence > 0.0 ==>
                VoiceOf(sampleAssignments, s).Some? &&
                VoiceOf(sampleAssignments, s).value.gain == Ramp(VolumeFromInfluence(gainCurve, influence), 0.05)
      ensures audioEnabled && influence > 0.0 && VoiceOf(old(sampleAssignments), s).Some? ==>
                VoiceOf(sampleAssignments, s).value ==
                  VoiceOf(old(sampleAssignments), s).value.(gain := Ramp(VolumeFromInfluence(gainCurve, influence), 0.05)) &&
                nextNode == old(nextNode) && schedule == old(schedule)
      ensures audioEnabled && influence > 0.0 && VoiceOf(old(sampleAssignments), s).None? ==>
                VoiceOf(sampleAssignments, s).value.oscillator == old(nextNode) &&
                VoiceOf(sampleAssignments, s).value.waveform == ChooseWaveform(old(sampleAssignments), Some(s), uWave) &&
                nextNode == old(nextNode) + 1 && schedule == old(schedule) + [Start(old(nextNode))]
      ensures audioEnabled && influence > 0.0 && VoiceOf(old(sampleAssignments), s).Some? ==>
                sampleAssignments ==
                  WithVoice(old(sampleAssignments), s,
                            Some(VoiceOf(old(sampleAssignments), s).value.(gain := Ramp(VolumeFromInfluence(gainCurve, influence), 0.05))))
      ensures audioEnabled && influence > 0.0 && VoiceOf(old(sampleAssignments), s).None? ==>
                sampleAssignments ==
                  WithVoice(AfterWaveform(old(sampleAssignments), Some(s), uWave), s,
                            Some(Voice(old(nextNode), Ramp(VolumeFromInfluence(gainCurve, influence), 0.05),
                                       ChooseWaveform(old(sampleAssignments), Some(s), uWave),
                                       MidiFromScale(scale, MapHueToOctave(hue), uNote),
                                       if shapeType == "" then "unknown" else shapeType)))
      ensures forall o :: o != s ==> AssignmentOf(sampleAssignments, o) == AssignmentOf(old(sampleAssignments), o)
    {
      if hasContext && audioEnabled {
        if influence <= 0.0 {
          StopVoice(s);
        } else {
          SoundVoice(s, influence, hue, shapeType, uWave, uNote);
        }
      }
    }

    /** The positive-influence half of `updateShapeTone`: the shape's voice,
        started if it has none, ramps to the influence's volume. */
    method SoundVoice(s: ShapeId, influence: real, hue: Option<real>, shapeType: string, uWave: real, uNote: real)
      requires Valid() && hasContext && 0.0 <= uWave < 1.0 && 0.0 <= uNote < 1.0
      modifies this`sampleAssignments, this`nextNode, this`schedule
      ensures Valid()
      ensures VoiceOf(sampleAssignments, s).Some? &&
              VoiceOf(sampleAssignments, s).value.gain == Ramp(VolumeFromInfluence(gainCurve, influence), 0.05)
      ensures VoiceOf(old(sampleAssignments), s).Some? ==>
                VoiceOf(sampleAssignments, s).value ==
                  VoiceOf(old(sampleAssignments), s).value.(gain := Ramp(VolumeFromInfluence(gainCurve, influence), 0.05)) &&
                nextNode == old(nextNode) && schedule == old(schedule)
      ensures VoiceOf(old(sampleAssignments), s).None? ==>
                VoiceOf(sampleAssignments, s).value.oscillator == old(nextNode) &&
                VoiceOf(sampleAssignments, s).value.waveform == ChooseWaveform(old(sampleAssignments), Some(s), uWave) &&
                nextNode == old(nextNode) + 1 && schedule == old(schedule) + [Start(old(nextNode))]
      ensures VoiceOf(old(sampleAssignments), s).Some? ==>
                sampleAssignments ==
                  WithVoice(old(sampleAssignments), s,
                            Some(VoiceOf(old(sampleAssignments), s).value.(gain := Ramp(VolumeFromInfluence(gainCurve, influence), 0.05))))
      ensures VoiceOf(old(sampleAssignments), s).None? ==>
                sampleAssignments ==
                  WithVoice(AfterWaveform(old(sampleAssignments), Some(s), uWave), s,
                            Some(Voice(old(nextNode), Ramp(VolumeFromInfluence(gainCurve, influence), 0.05),
                                       ChooseWaveform(old(sampleAssignments), Some(s), uWave),
                                       MidiFromScale(scale, MapHueToOctave(hue), uNote),
                                       if shapeType == "" then "unknown" else shapeType)))
      ensures forall o :: o != s ==> AssignmentOf(sampleAssignments, o) == AssignmentOf(old(sampleAssignments), o)
    {
      if VoiceOf(sampleAssignments, s).None? {
        var _ := StartVoice(s, hue, shapeType, uWave, uNote);
      }
      var gainValue := VolumeFromInfluence(gainCurve, influence);
      SetVoiceGain(s, gainValue);
    }

    /** `startSpecialLoop`: the shape's sfx sample, when it has one and it is
        loaded, starts looping at gain 0 and is recorded as the shape's loop. */
    method StartSpecialLoop(s: ShapeId, u: real) returns (loop: Option<Loop>)
      requires Valid() && hasContext && 0.0 <= u < 1.0
      modifies this`sampleAssignments, this`specialLoops, this`nextNode, this`schedule
      ensures Valid()
      ensures sampleAssignments == AfterSample(samplePools, old(sampleAssignments), Some(s), Sfx, u)
      ensures var p := ChooseSample(samplePools, old(sampleAssignments), Some(s), Sfx, u);
              if p.Some? && p.value in buffers then
                loop == Some(Loop(old(nextNode), Ramp(0.0, 0.0), p.value)) &&
                specialLoops == old(specialLoops)[s := loop.value] &&
                nextNode == old(nextNode) + 1 && schedule == old(schedule) + [Start(old(nextNode))]
              else
                loop == None && specialLoops == old(specialLoops) &&
                nextNode == old(nextNode) && schedule == old(schedule)
    {
      var samplePath := GetSampleForShape(Some(s), Sfx, u);
      if samplePath.None? || samplePath.value !in buffers {
        return None;
      }
      var source := StartNode();
      loop := Some(Loop(source, Ramp(0.0, 0.0), samplePath.value));
      specialLoops := specialLoops[s := loop.value];
    }

    /** `stopSpecialLoop`: a running loop fades over 0.1 s, stops after 0.12 s
        and is forgotten; without one nothing happens. */
    method StopSpecialLoop(shape: Option<ShapeId>)
      requires Valid()
      modifies this`specialLoops, this`schedule
      ensures Valid() && nextNode == old(nextNode) && sampleAssignments == old(sampleAssignments)
      ensures shape.None? || shape.value !in old(specialLoops) ==>
                specialLoops == old(specialLoops) && schedule == old(schedule)
      ensures shape.Some? && shape.value in old(specialLoops) ==>
                specialLoops == old(specialLoops) - {shape.value} &&
                schedule == old(schedule) + [Stop(old(specialLoops)[shape.value].source, Ramp(FadeFloor, 0.1), 0.12)]
    {
      if shape.None? {
        return;
      }
      var s := shape.value;
      if s !in specialLoops || !hasContext {
        return;
      }
      var loop := specialLoops[s];
      schedule := schedule + [Stop(loop.source, Ramp(FadeFloor, 0.1), 0.12)];
      specialLoops := specialLoops - {s};
    }

    /** `setLoopGain`: the shape's loop ramps to the value over 0.05 s. */
    method SetLoopGain(s: ShapeId, value: real)
      requires Valid()
      modifies this`specialLoops
      ensures Valid()
      ensures specialLoops ==
                if s in old(specialLoops) then old(specialLoops)[s := old(specialLoops)[s].(gain := Ramp(value, 0.05))]
                else old(specialLoops)
    {
      if s !in specialLoops || !hasContext {
        return;
      }
      specialLoops := specialLoops[s := specialLoops[s].(gain := Ramp(value, 0.05))];
    }

    /** `updateSpecialLoop`: with audio off, no shape or no influence the loop
        stops; otherwise a loop is started only when the shape has none, and its
        gain follows the influence's volume. */
    method UpdateSpecialLoop(shape: Option<ShapeId>, influence: real, u: real)
      requires Valid() && 0.0 <= u < 1.0
      modifies this`sampleAssignments, this`specialLoops, this`nextNode, this`schedule
      ensures Valid()
      ensures !audioEnabled || shape.None? || influence <= 0.0 ==>
                nextNode == old(nextNode) && sampleAssignments == old(sampleAssignments) &&
                (shape.None? || shape.value !in old(specialLoops) ==>
                   specialLoops == old(specialLoops) && schedule == old(schedule)) &&
                (shape.Some? && shape.value in old(specialLoops) ==>
                   specialLoops == old(specialLoops) - {shape.value} &&
                   schedule == old(schedule) + [Stop(old(specialLoops)[shape.value].source, Ramp(FadeFloor, 0.1), 0.12)])
      ensures audioEnabled && shape.Some? && influence > 0.0 && shape.value in old(specialLoops) ==>
                specialLoops == old(specialLoops)[shape.value := old(specialLoops)[shape.value].(gain := Ramp(VolumeFromInfluence(gainCurve, influence), 0.05))] &&
                nextNode == old(nextNode) && schedule == old(schedule) && sampleAssignments == old(sampleAssignments)
      ensures audioEnabled && shape.Some? && influence > 0.0 && shape.value !in old(specialLoops) ==>
                var p := ChooseSample(samplePools, old(sampleAssignments), shape, Sfx, u);
                sampleAssignments == AfterSample(samplePools, old(sampleAssignments), shape, Sfx, u) &&
                (shape.value in specialLoops <==> p.Some? && p.value in buffers) &&
                (shape.value in specialLoops ==>
                   specialLoops == old(specialLoops)[shape.value := Loop(old(nextNode), Ramp(VolumeFromInfluence(gainCurve, influence), 0.05), p.value)] &&
                   nextNode == old(nextNode) + 1 && schedule == old(schedule) + [Start(old(nextNode))]) &&
                (shape.value !in specialLoops ==>
                   specialLoops == old(specialLoops) && nextNode == old(nextNode) && schedule == old(schedule))
    {
      if !audioEnabled || !hasContext || shape.None? || influence <= 0.0 {
        StopSpecialLoop(shape);
      } else {
        assert shape == Some(shape.value);
        SoundLoop(shape.value, influence, u);
      }
    }

    /** The sounding branch of `updateSpecialLoop`: the shape's loop, started
        first when it has none, ramps to the volume for the influence. */
    method SoundLoop(s: ShapeId, influence: real, u: real)
      requires Valid() && hasContext && 0.0 <= u < 1.0
      modifies this`sampleAssignments, this`specialLoops, this`nextNode, this`schedule
      ensures Valid()
      ensures s in old(specialLoops) ==>
                specialLoops == old(specialLoops)[s := old(specialLoops)[s].(gain := Ramp(VolumeFromInfluence(gainCurve, influence), 0.05))] &&
                nextNode == old(nextNode) && schedule == old(schedule) && sampleAssignments == old(sampleAssignments)
      ensures s !in old(specialLoops) ==>
                var p := ChooseSample(samplePools, old(sampleAssignments), Some(s), Sfx, u);
                sampleAssignments == AfterSample(samplePools, old(sampleAssignments), Some(s), Sfx, u) &&
                (s in specialLoops <==> p.Some? && p.value in buffers) &&
                (s in specialLoops ==>
                   specialLoops == old(specialLoops)[s := Loop(old(nextNode), Ramp(VolumeFromInfluence(gainCurve, influence), 0.05), p.value)] &&
                   nextNode == old(nextNode) + 1 && schedule == old(schedule) + [Start(old(nextNode))]) &&
                (s !in specialLoops ==>
                   specialLoops == old(specialLoops) && nextNode == old(nextNode) && schedule == old(schedule))
    {
      var gainValue := VolumeFromInfluence(gainCurve, influence);
      if s in specialLoops {
        SetLoopGain(s, gainValue);
      } else {
        var loop := StartSpecialLoop(s, u);
        if loop.Some? {
          SetLoopGain(s, gainValue);
        }
      }
    }

    /** `getSpecialLoopLevel`: the loop's gain clamped to [0, 1], 0 without a
        loop. */
    function GetSpecialLoopLevel(s: ShapeId): (level: real)
      reads this
      ensures 0.0 <= level <= 1.0
      ensures s !in specialLoops ==> level == 0.0
    {
      if s in specialLoops then Clamp01(specialLoops[s].gain.target) else 0.0
    }
  }
}
