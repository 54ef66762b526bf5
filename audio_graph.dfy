/** The values the audio manager (abstract-wheels/audio.js) keeps in its
    tables, and what makes each table well formed. */
module AudioGraph {
  import opened Util

  datatype Effect = Flange | Reverb | Delay | Phaser
  datatype Bus = Synth | Kick | Snare | Hihat | Sfx
  datatype Waveform = Sine | Square | Triangle | Sawtooth

  function AllEffects(): set<Effect>
  {
    {Flange, Reverb, Delay, Phaser}
  }

  function AllBuses(): set<Bus>
  {
    {Synth, Kick, Snare, Hihat, Sfx}
  }

  /** The groups that have a sample pool; synth has none. */
  function PoolBuses(): set<Bus>
  {
    {Sfx, Kick, Snare, Hihat}
  }

  /** A key of the bus-level table: the master, one of the five buses, or any
      other name a caller stores a level under. */
  datatype Channel = Master | Named(bus: Bus) | Unlisted(name: string)

  /** The last value scheduled on a gain node: set outright (0 seconds) or a
      linear ramp reaching `target` after `seconds`. */
  datatype Ramp = Ramp(target: real, seconds: real)

  /** Where a one-shot sample is connected: a bus or the context's output. */
  datatype Route = ToBus(bus: Bus) | Destination

  datatype Event =
    | Start(node: nat)
    | Stop(node: nat, fade: Ramp, after: real)
    | OneShot(path: string, route: Route, velocity: real)

  datatype Voice = Voice(oscillator: nat, gain: Ramp, waveform: Waveform, midi: int, shapeType: string)

  datatype Loop = Loop(source: nat, gain: Ramp, samplePath: string)

  /** A shape's side-table entry: the waveform and per-group samples chosen for
      it, and its voice while one sounds. */
  datatype Assignment = Assignment(waveform: Option<Waveform>, samples: map<Bus, string>, voice: Option<Voice>)

  /** A side-table entry as the manager keeps it: a voice plays the entry's
      waveform on an oscillator already created. */
  ghost predicate EntryFits(a: Assignment, nodes: nat)
  {
    a.voice.Some? ==> a.waveform == Some(a.voice.value.waveform) && a.voice.value.oscillator < nodes
  }

  ghost predicate TableFits(table: map<ShapeId, Assignment>, nodes: nat)
  {
    forall s :: s in table ==> EntryFits(table[s], nodes)
  }

  lemma TableUpdate(table: map<ShapeId, Assignment>, nodes: nat, s: ShapeId, a: Assignment)
    requires TableFits(table, nodes) && EntryFits(a, nodes)
    ensures TableFits(table[s := a], nodes)
  {
  }

  lemma TableGrow(table: map<ShapeId, Assignment>, nodes: nat, more: nat)
    requires TableFits(table, nodes) && nodes <= more
    ensures TableFits(table, more)
  {
  }

  /** A loop plays a loaded sample on a source already created. */
  ghost predicate LoopsFit(loops: map<ShapeId, Loop>, nodes: nat, buffers: set<string>)
  {
    forall s :: s in loops ==> loops[s].source < nodes && loops[s].samplePath in buffers
  }

  /** Every bus has a level in [0, 1], and the gain nodes exist exactly when
      there is a context. */
  ghost predicate BusesFit(busLevels: map<Channel, real>, masterGain: Option<Ramp>, busGains: map<Bus, Ramp>, hasContext: bool)
  {
    Master in busLevels && (forall b :: b in AllBuses() ==> Named(b) in busLevels) &&
    (forall c :: c in busLevels ==> 0.0 <= busLevels[c] <= 1.0) &&
    (masterGain.Some? <==> hasContext) &&
    busGains.Keys == (if hasContext then AllBuses() else {})
  }

  /** Every effect has a non-negative influence and an override in [0, 1];
      the chains exist exactly when there is a context. */
  ghost predicate EffectsFit(influence: map<Effect, real>, overrides: map<Effect, real>, wetGains: map<Effect, Ramp>, hasContext: bool)
  {
    influence.Keys == AllEffects() &&
    (forall e :: e in influence ==> 0.0 <= influence[e]) &&
    overrides.Keys == AllEffects() &&
    (forall e :: e in overrides ==> 0.0 <= overrides[e] <= 1.0) &&
    wetGains.Keys == (if hasContext then AllEffects() else {})
  }
}
