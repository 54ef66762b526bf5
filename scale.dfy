/** The tonal arithmetic of the audio manager (abstract-wheels/audio.js): the
    scale chosen once per page load, MIDI notes drawn from it, and the octave a
    shape's hue selects. `Math.random()` draws are parameters in [0, 1). */
module Scale {
  import opened Util

  datatype ScaleKind = Major | Minor

  /** Semitone steps of the two patterns. */
  function Pattern(kind: ScaleKind): (steps: seq<nat>)
    ensures |steps| == 7 && steps[0] == 0
    ensures forall i, j :: 0 <= i < j < 7 ==> steps[i] < steps[j] < 12
  {
    match kind
    case Major => [0, 2, 4, 5, 7, 9, 11]
    case Minor => [0, 2, 3, 5, 7, 8, 10]
  }

  function KindName(kind: ScaleKind): string
  {
    match kind
    case Major => "major"
    case Minor => "minor"
  }

  const NoteNames: seq<string> := ["C", "C#", "D", "D#", "E", "F", "F#", "G", "G#", "A", "A#", "B"]

  datatype ScaleDef = ScaleDef(kind: ScaleKind, root: nat, semitones: seq<nat>, name: string)

  /** A scale as `generateScaleDefinition` builds it: seven pitch classes, each
      the root shifted by a step of the pattern, modulo 12. */
  ghost predicate IsScale(s: ScaleDef)
  {
    s.root < 12 && |s.semitones| == 7 &&
    (forall i :: 0 <= i < 7 ==> s.semitones[i] == (s.root + Pattern(s.kind)[i]) % 12)
  }

  /** `generateScaleDefinition` for the draws uKind (major below 0.5) and uRoot
      (root `floor(uRoot * 12)`). */
  function GenerateScale(uKind: real, uRoot: real): (s: ScaleDef)
    requires 0.0 <= uKind < 1.0 && 0.0 <= uRoot < 1.0
    ensures IsScale(s)
    ensures s.kind == (if uKind < 0.5 then Major else Minor)
    ensures s.root == (uRoot * 12.0).Floor
    ensures s.name == NoteNames[s.root] + " " + KindName(s.kind)
  {
    var kind := if uKind < 0.5 then Major else Minor;
    var root := Pick(12, uRoot);
    var steps := Pattern(kind);
    ScaleDef(kind, root, seq(7, i requires 0 <= i < 7 => (root + steps[i]) % 12), NoteNames[root] + " " + KindName(kind))
  }

  /** A scale holds seven different pitch classes, the first of them its root. */
  lemma {:induction false} ScaleDistinct(s: ScaleDef)
    requires IsScale(s)
    ensures s.semitones[0] == s.root
    ensures forall i :: 0 <= i < 7 ==> s.semitones[i] < 12
    ensures forall i, j :: 0 <= i < j < 7 ==> s.semitones[i] != s.semitones[j]
  {
    var steps := Pattern(s.kind);
    forall i, j | 0 <= i < j < 7
      ensures s.semitones[i] != s.semitones[j]
    {
      assert steps[i] < steps[j] < 12;
      ModDistinct(s.root, steps[i], steps[j]);
    }
  }

  /** Two different steps below 12 land on different pitch classes. */
  lemma ModDistinct(root: nat, a: nat, b: nat)
    requires root < 12 && a < b < 12
    ensures (root + a) % 12 != (root + b) % 12
  {
    if root + a < 12 && root + b >= 12 {
      assert (root + b) % 12 == root + b - 12;
    } else if root + a >= 12 {
      assert (root + a) % 12 == root + a - 12;
      assert (root + b) % 12 == root + b - 12;
    }
  }

  /** `randomMidiFromScale`: the note `12 * (octave + 1) + s` for the scale
      degree s the draw u picks; the note's pitch class is that degree and its
      MIDI octave is octave + 1. */
  function MidiFromScale(s: ScaleDef, octave: int, u: real): (midi: int)
    requires IsScale(s) && 0.0 <= u < 1.0
    ensures exists i :: 0 <= i < 7 && midi == 12 * (octave + 1) + s.semitones[i]
    ensures midi % 12 in s.semitones
    ensures midi / 12 == octave + 1
  {
    ScaleDistinct(s);
    var semitone := s.semitones[Pick(|s.semitones|, u)];
    12 * (octave + 1) + semitone
  }

  /** JavaScript's `a % 360` on numbers: a less the whole turns of its
      truncated quotient, so the remainder takes the sign of the dividend. */
  function Rem360(a: real): (r: real)
    ensures 0.0 <= a ==> 0.0 <= r < 360.0
    ensures a < 0.0 ==> -360.0 < r <= 0.0
    ensures r == a - 360.0 * TruncTurns(a) as real
  {
    var k := TruncTurns(a);
    FloorBounds(a / 360.0);
    FloorBounds(-a / 360.0);
    a - 360.0 * k as real
  }

  /** The quotient a / 360 truncated toward zero. */
  function TruncTurns(a: real): int
  {
    if a >= 0.0 then (a / 360.0).Floor else -((-a / 360.0).Floor)
  }

  lemma FloorBounds(x: real)
    ensures x.Floor as real <= x < x.Floor as real + 1.0
  {
  }

  /** The hue folded into [0, 360) the way `mapHueToOctave` does it: the hue
      less a whole number of turns. */
  function WrapHue(hue: real): (w: real)
    ensures 0.0 <= w < 360.0
    ensures w == hue - 360.0 * (hue / 360.0).Floor as real
  {
    var once := Rem360(hue);
    var w := Rem360(once + 360.0);
    TurnsUnique(hue, w, TruncTurns(hue) + TruncTurns(once + 360.0) - 1);
    w
  }

  /** Writing h as w plus whole turns, with w in [0, 360), fixes the turns. */
  lemma TurnsUnique(h: real, w: real, m: int)
    requires 0.0 <= w < 360.0 && h - w == 360.0 * m as real
    ensures w == h - 360.0 * (h / 360.0).Floor as real
  {
    var x := h / 360.0;
    var f := x.Floor;
    FloorBounds(x);
    assert 0.0 <= w / 360.0 < 1.0;
    assert x == m as real + w / 360.0;
    assert f as real < m as real + 1.0 && m as real < f as real + 1.0;
    assert f < m + 1 && m < f + 1;
    assert f == m;
  }

  /** `Math.round`: halves round up. */
  function Round(x: real): int
  {
    (x + 0.5).Floor
  }

  /** `mapHueToOctave`: None stands for a hue that is not a finite number. */
  function MapHueToOctave(hue: Option<real>): (octave: int)
    ensures 2 <= octave <= 6
    ensures hue.None? ==> octave == 4
  {
    match hue
    case None => 4
    case Some(h) =>
      var wrapped := WrapHue(h);
      Round(2.0 + (wrapped / 360.0) * (6.0 - 2.0))
  }

  /** Hues a full turn apart select the same octave. */
  lemma {:induction false} OctavePeriodic(h: real)
    ensures MapHueToOctave(Some(h + 360.0)) == MapHueToOctave(Some(h))
  {
    assert (h + 360.0) / 360.0 == h / 360.0 + 1.0;
    assert ((h + 360.0) / 360.0).Floor == (h / 360.0).Floor + 1;
  }

  /** Along one turn, a larger hue never selects a lower octave. */
  lemma {:induction false} OctaveMonotone(h1: real, h2: real)
    requires 0.0 <= h1 <= h2 < 360.0
    ensures MapHueToOctave(Some(h1)) <= MapHueToOctave(Some(h2))
  {
    assert (h1 / 360.0).Floor == 0 && (h2 / 360.0).Floor == 0;
    assert WrapHue(h1) == h1 && WrapHue(h2) == h2;
  }

  /** Reds (hue 0) sit in octave 2, hue 180 in octave 4, hue 315 rounds up to 6. */
  lemma OctaveExamples()
    ensures MapHueToOctave(Some(0.0)) == 2
    ensures MapHueToOctave(Some(180.0)) == 4
    ensures MapHueToOctave(Some(315.0)) == 6
    ensures MapHueToOctave(Some(-45.0)) == 6
  {
    assert (0.0 / 360.0).Floor == 0;
    assert (180.0 / 360.0).Floor == 0;
    assert (315.0 / 360.0).Floor == 0;
    assert (-45.0 / 360.0).Floor == -1;
  }
}
