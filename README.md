# Abstract Wheels: the audio control logic, modelled in Dafny

Abstract Wheels is a p5.js sketch. Wheels of concentric rings and the curved
connectors between them react to "listener thresholds": circular zones of
influence that the visitor drops with a click, plus a fading zone that
follows the mouse. This project models the logic that turns those
interactions into sound, and proves properties of it:

- the interaction manager (`events.js`): the listener zones, the mouse zone
  and its fade, the zone around a freshly placed listener that silences the
  mouse, the radius and the mouse-output switch, and the influence a point
  receives;
- the audio manager (`audio.js`): bus levels, the connector effect levels
  gathered once per frame, and the per-shape side tables. These tables pin a
  shape's waveform and samples once chosen, and hold its synth voice and
  sample loop;
- the rings and wheels (`ring.js`, `wheel.js`): the ring layout, the probes
  around a solid ring, and the edge-triggered percussion;
- the connectors (`connector.js`) and the frame (`sketch.js`, `draw`). Each
  connector walks its Bézier curve, takes the strongest influence, and feeds
  it into its effect. The effect levels are reset before the connectors are
  drawn and applied after.

The Web Audio graph becomes what the control logic decides. A gain node is
the last value scheduled on it: a `Ramp` holding the target and the ramp
time. Node starts, stops and one-shot plays are appended to a `schedule`.
Node handles come from a counter.

The browser's services become parameters:

- `Math.random()` is a draw `u` in [0, 1);
- `performance.now()` is `now`;
- `Math.hypot` is a function constrained to be the square root of the sum
  of squares;
- `Math.pow(x, 1.2)` is a gain curve that is monotone and fixes 0 and 1;
- sine and cosine are a `Trig` record;
- whether audio is enabled (`isAudioReady`) is the flag `ready`.

Two facts of the bus controls that the model keeps as the code has them:

- `setBusLevel` stores the clamped level under any name, including one
  that is no bus (audio.js:591-608);
- `setBusLevel` ramps the master over 0.1 s, while `applyBusLevels` ramps
  it over 0.2 s (audio.js:591-623).

Modules:

- `util.dfy` (module `Util`): Option, clamping, `randomChoice` as an index.
- `scale.dfy` (module `Scale`): scale patterns, the scale a session draws, notes and octaves.
- `samples.dfy` (module `Samples`): sample folders and `normalizeSamplePath`.
- `geometry.dfy` (module `Geometry`): points, distance, quadratic Bézier points.
- `thresholds.dfy` (module `Thresholds`): a zone's contribution, the peak influence, fades and interpolation.
- `interaction.dfy` (module `Interaction`): `InteractionManager`.
- `audio_graph.dfy` (module `AudioGraph`): the values of the audio manager's tables and their well-formedness.
- `audio.dfy` (module `Audio`): `AudioManager`.
- `percussion.dfy` (module `Percussion`): the edge detector behind every percussive shape.
- `walk.dfy` (module `Walks`): a walk over probe points against the manager's zones.
- `wheels.dfy` (module `Wheels`): `Ring`, `Wheel`.
- `connector.dfy` (module `Connectors`): `Connector`, its `display`, and what a frame records of the connectors.
- `sketch.dfy` (module `Sketch`): the connectors' part of `draw`.

## Model

| member | source | states |
|---|---|---|
| Util.Clamp | abstract-wheels/events.js:123-129 | The result lies in [lo, hi]. It is the value itself inside the range and the nearer bound outside. |
| Util.Pick | abstract-wheels/audio.js:402-406 | `randomChoice` as an index: floor(u * len) is a valid index of a non-empty list. |
| Scale.Pattern | abstract-wheels/audio.js:8-11 | Major and minor patterns have seven strictly increasing steps below 12, starting at 0. |
| Scale.GenerateScale | abstract-wheels/audio.js:375-382 | The drawn scale is well formed. It is major for u < 0.5, its root is floor(12u), and its name is the note name plus the kind. |
| Scale.ScaleDistinct | abstract-wheels/audio.js:375-382 | A scale's seven pitch classes start at the root, lie below 12 and are pairwise distinct. |
| Scale.MidiFromScale | abstract-wheels/audio.js:384-388 | The note is 12 * (octave + 1) plus one of the scale's pitch classes. Its pitch class is in the scale, and its octave is octave + 1. |
| Scale.Rem360 | abstract-wheels/audio.js:390-396 | JavaScript's `% 360` (truncating) keeps the sign of the hue and lies within 360 of zero. |
| Scale.WrapHue | abstract-wheels/audio.js:390-396 | `((hue % 360) + 360) % 360` lies in [0, 360) and equals hue minus a whole number of turns. |
| Scale.TurnsUnique | abstract-wheels/audio.js:390-396 | Only one value in [0, 360) differs from the hue by whole turns, so the wrap is the floored remainder. |
| Scale.MapHueToOctave | abstract-wheels/audio.js:390-396 | The octave lies in [2, 6]. It is 4 without a hue. |
| Scale.OctavePeriodic | abstract-wheels/audio.js:390-396 | Hues a full turn apart give the same octave. |
| Scale.OctaveMonotone | abstract-wheels/audio.js:390-396 | Within one turn a larger hue never gives a lower octave. |
| Scale.OctaveExamples | abstract-wheels/audio.js:390-396 | Hues 0, 180, 315 and -45 give octaves 2, 4, 6 and 6. |
| Samples.TrimSlash | abstract-wheels/audio.js:171-183 | One trailing slash of the folder is dropped; otherwise the folder is unchanged. |
| Samples.NormalizeSamplePath | abstract-wheels/audio.js:171-183 | An empty entry gives nothing. A URL or rooted path is kept as it is. Any other entry is joined to the folder with exactly one slash. |
| Samples.JoinedEndsWithEntry | abstract-wheels/audio.js:171-183 | A joined path ends with "/" followed by the entry. |
| Samples.NormalizeIdempotent | abstract-wheels/audio.js:171-183 | For the sketch's relative folders, normalizing an already normalized path changes nothing, whatever the folder. |
| Samples.SampleDirsRelative | abstract-wheels/audio.js:1-6 | Every sample group has a folder, and every folder starts with "../". |
| Geometry.DistanceFacts | abstract-wheels/events.js:546-548 | A distance is non-negative and its square is the sum of the squared differences. |
| Geometry.DistanceIsSquareRoot | abstract-wheels/events.js:546-548 | Any non-negative root of that sum is the distance. |
| Geometry.QuadraticPoint | abstract-wheels/connector.js:103-111 | The curve starts at p0 (t = 0) and ends at p2 (t = 1). |
| Geometry.QuadraticPointInHull | abstract-wheels/events.js:421-430 | For t in [0, 1] each coordinate stays between the least and greatest of the three control coordinates. |
| Geometry.BezierSamples | abstract-wheels/connector.js:89-101 | The 33 probes of a connector: probe i is the curve at t = i/32, from p0 to p2. |
| Thresholds.ContributionRange | abstract-wheels/events.js:595-603 | A zone's contribution lies in [0, intensity]. It is the full intensity at the centre and 0 beyond the radius. It never grows with distance. |
| Thresholds.Falloff | abstract-wheels/events.js:599 | `1 - dist / radius` lies in [0, 1] inside the radius and is 1 at the centre. |
| Thresholds.FalloffMonotone | abstract-wheels/events.js:599 | The falloff never grows with distance. |
| Thresholds.Peak | abstract-wheels/events.js:592-607 | The peak over the zones is never negative. |
| Thresholds.PeakIsMaximum | abstract-wheels/events.js:592-607 | The running best is at least every zone's contribution, and it is either 0 or reached by some zone. |
| Thresholds.InfluenceAt | abstract-wheels/events.js:581-610 | The influence lies in [0, 1] and is 0 when no zone is active. |
| Thresholds.MaxContribution | abstract-wheels/events.js:592-607 | The loop over the zones returns the peak contribution. |
| Thresholds.PeakStep | abstract-wheels/events.js:604-606 | One more zone raises the peak to the larger of the old peak and its contribution. |
| Thresholds.PeakPermutation | abstract-wheels/events.js:592-607 | The order of the zones does not change the peak. |
| Thresholds.PeakBelow | abstract-wheels/events.js:592-607 | Removing zones never raises the peak. |
| Thresholds.PeakIgnoresDuplicate | abstract-wheels/events.js:592-607 | A zone listed twice counts once. |
| Thresholds.CoincidentListenersDoNotAdd | abstract-wheels/events.js:592-609 | Two listeners on the same spot give influence 1 there, not 2: zones do not add up. |
| Thresholds.PeakAlong | abstract-wheels/ring.js:129-148 | The peak influence over a walk's first n probes lies in [0, 1]. |
| Thresholds.PeakAlongBounds | abstract-wheels/ring.js:129-148 | The peak over a walk's first n probes bounds each of their influences. |
| Thresholds.PeakAlongReached | abstract-wheels/ring.js:129-148 | That peak is 0 or reached at some probe. |
| Thresholds.PeakAlongUnique | abstract-wheels/ring.js:129-148 | Any bound that is 0 or reached is the peak. |
| Thresholds.PeakAlongSaturates | abstract-wheels/connector.js:97-98 | Once the peak reaches 1 it stays 1 over any longer walk, so stopping there loses nothing. |
| Thresholds.NearestInRange | abstract-wheels/events.js:201-212 | Nothing is found exactly when no zone is in range. Otherwise the index is the in-range zone nearest the point, the first of equals. |
| Thresholds.RemoveAt | abstract-wheels/events.js:214 | `splice(k, 1)`: the list loses element k and keeps the others in order (as a multiset too). |
| Thresholds.RingVisualBounds | abstract-wheels/events.js:302-336 | The hit band of a ring of each style, with 0 <= inner <= outer. A solid ring spans the stroke around the circle of radius inner + outer. Dots sit on the middle circle padded by max(0.3 of the width, 4). Rays widen the ring by 6 on each side. |
| Thresholds.Lerp | abstract-wheels/events.js:612-624 | The blend lies between its ends, and reaches each end at 0 and 1. |
| Thresholds.LerpMonotone | abstract-wheels/events.js:612-624 | The blend never falls as the amount grows. |
| Thresholds.AlphaFromInfluence | abstract-wheels/events.js:612-617 | The alpha lies in [0, 255] and is at least the clamped base. It is the base at no influence and the raised highlight at full influence. |
| Thresholds.FactorFromInfluence | abstract-wheels/events.js:619-624 | The factor lies between the clamped base and the raised highlight, and reaches each at influence 0 and 1. |
| Thresholds.InterpolationMonotone | abstract-wheels/events.js:612-624 | More influence never lowers the alpha or the factor. |
| Thresholds.EffectLevelIsClampedInfluence | abstract-wheels/connector.js:49-51 | `factorFromInfluence(0, 1, x)` is x clamped to [0, 1]. |
| Thresholds.FadeAfter | abstract-wheels/events.js:641-659 | The fade stays in [0, 1]. It rises toward 1 with a pointer and falls toward 0 without one, by at most 0.2 s of its rate, and does not move when no time passed. |
| Percussion.EdgeStep | abstract-wheels/ring.js:283-292 | One frame fires exactly on an inactive-to-active change, and the flag becomes the activity. |
| Percussion.HitsOnRisingEdges | abstract-wheels/ring.js:283-303 | Over any run of frames a hit fires exactly on the frames that are active after an inactive one. |
| Percussion.FinalFlagIsLastFrame | abstract-wheels/ring.js:283-303 | After a run the flag is the last frame's activity. |
| Percussion.NoRetriggerWhileActive | abstract-wheels/wheel.js:129-138 | Between two hits the shape was inactive on some frame. |
| Percussion.SustainedIsSilent | abstract-wheels/ring.js:283-292 | A shape that starts active and stays active never strikes. |
| Percussion.ReactivationStrikesAgain | abstract-wheels/ring.js:294-303 | Active, active, inactive, active strikes on the first and fourth frames. |
| Interaction.InteractionManager.constructor | abstract-wheels/events.js:2-27 | No listeners, radius 15, mouse output on, no pointer, fade 0 stamped now, no suppression, counters at 0. |
| Interaction.InteractionManager.SetMouseThresholdRadius | abstract-wheels/events.js:123-129 | The radius becomes the value clamped to [10, 125]. No value keeps the radius. Observers are told exactly when it changed. |
| Interaction.InteractionManager.AdjustThresholdRadius | abstract-wheels/events.js:119-121 | The radius moves by delta, clamped to [10, 125], and observers are told exactly when it changed. |
| Interaction.InteractionManager.SetMouseOutputEnabled | abstract-wheels/events.js:169-174 | The switch takes the value, and observers are told exactly when it flipped. |
| Interaction.InteractionManager.ToggleMouseOutput | abstract-wheels/events.js:176-178 | The switch flips and observers are told. |
| Interaction.InteractionManager.AddThreshold | abstract-wheels/events.js:180-199 | A listener with the next id, the current radius, falloff 140 and intensity 1 is appended. Its id is new, and the mouse is suppressed within the radius of it. |
| Interaction.InteractionManager.RemoveThresholdNear | abstract-wheels/events.js:201-218 | Nothing is removed exactly when no listener is in range. Otherwise the nearest in-range listener is removed and returned. |
| Interaction.InteractionManager.ClearPointerSuppressionIfNeeded | abstract-wheels/events.js:661-667 | The suppression is dropped exactly when the pointer has left its zone. Whether the pointer is suppressed is unchanged. |
| Interaction.InteractionManager.HandlePointerMove | abstract-wheels/events.js:56-65 | With audio ready and a position, the pointer moves there at full fade. It is suppressed exactly when inside the old zone, and a left zone is cleared. Otherwise nothing changes. |
| Interaction.InteractionManager.HandlePointerLeave | abstract-wheels/events.js:67-72 | With audio ready the pointer and its suppression go. |
| Interaction.InteractionManager.HandleClick | abstract-wheels/events.js:74-90 | A primary click with audio ready adds a listener with the next id, the id counter moves on by one, and the mouse is suppressed there. With shift held the id counter and suppression stay; the click removes the nearest listener in range when one is in range (order kept), and changes nothing when none is. Any other click changes nothing. |
| Interaction.InteractionManager.HandleContextMenu | abstract-wheels/events.js:92-98 | With audio ready it removes the nearest listener in range; nothing is removed exactly when none is in range. |
| Interaction.InteractionManager.HandleKeyDown | abstract-wheels/events.js:100-117 | Space toggles the mouse output and observers of the output are told; the radius stays. '[' and ']' shrink and grow the radius by 5 within [10, 125], and observers of the radius are told exactly when it changed; the output stays. Other keys change neither, and nobody is told. |
| Interaction.InteractionManager.MouseThreshold | abstract-wheels/events.js:561-579 | The mouse zone exists exactly when the output is on, a pointer with a fade above 0.001 exists, audio is ready and the pointer is not suppressed. It sits at the pointer with the current radius and the fade as intensity. |
| Interaction.InteractionManager.ActiveThresholds | abstract-wheels/events.js:554-559 | The listeners in order, followed by the mouse zone when there is one. |
| Interaction.InteractionManager.UpdatePointerFade | abstract-wheels/events.js:641-659 | The fade advances by the elapsed time and is stamped now. |
| Interaction.InteractionManager.GetThresholdInfluenceAt | abstract-wheels/events.js:581-610 | Without audio the influence is 0 and the fade is untouched. With audio the fade is brought up to date, and the influence is the peak over the active zones, in [0, 1]. |
| Interaction.InteractionManager.InfluenceNow | abstract-wheels/events.js:581-610 | The influence in [0, 1], and 0 without audio or without zones. |
| Interaction.InteractionManager.PeakInfluence | abstract-wheels/ring.js:129-148 | The greatest influence over a walk's probes lies in [0, 1]. |
| Interaction.InteractionManager.GetAlphaForPoint | abstract-wheels/events.js:626-629 | The alpha is `alphaFromInfluence` of the influence at the point, after the fade update. |
| Interaction.InteractionManager.GetFactorForPoint | abstract-wheels/events.js:631-634 | The factor is `factorFromInfluence` of the influence at the point, after the fade update. |
| Interaction.InteractionManager.EnsureRefId | abstract-wheels/events.js:537-544 | A shape keeps its reference id. A new shape gets prefix-(counter + 1), and ids stay distinct. |
| Audio.ParseEffect | abstract-wheels/audio.js:436-445 | A name denotes an effect exactly when it is that effect's name. |
| Audio.ChannelOf | abstract-wheels/audio.js:591-608 | "master", the five bus names, and every other name as its own channel. |
| Audio.VolumeFromInfluence | abstract-wheels/audio.js:273-276 | The volume lies in [0, 0.35]: 0 at no influence, 0.35 at full influence. |
| Audio.VolumeMonotone | abstract-wheels/audio.js:273-276 | More influence never lowers the volume. |
| Audio.EffectLevel | abstract-wheels/audio.js:447-458 | An effect's level is at most 1 and non-negative, 0 without influence or with override 0, and never above the influence. |
| Audio.WetTarget | abstract-wheels/audio.js:447-458 | A chain's wet gain lies in [0, its scale] and is 0 without influence or with override 0. |
| Audio.ChooseSample | abstract-wheels/audio.js:354-364 | No sample exactly when the group's pool (sfx for an unknown group) is empty. A shape keeps the sample it was given for the group; otherwise the pick is from the pool. |
| Audio.SampleStable | abstract-wheels/audio.js:354-373 | Once a shape has a sample for a group, every later lookup returns it whatever the draw, and leaves the table as it is. |
| Audio.ChooseWaveform | abstract-wheels/audio.js:345-352 | A shape keeps the waveform it was given. |
| Audio.AfterWaveform | abstract-wheels/audio.js:345-352 | After the lookup the shape holds the chosen waveform, and no shape means no change. |
| Audio.WaveformStable | abstract-wheels/audio.js:345-373 | Once chosen, a shape's waveform is returned by every later lookup whatever the draw. |
| Audio.AudioManager.constructor | abstract-wheels/audio.js:17-55 | The drawn scale, empty pools, default bus levels on freshly built buses, every effect at influence 0 with override 1, and audio off. |
| Audio.AudioManager.AddToPool | abstract-wheels/audio.js:115-123 | The group's pool gains the listed files at its end. |
| Audio.AudioManager.LoadBuffer | abstract-wheels/audio.js:185-201 | A path that decodes is added to the buffers once. |
| Audio.AudioManager.EnableAudio | abstract-wheels/audio.js:89-96 | With a context audio is enabled and the bus levels are applied the first time. |
| Audio.AudioManager.ApplyBusLevels | abstract-wheels/audio.js:610-623 | With a context the master ramps to its level over 0.2 s and each bus over 0.1 s. |
| Audio.AudioManager.SetBusLevel | abstract-wheels/audio.js:591-608 | The channel's level becomes the value clamped to [0, 1]. The master or the named bus ramps to it over 0.1 s when a context exists. |
| Audio.AudioManager.SetEffectBusLevel | abstract-wheels/audio.js:625-628 | A known effect's override becomes the clamped value; an unknown name changes nothing. |
| Audio.AudioManager.BeginFrame | abstract-wheels/audio.js:429-434 | Every effect's influence is reset to 0. |
| Audio.ZeroEach | abstract-wheels/audio.js:430-433 | The reset loop: from any table holding exactly the effects, every effect ends at 0 and no other entry appears. |
| Audio.AudioManager.AccumulateConnectorInfluence | abstract-wheels/audio.js:436-445 | While enabled, the effect (flange for an unknown name) keeps the larger of its influence and the value. |
| Audio.AudioManager.ApplyConnectorEffects | abstract-wheels/audio.js:447-458 | While enabled, each chain's wet gain ramps over 0.05 s to its level times its scale. |
| Audio.AudioManager.PlaySample | abstract-wheels/audio.js:577-589 | A decoded sample plays once on its group's bus at the given velocity, 0.8 by default; otherwise nothing plays. |
| Audio.AudioManager.GetOrCreateAssignment | abstract-wheels/audio.js:366-373 | The shape's entry is returned, created empty when missing. |
| Audio.AudioManager.GetWaveformForShape | abstract-wheels/audio.js:345-352 | The result and the new table are the reference lookup's. |
| Audio.AudioManager.GetSampleForShape | abstract-wheels/audio.js:354-364 | The result and the new table are the reference lookup's. |
| Audio.AudioManager.TriggerPercussion | abstract-wheels/audio.js:278-283 | While enabled, the shape keeps or is given its sample for the group, and that sample, when decoded, plays once. Otherwise nothing happens. |
| Audio.AudioManager.StartVoice | abstract-wheels/audio.js:221-251 | With a context a new oscillator starts silent. It uses the shape's waveform, a note of the scale in the hue's octave, and "unknown" for a missing type, and it is attached to the shape. |
| Audio.AudioManager.StartNode | abstract-wheels/audio.js:223-236 | A new node takes the next handle and its start is scheduled. |
| Audio.AudioManager.AttachVoice | abstract-wheels/audio.js:247-248 | The shape's entry holds the voice, the rest of the table unchanged. |
| Audio.AudioManager.StopVoice | abstract-wheels/audio.js:253-264 | A sounding voice fades to 0.0001 over 0.08 s, stops after 0.12 s and is forgotten. Without a voice nothing happens. |
| Audio.AudioManager.SetVoiceGain | abstract-wheels/audio.js:266-271 | The shape's voice ramps to the value over 0.05 s. |
| Audio.AudioManager.UpdateShapeTone | abstract-wheels/audio.js:203-219 | While enabled: no influence stops a sounding voice, which fades to 0.0001 over 0.08 s, stops after 0.12 s and is forgotten. Otherwise the voice ramps to the volume for the influence: an existing voice changes only its gain. A missing one is started on the next node with the shape's waveform, a scale note in the hue's octave and the shape's type. The shape's samples and every other shape stay, and nothing changes while audio is off. |
| Audio.AudioManager.SoundVoice | abstract-wheels/audio.js:211-218 | The shape's voice exists and ramps to the volume for the influence. An existing voice changes only its gain. A missing one is started on the next node with the shape's chosen waveform, its note and its type. In both cases the new table is stated whole, so the shape's samples stay. |
| Audio.AudioManager.StartSpecialLoop | abstract-wheels/audio.js:304-320 | A decoded sfx sample for the shape starts looping silently on a new source. Otherwise nothing starts, though the shape's sample is still pinned. |
| Audio.AudioManager.StopSpecialLoop | abstract-wheels/audio.js:322-331 | A running loop fades to 0.0001 over 0.1 s, stops after 0.12 s and is forgotten. |
| Audio.AudioManager.SetLoopGain | abstract-wheels/audio.js:333-338 | The shape's loop ramps to the value over 0.05 s. |
| Audio.AudioManager.UpdateSpecialLoop | abstract-wheels/audio.js:285-302 | Without audio, a shape or influence the loop is stopped. Otherwise the loop, started if missing and possible, ramps to the volume for the influence. |
| Audio.AudioManager.SoundLoop | abstract-wheels/audio.js:295-301 | An existing loop only changes gain. A missing one starts when its sample is decoded and then ramps to the volume. |
| Audio.AudioManager.GetSpecialLoopLevel | abstract-wheels/audio.js:340-343 | The loop's level is clamped to [0, 1], and it is 0 without a loop. |
| Wheels.KindFor | abstract-wheels/wheel.js:20-24 | Solid below 0.33, dotted below 0.66, rayed above. |
| Wheels.RingCount | abstract-wheels/wheel.js:16 | Between three and five rings. |
| Wheels.SolidProbes | abstract-wheels/ring.js:129-148 | 18 probes around the solid ring. |
| Wheels.OffsetIsProduct | abstract-wheels/wheel.js:17-35 | The running inner radius after k rings is k widths. |
| Wheels.Ring.constructor | abstract-wheels/ring.js:2-15 | No parent, a noise offset in [0, 1000), all three flags down. |
| Wheels.Ring.Update | abstract-wheels/ring.js:18-20 | The noise offset moves on by 0.01. |
| Wheels.Ring.SetParentWheel | abstract-wheels/ring.js:125-127 | The ring's parent becomes the wheel. |
| Wheels.Ring.HandleSolidPercussion | abstract-wheels/ring.js:272-281 | With audio present the solid flag follows whether the influence exceeds 0.05. Nothing is ever struck. |
| Wheels.Ring.HandleDotPercussion | abstract-wheels/ring.js:283-292 | A kick is struck for the ring exactly when the dots turn active, and the flag follows. |
| Wheels.Ring.HandleRayPercussion | abstract-wheels/ring.js:294-303 | A hi-hat is struck exactly when the rays turn active, and the flag follows. |
| Wheels.Ring.GetSolidThresholdSample | abstract-wheels/ring.js:129-148 | Without a manager or a parent there is no influence and no point. Otherwise it returns the peak influence over the 18 probes and the first probe that reaches it: every probe before that one falls short. The walk stops at 1. |
| Wheels.ProbeRun | abstract-wheels/ring.js:137-146 | The probing loop: its best is the peak over every probe. Its point is the first probe reaching that peak, since only a strictly larger influence replaces the best. It stops at the first probe of influence 1, and the fade is settled once. |
| Wheels.ProbeAt | abstract-wheels/ring.js:139-145 | One probe keeps the running best and its point, against zones that stay put from the second probe on. |
| Walks.ScanStep | abstract-wheels/connector.js:96-98 | A strictly larger influence replaces the best and its probe becomes the point, the first to reach the best so far. One reaching 1 ends the walk with the peak over all probes. |
| Walks.ScanEnd | abstract-wheels/ring.js:137-146 | A walk that ran through every probe without reaching 1 has its best at the peak over all of them. |
| Walks.WalkFromSnapshot | abstract-wheels/ring.js:129-148 | A walk judged against the zones it saw is the walk over the manager. |
| Wheels.Wheel.constructor | abstract-wheels/wheel.js:2-12 | No rings yet, a rotation in [0, 2π) and a speed in [-0.01, 0.01). |
| Wheels.Wheel.InitRings | abstract-wheels/wheel.js:15-39 | Three to five new rings are appended. They partition the base radius into equal widths from the centre, take their drawn style (the outermost is solid) and have this wheel as parent. |
| Wheels.Wheel.AppendRing | abstract-wheels/wheel.js:19-37 | One loop pass: the next ring, laid out in place, is appended. |
| Wheels.Wheel.NewRing | abstract-wheels/wheel.js:28-37 | A new ring with the given bounds and style, parented to this wheel. |
| Wheels.Wheel.LaidOutAppend | abstract-wheels/wheel.js:15-39 | The layout extends by one correctly placed ring. |
| Wheels.Wheel.Update | abstract-wheels/wheel.js:42-45 | The wheel turns by its speed, and every ring's noise moves on while its parent and flags stay. |
| Wheels.Wheel.OutlinePoints | abstract-wheels/wheel.js:145-155 | No manager gives no points. |
| Wheels.Wheel.OutlinePointsAre | abstract-wheels/wheel.js:145-155 | The points tested are the pointer and the listener centres. |
| Wheels.Wheel.GetOutlineAlpha | abstract-wheels/wheel.js:111-119 | The highlight alpha exactly when the outline is touched, the base alpha otherwise. |
| Wheels.Wheel.HandleOutlinePercussion | abstract-wheels/wheel.js:129-138 | While audio is enabled a snare is struck for the wheel exactly when the outline becomes touched, and the flag follows. |
| Connectors.Connector.constructor | abstract-wheels/connector.js:2-15 | A phase in [0, 2π) and one of the four effects for life. |
| Connectors.Connector.Update | abstract-wheels/connector.js:18-20 | The phase advances by 0.02. |
| Connectors.Connector.Curve | abstract-wheels/connector.js:27-39 | The 33 probes run from the wheel's centre to the end point. |
| Connectors.Connector.Display | abstract-wheels/connector.js:24-55 | Without a manager the level is 1. Otherwise it is the peak influence along the curve, the manager stays well formed and its fade is brought up to date once for the frame. Inside a frame the level extends the record of the levels measured so far. While audio is enabled the connector's effect keeps the larger of its influence and the level; otherwise the influences stay. |
| Connectors.SweepAndContribute | abstract-wheels/connector.js:41-55 | With audio present: the level is the peak influence along the curve (1 without a manager) and extends the record of levels measured so far. The contribution keeps the larger of the effect's influence and the level while audio is enabled, and leaves what the sweep did to the manager as it is. |
| Connectors.EffectLevelAlong | abstract-wheels/connector.js:41-51 | The effect level lies in [0, 1]. It is 1 without a manager, otherwise the peak influence along the curve passed through `factorFromInfluence(0, 1, ·)`, which leaves it as it is. |
| Connectors.PickEffectType | abstract-wheels/connector.js:113-116 | One of the four effects, picked by the draw. |
| Connectors.ParseEffectName | abstract-wheels/connector.js:113-116 | A picked effect's name always parses back to it, so the flange default is never hit. |
| Connectors.Contribute | abstract-wheels/connector.js:53-55 | The call made when there is an audio manager: while enabled, the effect keeps the larger of its influence and the level; otherwise nothing changes. |
| Connectors.ContributeAfterSweep | abstract-wheels/connector.js:53-55 | The same contribution, which touches the audio side only: the manager's sweep and the levels measured so far still hold after it. |
| Connectors.SampleThresholdInfluence | abstract-wheels/connector.js:89-101 | The peak influence over the 33 probes, stopping at the first probe of influence 1. |
| Connectors.Strongest | abstract-wheels/audio.js:436-445 | The strongest level fed to an effect is never negative. |
| Connectors.StrongestPrefix | abstract-wheels/connector.js:53-55 | A connector drawn later does not change what the earlier ones fed. |
| Connectors.StrongestIsMaximum | abstract-wheels/audio.js:436-445 | The strongest level fed to an effect is at least every level fed to it, and is 0 or one of them. |
| Connectors.StrongestFeed | abstract-wheels/connector.js:53-55 | Feeding one more connector updates the per-effect maxima exactly as `accumulateConnectorInfluence` does. |
| Connectors.KindsOf | abstract-wheels/connector.js:53-55 | The effects the connectors feed, one per connector, in order. |
| Connectors.CurvesOf | abstract-wheels/connector.js:89-101 | The probe points of each connector's curve, one per connector, in order. |
| Connectors.ProgressPeaks | abstract-wheels/connector.js:89-101 | A frame that went through every curve leaves each level at the peak influence of the manager's zones along its curve. |
| Walks.MeasuredAppend | abstract-wheels/connector.js:41-43 | One more level measured along the next curve extends the measured record. |
| Walks.MeasuredAt | abstract-wheels/connector.js:41-43 | A measured record holds, at each position, the peak along that position's curve (0 while audio is not ready). |
| Walks.MeasuredPeaks | abstract-wheels/connector.js:89-101 | Levels measured against the manager's active zones are its peak influences along the curves. |
| Sketch.DisplayNext | abstract-wheels/connector.js:24-55 | One connector drawn inside a frame: its level is the peak influence along its curve, and every effect holds the strongest level fed to it so far, now counting this connector's. |
| Sketch.DisplayAll | abstract-wheels/sketch.js:29-30 | Every connector is drawn in order. Each level lies in [0, 1], is 1 without a manager and otherwise is the peak influence along its own curve, and while audio is enabled each effect ends with the strongest level of the connectors feeding it. |
| Sketch.BeginConnectorFrame | abstract-wheels/sketch.js:26-28 | With an audio manager, every effect's influence is reset to 0, so no connector has fed any effect yet. |
| Sketch.EndConnectorFrame | abstract-wheels/sketch.js:31-33 | With audio enabled, each chain's wet gain ramps over 0.05 s to its level times its scale; the drawn frame stands. |
| Sketch.DrawConnectors | abstract-wheels/sketch.js:23-35 | A frame: reset, draw every connector, apply. Each level is the peak influence along its connector's curve, and each effect's wet gain is driven by the strongest level any of its connectors met. |

## Left out

- Drawing: colours, alpha on screen, strokes, the background pattern and
  the GUI overlay (`GUI.js`) are not modelled. Only the values the drawing
  code reads from the model are.
- The Web Audio graph is not built. Nodes, their connections, the effect
  chains (`createEffectChains` and the build functions),
  `createImpulseResponse` and `midiToFrequency` leave only their scheduled
  gains, starts and stops.
- Sample discovery (`preloadAll`, `loadAllSamples`, the manifest and
  directory fetches) is I/O. Its results enter through `AddToPool` and
  `LoadBuffer`.
- `createContext` and the unlock handlers are not modelled. Whether a
  context exists is the constant `hasContext`.
- Shape picking (`detectShapeAt` and the `find*` functions, events.js
  233-514), current-shape reporting, and the hit tests
  `isPointOnDash`, `isPointTouchingDotRing` and `isPointTouchingRayRing` are
  inputs: a flag, or the predicate `onDash`.
- `composition.update` and `composition.display` inside `draw` are not
  modelled. The frame model covers `beginFrame`, the connectors' part of
  the display and `applyConnectorEffects`.
- Observer callbacks and their `try`/`catch` are not modelled. Notices are
  logged instead, in `radiusNotices` and `mouseOutputNotices`.
- Three fallbacks of `getThresholdInfluenceAt` are not modelled:
  - the guard for a point that is not a number;
  - the `?? this.thresholdRadius` default for a zone without a radius
    (events.js:595);
  - the default intensity for a zone without one (events.js:600-603).

  Points are always numeric here, and every zone carries its radius and
  intensity. The guard for a zero radius is modelled, in
  `Thresholds.Contribution`.
- Floating point is modelled as exact reals.
- Wheels.ProbeRun: every query of the walk is made at one time `now`,
  while the source reads `performance.now()` at each query
  (events.js:587, 641-644). The drift of the fade between the queries of a
  frame is dropped: only the first query moves the fade.
- Wheels.Ring.GetSolidThresholdSample: the same single `now` for all 18
  probes.
- Connectors.SampleThresholdInfluence: the same single `now` for all 33
  probes.
- Sketch.DrawConnectors: the clock is read once per frame, so every
  connector's queries share one `now`.
- Wheels.Ring.GetSolidThresholdSample: `colorFromInfluence` and the display
  that consumes the sample are left out, so only the influence and point
  are stated.
