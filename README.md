# Sound Interactions — a verified model of the instrument's core

Sound Interactions is a browser instrument. A 12 x 3 grid of notes is played
from the keyboard, the mouse or a webcam. Every note, chord or drum hit
pushes a particle field that runs on the GPU: a key press moves an
attractor and blends a per-key visual profile into the distortion targets,
and the animation loop smooths the current values towards those targets
every frame. When nobody plays, an idle machine builds up and decays its
own intensity. The analyser splits the audio spectrum into bass, mid and
treble levels. The webcam tracker cuts each frame into 16 columns of
contrast and motion energy and turns them into a head position, two hand
"knobs" and fast-swipe events. A small Node server delivers the page.

The model is organised by concern. Each module follows the part of the
source it models:

- `Numeric` holds JavaScript's remainder, clamping and the smoothing step
  `cur += (tgt - cur) * rate`.
- `Grid` covers note snapping, the mapping between grid cells and MIDI
  notes, picking the cell under the mouse and cell placement.
- `Notes` holds the key tables, note names, the sustain rule and the
  arpeggiator's choice of note.
- `Profiles` covers the key profiles, the chord blend and the smoothed
  distortion parameters.
- `Idle` is the idle machine: rest, build, hold, decay.
- `Audio` covers the spectrum bands and the microphone gate.
- `Visuals` is the page script's module-level state, modelled as the class
  `Instrument`. Its methods are the event handlers (key down and up, wheel,
  double click, audio and mic sampling, arpeggiator tick) and the
  animation-frame update.
- `Field` is one step of the velocity and position compute shaders.
- `Gpu` is the ping-pong compute scheduler `GPUComputationRenderer`,
  modelled as a class, together with a pure model of its state.
- `Tracker` is the camera motion tracker: the energy loops as methods over
  arrays, the hand and head readings, and the class `Tracker` holding the
  tracker's state.
- `Server` covers request routing, content types, status codes and
  retrying the port.

Imperative parts of the source are modelled as methods with loop
invariants or as classes whose methods update fields. Each such method is
specified by a function of its inputs or of the old state, and the
properties are proved about that function. Numbers are Dafny reals, and
IEEE rounding is not modelled.

Two behaviours are modelled as the code has them:
- The fast-swipe direction is the sign of the change of the mirrored
  position `1 - centroid`. A bright region moving to the right of the
  camera image therefore reads as a swipe with direction -1.
- On the path without a face detector, the frame is saved before the hand
  reading is taken. The hand tracker then compares the frame with itself,
  so it never sees motion (`Tracker.SkinPathHandSeesNoMotion`).

## Model

| member | source | states |
|---|---|---|
| Audio.BandSumBounds | Sound_Interactions/js/main.js:2150-2153 | a band of byte bins sums to between 0 and 255 per bin |
| Audio.LevelBounds | Sound_Interactions/js/main.js:2154-2156 | a band sum divided by its bin count times 255 lies in [0, 1] |
| Audio.BandLevels | Sound_Interactions/js/main.js:2144-2157 | bass, mid and treble are the sums of bins [0, floor(0.15n)), [floor(0.15n), floor(n/2)) and [floor(n/2), n) over 255 per bin; energy is 0.5 bass + 0.3 mid + 0.2 treble; with byte bins all four lie in [0, 1] |
| Audio.SpectrumBands | Sound_Interactions/js/main.js:2138-2150 | a 256-point analyser's 128 bins split at bins 19 and 64 |
| Audio.MicGate | Sound_Interactions/js/main.js:2200 | the gated level is 0 exactly when the raw level is below 0.012 (or 0), and otherwise the raw level |
| Audio.MicStepBounds | Sound_Interactions/js/main.js:2199-2202 | the smoothed mic level stays in [0, 1] and under the gate only falls |
| Idle.IdleStepBounded | Sound_Interactions/js/main.js:2422-2442 | every frame keeps the idle intensity in [0, 0.38] and the timer non-negative |
| Idle.NonIdleResets | Sound_Interactions/js/main.js:2422-2427 | a frame with a held key or a strong attractor returns to rest, clears the timer and only fades the intensity |
| Idle.IdleStepFollowsCycle | Sound_Interactions/js/main.js:2428-2441 | an idle frame stays in its phase or moves to the next one of rest, build, hold, decay |
| Idle.RestRun | Sound_Interactions/js/main.js:2429-2431 | fewer than 150 resting frames leave the phase at rest with a timer of k/60 |
| Idle.RestToBuild | Sound_Interactions/js/main.js:2428-2431 | building starts after exactly 150 frames (2.5 s) of rest |
| Idle.BuildRun | Sound_Interactions/js/main.js:2432-2434 | fewer than 22 building frames from zero leave the intensity at 0.018 k |
| Idle.BuildToHold | Sound_Interactions/js/main.js:2432-2434 | the intensity hits the 0.38 cap and holding starts on the 22nd building frame |
| Idle.HoldRun | Sound_Interactions/js/main.js:2435-2437 | fewer than 300 holding frames leave the timer at k/60 |
| Idle.HoldToDecay | Sound_Interactions/js/main.js:2435-2437 | decay starts after exactly 300 frames (5 s) of holding, without clearing the timer |
| Idle.DecayRun | Sound_Interactions/js/main.js:2438-2440 | fewer than 18 decaying frames from the cap leave the intensity at 0.38 - 0.022 k |
| Idle.DecayToRest | Sound_Interactions/js/main.js:2438-2440 | the intensity reaches 0 and the machine rests again on the 18th decaying frame |
| Idle.IdleCycle | Sound_Interactions/js/main.js:2422-2441 | uninterrupted idling from the start-up state completes one cycle in 490 frames and returns to the start-up state |
| Grid.ReduceNearest | Sound_Interactions/js/main.js:13 | the reduce returns its seed or one of its candidates |
| Grid.NearestNatural | Sound_Interactions/js/main.js:13 | the reduce over the white keys always yields a white-key pitch class |
| Grid.NearestNaturalTable | Sound_Interactions/js/main.js:8-13 | the reduce maps the pitch classes 0..11 to 0, 2, 2, 4, 4, 5, 7, 7, 9, 9, 11, 11 |
| Grid.NearestNaturalIsNearest | Sound_Interactions/js/main.js:13 | the chosen white key is at least as near as every other, and the upper one on a tie |
| Grid.SnapNegative | Sound_Interactions/js/main.js:10-15 | with JavaScript's sign-keeping `%` a negative note snaps down to the C of its floored octave |
| Grid.SnapKeepsOctave | Sound_Interactions/js/main.js:10-15 | a non-negative note keeps its octave and gets the nearest white-key pitch class |
| Grid.SnapIdentityOnNaturals | Sound_Interactions/js/main.js:10-15 | a white-key note snaps to itself |
| Grid.SnapTiesGoUp | Sound_Interactions/js/main.js:10-15 | each black key snaps one semitone up |
| Grid.SnapIdempotent | Sound_Interactions/js/main.js:10-15 | snapping twice is snapping once |
| Grid.CellToMidi | Sound_Interactions/js/main.js:17-19 | a grid cell's note lies in 48..83 and its pitch class is the column's white-key semitone |
| Grid.NoteRow | Sound_Interactions/js/main.js:22 | the row of a note is clamped to 0..2 |
| Grid.MidiToCell | Sound_Interactions/js/main.js:20-26 | every note maps to a cell on the grid |
| Grid.MidiToCellColumns | Sound_Interactions/js/main.js:24-25 | only the columns 0, 2, 3, 4, 5, 7 and 8 are ever chosen |
| Grid.NaturalNoteCell | Sound_Interactions/js/main.js:20-26 | a white-key note gets its pitch class's column and its octave's row |
| Grid.CellRowRoundTrip | Sound_Interactions/js/main.js:17-26 | cell to note to cell keeps the row |
| Grid.MidiCellRoundTrip | Sound_Interactions/js/main.js:17-26 | a note whose snapped value lies on the grid comes back from its cell as that snapped value |
| Grid.CellNoteStable | Sound_Interactions/js/main.js:17-26 | cell to note to cell to note gives the same note |
| Grid.CellFromMouse | Sound_Interactions/js/main.js:27-33 | a cell is returned exactly when the mouse is inside the window; it is then on the grid and its column and row are the floors of the scaled coordinates |
| Grid.CellToPosition3D | Sound_Interactions/js/main.js:34-38 | cell centres lie strictly inside x in (-1.5, 1.5), y in (-0.6, 0.6), on z = 0 |
| Grid.PositionInjective | Sound_Interactions/js/main.js:34-38 | distinct cells get distinct positions |
| Grid.ActiveCol | Sound_Interactions/js/main.js:2544-2545 | the column recovered from an x coordinate is clamped to 0..11 |
| Grid.ActiveColRoundTrip | Sound_Interactions/js/main.js:2544-2545 | recovering the column from a cell's position gives the cell's column back |
| Notes.IndexOf | Sound_Interactions/js/main.js:1981 | `indexOf` gives the first position of the code, or -1 exactly when the code is absent |
| Notes.DrumIndex | Sound_Interactions/js/main.js:1310 | every pad number is a position of the pad order |
| Notes.DrumTablesAgree | Sound_Interactions/js/main.js:1306-1310 | the drum table and the pad order list the same eleven keys |
| Notes.DrumIndexTable | Sound_Interactions/js/main.js:1310 | a drum key's pad number indexes back to that key, and every other key gets 0 |
| Notes.DrumKeyOrderDistinct | Sound_Interactions/js/main.js:1310 | the pad order has no repeated key |
| Notes.DrumIndexIsIndexOf | Sound_Interactions/js/main.js:1981-1982 | the pad number is the key's `indexOf` position in the pad order, or 0 when it has none |
| Notes.NoteKeysAreNotCommandKeys | Sound_Interactions/js/main.js:1300-1310 | no note key is a drum key or one of the command keys handled before the note branch |
| Notes.KeyNoteNatural | Sound_Interactions/js/main.js:1300-1304 | every note key plays a white-key note between 48 and 79 |
| Notes.KeyNotesOnGrid | Sound_Interactions/js/main.js:1300-1304 | every note key's note is unchanged by snapping and by the trip through its grid cell |
| Notes.SustainByName | Sound_Interactions/js/main.js:1316-1320 | a non-negative note is sustained exactly when its name is C, D, E or F, and the rule repeats every octave |
| Notes.NatToDecimal | Sound_Interactions/js/main.js:1314 | the decimal form of a natural is a non-empty string of digits |
| Notes.IntToDecimal | Sound_Interactions/js/main.js:1314 | the decimal form of an integer starts with '-' or a digit |
| Notes.NatToDecimalInjective | Sound_Interactions/js/main.js:1314 | distinct naturals have distinct decimal strings |
| Notes.IntToDecimalInjective | Sound_Interactions/js/main.js:1314 | distinct integers have distinct decimal strings |
| Notes.NoteNameShape | Sound_Interactions/js/main.js:1311 | each pitch-class name is a letter with an optional '#', and names its own pitch class |
| Notes.NoteNameInjective | Sound_Interactions/js/main.js:1312-1315 | distinct non-negative notes have distinct names |
| Notes.MinNoteIsLowest | Sound_Interactions/js/main.js:2252-2256 | the root is at most 127, no held note key lies below it, and it is 127 or a held key's note |
| Notes.LowestHeldNote | Sound_Interactions/js/main.js:2252-2256 | the root-finding loop computes that lowest held note |
| Notes.ArpStep | Sound_Interactions/js/main.js:2250-2259 | a step plays exactly when a key is held and the root is at most 120; it then plays the root plus a pattern offset and advances the index by one (which offset, in order, is `ArpRunWalksPattern`) |
| Notes.ArpPatternBounds | Sound_Interactions/js/main.js:2228-2235 | every offset of every built-in pattern is 0 to 14 semitones |
| Notes.ArpAlwaysPlaysForHeldNotes | Sound_Interactions/js/main.js:2250-2259 | with only note keys held a built-in pattern always plays, and the note is the lowest held note plus `pattern[arpIndex % |pattern|]`, at most 14 semitones above it |
| Notes.HeldRootOnGrid | Sound_Interactions/js/main.js:2252-2256 | with note keys held the lowest held note is at most 79, so the root guard never silences the arpeggiator |
| Notes.ArpRunWalksPattern | Sound_Interactions/js/main.js:2249-2259 | `k` consecutive callbacks from index `i` play `k` notes, the `j`-th being the root plus `pattern[(i + j) % |pattern|]` |
| Notes.ArpRunSilent | Sound_Interactions/js/main.js:2250-2257 | with no key held, or a root above 120, callbacks play nothing |
| Notes.ArpCyclePlaysPattern | Sound_Interactions/js/main.js:2249-2259 | one cycle from index 0 plays the root plus each pattern offset in order |
| Notes.ArpRepeatsEveryCycle | Sound_Interactions/js/main.js:2258-2259 | an index one pattern length further plays the same note |
| Numeric.JsRem12 | Sound_Interactions/js/main.js:12 | JavaScript's `midi % 12`: a remainder in (-12, 12) congruent to the dividend and with its sign |
| Numeric.Clamp | Sound_Interactions/js/main.js:22 | `Math.max(lo, Math.min(hi, x))` lies in [lo, hi], is `x` inside it and the nearer bound outside it |
| Numeric.LerpProperties | Sound_Interactions/js/main.js:2472-2483 | one smoothing update leaves a gap of `(1 - rate)` times the old one, lands between value and target, and for a rate in (0, 1) moves without arriving |
| Numeric.LerpStaysInRange | Sound_Interactions/js/main.js:2472-2483 | smoothing a value in a range toward a target in the range stays in the range |
| Numeric.PowBounds | Sound_Interactions/js/main.js:2472-2483 | powers of a factor in [0, 1] stay in [0, 1], and below 1 when the factor is |
| Numeric.LerpNGap | Sound_Interactions/js/main.js:2472-2483 | after `k` smoothing updates the gap to a fixed target is `(1 - rate)^k` times the initial gap |
| Profiles.ProfileForCol | Sound_Interactions/js/main.js:1775 | a column picks `KEY_PROFILES[col % 12]`, which is its own entry for columns 0..11 |
| Profiles.KeyProfilesWellFormed | Sound_Interactions/js/main.js:916-929 | every table profile has 0/1 mirror flags, no negative field and a contrast in [1.15, 2.4] |
| Profiles.MaxFrom0 | Sound_Interactions/js/main.js:2032-2033 | the running `Math.max` from 0 is at least every element and 0 or one of them |
| Profiles.WeightedSumIsScaledSum | Sound_Interactions/js/main.js:2018-2031 | adding each field times `w` totals the field's sum times `w` |
| Profiles.BlendProfiles | Sound_Interactions/js/main.js:2016-2034 | the blend loop yields the mean of every field and the maximum from 0 of each mirror flag |
| Profiles.MirrorBlendIsFlag | Sound_Interactions/js/main.js:2032-2033 | over 0/1 flags the blended mirror flag is 0 or 1, and 1 exactly when some held profile has it set |
| Profiles.TriggerTargetsFromProfile | Sound_Interactions/js/main.js:1775-1788 | a single trigger sets the mix target to the mix it is given and every other target (folds, the seven motions, mirrors, contrast) to the profile's own field |
| Profiles.TriggerTargetsAgree | Sound_Interactions/js/main.js:1775-1788 | two profiles give the same trigger targets exactly when they agree on every field other than the mix that the targets copy |
| Profiles.ChordBoost | Sound_Interactions/js/main.js:2036 | the boost for one or more keys is at least 1 |
| Profiles.ChordTargets | Sound_Interactions/js/main.js:2036-2048 | the chord mix is at least 0.88 and 1 from four keys on, contrast is capped at 2.5, folds and mirrors come from the blend unboosted |
| Profiles.ChordTargetsOfBlend | Sound_Interactions/js/main.js:2016-2048 | over held profiles `ps`, the chord targets of their blend are: each motion target the mean of that field times `1 + (n - 1) * 0.15`, folds the mean folds, mirrors the maximum from 0, mix `min(1, 0.88 + (n - 1) * 0.04)`, contrast `min(2.5, mean contrast * boost)` |
| Profiles.ChordTargetsOfMeans | Sound_Interactions/js/main.js:2036-2048 | the same holds for any blend carrying the means and mirror maxima of `ps` |
| Profiles.ChordMotionOfMeans | Sound_Interactions/js/main.js:2038-2047 | a blend carrying the means of `ps` gives each of the seven motion targets as the boosted mean |
| Profiles.ChordShapeOfMeans | Sound_Interactions/js/main.js:2037-2048 | such a blend gives the mean folds, the mirror maxima, the chord mix and the capped boosted mean contrast |
| Profiles.BlendLook | Sound_Interactions/js/main.js:2049-2050 | such a blend carries the mean hue, and its boosted bloom and chromatic offset are the boosted means |
| Profiles.BlendSpecIsBlend | Sound_Interactions/js/main.js:2016-2034 | the blend loop's result carries the mean of every field and the maximum from 0 of each mirror flag |
| Profiles.ChordOfHeldProfiles | Sound_Interactions/js/main.js:2006-2048 | a chord of held table profiles has 0/1 mirror targets and a contrast target in [1.15, 2.5] |
| Profiles.HeldContrast | Sound_Interactions/js/main.js:2030 | the blended contrast of table profiles lies in [1.15, 2.4] |
| Profiles.ChordOfOneProfile | Sound_Interactions/js/main.js:2016-2034 | blending copies of one profile gives that profile |
| Profiles.ChordOfOneKeyIsTrigger | Sound_Interactions/js/main.js:2036-2048 | with one key the chord formula gives exactly the single-trigger targets with mix 0.88 |
| Profiles.Rate | Sound_Interactions/js/main.js:2471-2483 | every per-field smoothing rate lies strictly between 0 and 1 |
| Profiles.SmoothField | Sound_Interactions/js/main.js:2471-2483 | each field of a smoothing tick is a scalar smoothing step at that field's rate |
| Profiles.SmoothNarrowsGap | Sound_Interactions/js/main.js:2471-2483 | a tick shrinks each field's gap by exactly `1 - rate`, lands between value and target, and never reaches a target it was off |
| Profiles.SmoothNField | Sound_Interactions/js/main.js:2471-2483 | `k` ticks of a field are `k` scalar smoothing steps, hence (with `Numeric.LerpNGap`) a gap of `(1 - rate)^k` |
| Profiles.Relax | Sound_Interactions/js/main.js:2484-2487 | relaxation keeps the mix target at or above 0.1, only lowers it from above, and leaves folds, mirrors and contrast alone |
| Profiles.RelaxField | Sound_Interactions/js/main.js:2486 | each motion target is multiplied by 0.995 |
| Profiles.RelaxShrinksMotion | Sound_Interactions/js/main.js:2486 | relaxation shrinks a motion target's magnitude, keeps its sign, and changes every non-zero one |
| Profiles.DecayShrinks | Sound_Interactions/js/main.js:2486 | repeated decay by 0.995 keeps the sign and strictly shrinks a non-zero value |
| Profiles.RelaxNDecay | Sound_Interactions/js/main.js:2484-2487 | `k` relaxations decay each motion target `k` times and keep the mix target at or above 0.1 |
| Numeric.Min | Sound_Interactions/js/main.js:22 | `Math.min` is one of its arguments and no greater than either |
| Numeric.Max | Sound_Interactions/js/main.js:22 | `Math.max` is one of its arguments and no less than either |
| Profiles.BlendSpec | Sound_Interactions/js/main.js:2016-2034 | the chord blend is the mean of every field over the held profiles, and the maximum from 0 of each mirror flag |
| Profiles.MeanOfCopies | Sound_Interactions/js/main.js:2018-2031 | blending copies of one profile gives each of its fields back |
| Profiles.MaxOfCopies | Sound_Interactions/js/main.js:2032-2033 | the mirror maximum over copies of one profile is its flag, or 0 if the flag were negative |
| Profiles.MeanBounds | Sound_Interactions/js/main.js:2018-2031 | a field bounded on every held profile keeps those bounds in the blend |
| Visuals.Remove | Sound_Interactions/js/main.js:2075 | `keysPressed.delete(key)` keeps exactly the other held keys |
| Visuals.RemoveKeepsDistinct | Sound_Interactions/js/main.js:2075 | deleting from a set of distinct keys leaves them distinct |
| Visuals.RemoveAfterAdd | Sound_Interactions/js/main.js:1991-2075 | adding a key that was not held and deleting it again restores the held keys in order |
| Visuals.RemoveAbsent | Sound_Interactions/js/main.js:2075 | deleting a key that is not held changes nothing |
| Visuals.KeyCol | Sound_Interactions/js/main.js:2008-2011 | each note key's column is a grid column |
| Visuals.KeyColumnsAgree | Sound_Interactions/js/main.js:2008-2011 | a note key's column is the natural-note column of its pitch class, the one `midiToCell` picks for its note |
| Visuals.NoteProfile | Sound_Interactions/js/main.js:2008-2011 | the profile a note key contributes to a chord is a well-formed table profile |
| Visuals.HeldProfilesOfNoteKeys | Sound_Interactions/js/main.js:2006-2013 | with only note keys held the chord collects one profile per key, each the key's own |
| Visuals.OctaveKeysShareProfile | Sound_Interactions/js/main.js:2008-2011 | note keys an octave apart (Z and Q, X and W) pick the same profile |
| Visuals.CollectProfiles | Sound_Interactions/js/main.js:2006-2013 | the collection loop yields the held profiles, one per held note key |
| Visuals.TriggerKeepsValid | Sound_Interactions/js/main.js:1765-1789 | a trigger on a grid cell keeps the invariants, leaves the held keys, and sets its strength and mix |
| Visuals.TriggerOverwrites | Sound_Interactions/js/main.js:1765-1788 | a trigger changes only the attractor, active profile, hue and targets: the attractor to the cell, the profile to `KEY_PROFILES[col % 12]` with its hue, the mix to the given mix and every other target to the profile field |
| Visuals.TriggerForgetsPrior | Sound_Interactions/js/main.js:1765-1788 | triggers on two different prior states agree on the targets, attractor, active profile and hue |
| Visuals.LastTriggerWins | Sound_Interactions/js/main.js:1765-1788 | a trigger after a trigger gives what the second alone gives |
| Visuals.PlayedNote | Sound_Interactions/js/main.js:1992-1993 | the played note is the key's note or up to an octave above it, at most 127 |
| Visuals.KeyCellAgrees | Sound_Interactions/js/main.js:1993-1999 | the cell `midiToCell` picks for the played note is the key's column in the played note's row |
| Visuals.NoteKeyHolds | Sound_Interactions/js/main.js:1990-1991 | a note key press adds the key to the held keys unless it is already held, and changes them in no other way |
| Visuals.AddKeyKeepsValid | Sound_Interactions/js/main.js:1991 | holding a fresh note key keeps the invariants |
| Visuals.NoteKeyKeepsValid | Sound_Interactions/js/main.js:1986-2064 | a note key press keeps the invariants |
| Visuals.ChordStageEffects | Sound_Interactions/js/main.js:2000-2064 | the chord stage keeps the invariants, the held keys and the attractor; two or more held keys give a mix in [0.88, 1] and a contrast of at most 2.5, five or more the full mix and pad, fewer than two leave the targets (the exact targets are `ChordStageTargets`) |
| Visuals.ChordStageTargets | Sound_Interactions/js/main.js:2001-2048 | with two or more held keys and profiles the chord targets are those of the means of the held profiles (`ChordOfMeans`) |
| Visuals.ChordStageLook | Sound_Interactions/js/main.js:2049-2050 | in that case the hue is the mean hue and the active profile keeps its fields but takes the boosted mean bloom and chromatic offset |
| Visuals.ChordStateLook | Sound_Interactions/js/main.js:2049-2050 | the same for any blend carrying the means of the held profiles |
| Visuals.ChordStageFrame | Sound_Interactions/js/main.js:2001-2064 | the chord stage changes only the targets, hue, active profile and pad, and fills the pad exactly when five or more keys are held |
| Visuals.NoteKeyEffects | Sound_Interactions/js/main.js:1986-2064 | a fresh note key ends up held, moves the attractor to its played note, keeps the invariants and gives a mix in [0.88, 1], a contrast of at most 2.5 with another key held, and the full pad from five keys (exact targets in `NoteKeyAlone` and `NoteKeyChord`) |
| Visuals.NoteKeyAlone | Sound_Interactions/js/main.js:1986-2004 | a note key pressed alone sets the active profile and hue from its own profile, the mix to 0.88, and every other target to its profile's field |
| Visuals.NoteKeyChord | Sound_Interactions/js/main.js:1986-2050 | a fresh note key pressed with others held makes the targets of the chord of all held profiles' means, the mean hue and the boosted mean bloom and chromatic offset over its own profile |
| Visuals.ChordOfNoteKeys | Sound_Interactions/js/main.js:2001-2050 | with two or more note keys held the chord stage gives the chord of the held profiles' means and the mean look |
| Visuals.NoteKeyIdempotent | Sound_Interactions/js/main.js:1990 | pressing a held note key again changes nothing |
| Visuals.PressThenRelease | Sound_Interactions/js/main.js:1991-2075 | releasing a freshly pressed note key restores the held keys |
| Visuals.KeyDownKeepsValid | Sound_Interactions/js/main.js:1917-2064 | every key press keeps the invariants |
| Visuals.KeyDownIgnoredKeys | Sound_Interactions/js/main.js:1917-1971 | auto-repeats, the sustain pedal, the mode keys 1-4 and unmapped keys change no visual state |
| Visuals.VolumeKeys | Sound_Interactions/js/main.js:1952-1964 | the volume keys move the volume by at most 0.08 within [0.05, 1], Minus down and Equal up |
| Visuals.KeyUpUndoesKeyDown | Sound_Interactions/js/main.js:1986-2075 | a note key's press and release give back the held keys |
| Visuals.TickKeepsValid | Sound_Interactions/js/main.js:2409-2526 | a frame keeps the invariants, the held keys and the attractor's place, keeps the pad at 0.55 or more under five keys, and never raises the strength |
| Visuals.FrozenTickKeepsTargets | Sound_Interactions/js/main.js:2484-2526 | while frozen the targets do not relax and the attractor does not decay |
| Visuals.ArpKeepsValid | Sound_Interactions/js/main.js:2249-2261 | an arpeggiator step keeps the invariants and the held keys |
| Visuals.ArpPlaysWithHeldKeys | Sound_Interactions/js/main.js:2249-2261 | with note keys held, a step triggers the visuals for the note `lowest held note + pattern[arpIndex % |pattern|]` and advances the index by one |
| Visuals.ArpStateStep | Sound_Interactions/js/main.js:2250-2259 | with keys held and a root at most 120, a step is the note trigger for `root + pattern[arpIndex % |pattern|]` followed by advancing the index |
| Visuals.Instrument.constructor | Sound_Interactions/js/main.js:875-930 | the start-up state: attractor at the origin with strength 0, first profile, hue 0.55, six folds, mix 0.15, volume 0.4, zoom 1, nothing held, idle at rest |
| Visuals.Instrument.Trigger | Sound_Interactions/js/main.js:1741-1761 | the shared trigger body moves the attractor to the cell and takes profile, hue and targets from the column's profile |
| Visuals.Instrument.TriggerCell | Sound_Interactions/js/main.js:1736-1763 | `triggerCell` is the trigger with strength 1.2 and mix 0.88, and the spectrum column read back is the cell's column |
| Visuals.Instrument.TriggerVisualsForDrum | Sound_Interactions/js/main.js:1613-1639 | a drum triggers column `index % 12` of the middle row with strength 1.1 and mix 0.75 |
| Visuals.Instrument.TriggerVisualsForMidi | Sound_Interactions/js/main.js:1765-1789 | a note triggers the cell `midiToCell` picks with strength 1.2 and mix 0.88 |
| Visuals.Instrument.AddKey | Sound_Interactions/js/main.js:1991 | the key is appended to the held keys and nothing else changes |
| Visuals.Instrument.PressNoteKey | Sound_Interactions/js/main.js:1986-2064 | the note-key branch of `onKeyDown` computes the note-key state |
| Visuals.Instrument.TriggerNoteKey | Sound_Interactions/js/main.js:1992-1999 | the played note triggers the visuals on the key's own cell |
| Visuals.Instrument.ChordAndPad | Sound_Interactions/js/main.js:2000-2064 | the block computes the chord stage; with two or more held keys and profiles its targets, hue and active profile are the boosted means of the held profiles (`ChordOfMeans`, `ChordLookOfMeans`) |
| Visuals.Instrument.ApplyChord | Sound_Interactions/js/main.js:2036-2050 | for the blend of held profiles `ps`, the targets are the boosted means of `ps` and the hue the mean hue; the active profile keeps its other fields and takes the boosted mean bloom and chromatic offset |
| Visuals.Instrument.PressDrumKey | Sound_Interactions/js/main.js:1981-1982 | a drum key triggers the drum visuals for its pad number |
| Visuals.Instrument.KeyUp | Sound_Interactions/js/main.js:2066-2081 | a note key leaves the held keys and any other key changes nothing, keeping the invariants |
| Visuals.Instrument.VolumeDown | Sound_Interactions/js/main.js:1952-1957 | Minus lowers the volume by 0.08, not below 0.05 |
| Visuals.Instrument.VolumeUp | Sound_Interactions/js/main.js:1959-1964 | Equal or keypad plus raises the volume by 0.08, not above 1 |
| Visuals.Instrument.FreezeVisuals | Sound_Interactions/js/main.js:1944-1949 | Digit 5 freezes the visuals until 2 s from now |
| Visuals.Instrument.PressEscape | Sound_Interactions/js/main.js:1927-1934 | Escape closes an open help overlay and otherwise resets the zoom to 1 |
| Visuals.Instrument.Wheel | Sound_Interactions/js/main.js:2323-2327 | the wheel changes the zoom by 0.05 per event within [0.4, 2.5] |
| Visuals.Instrument.DoubleClick | Sound_Interactions/js/main.js:2330-2341 | a double click is the cell trigger followed by strength 2.5, full mix and a full pad |
| Visuals.Instrument.KeyDown | Sound_Interactions/js/main.js:1917-2064 | `onKeyDown` dispatches on the key code to the key-down state and keeps the invariants |
| Visuals.Instrument.FadePad | Sound_Interactions/js/main.js:2415-2416 | the pad fades by 4% a frame, held at 0.55 or more by five held keys |
| Visuals.Instrument.StepIdle | Sound_Interactions/js/main.js:2422-2442 | one idle-machine frame, idle when no key is held and the strength is below 0.06 |
| Visuals.Instrument.SmoothAndRelax | Sound_Interactions/js/main.js:2471-2487 | the current values take one smoothing tick, and the targets relax when unfrozen with a weak attractor |
| Visuals.Instrument.DecayAttractor | Sound_Interactions/js/main.js:2526 | with the particle path and unfrozen the attractor strength is multiplied by 0.92 |
| Visuals.Instrument.Tick | Sound_Interactions/js/main.js:2409-2545 | one animation frame computes the tick state, keeps the invariants, and returns the spectrum column under the attractor |
| Visuals.Instrument.ArpTick | Sound_Interactions/js/main.js:2249-2261 | the arpeggiator callback computes the arpeggiator step and keeps the invariants |
| Visuals.Instrument.PlayArp | Sound_Interactions/js/main.js:2250-2261 | the callback body finds the lowest held note, plays the pattern offset at `arpIndex % |pattern|` above it, and advances the index |
| Visuals.Instrument.UpdateAudioLevels | Sound_Interactions/js/main.js:2135-2157 | before the analyser exists a call only creates it, and only once the audio context exists; later calls set exactly the levels of the reading, all in [0, 1] for byte bins |
| Visuals.Instrument.UpdateMicLevel | Sound_Interactions/js/main.js:2194-2203 | with the mic on the gated level is stored and the smoothed level takes one 11% step toward it, staying in [0, 1] |
| Gpu.RenderRestores | Sound_Interactions/js/vendor/GPUComputationRenderer.js:95-115 | a render logs exactly one render of the material into the output with XR and shadows off, and restores target, XR, shadow flags and the pass-through mesh; a copy also clears the pass-through input |
| Gpu.DepNames | Sound_Interactions/js/vendor/GPUComputationRenderer.js:134-136 | the dependency names are the names of the dependency variables, in order |
| Gpu.Declare | Sound_Interactions/js/vendor/GPUComputationRenderer.js:133-139 | the dependency loop keeps the variable's name, texture, dependencies and targets |
| Gpu.DeclareEffects | Sound_Interactions/js/vendor/GPUComputationRenderer.js:133-139 | after the dependency loop the shader text is the declarations in reverse dependency order before the original text, every dependency has a `null` sampler, and other uniforms are untouched |
| Gpu.DepNamesByName | Sound_Interactions/js/vendor/GPUComputationRenderer.js:135-136 | the names bound depend on the variables' names only |
| Gpu.SetUpDeclares | Sound_Interactions/js/vendor/GPUComputationRenderer.js:125-139 | `init` gives each variable its two targets, a `null` sampler and a declaration per dependency, and keeps name, texture, dependencies and other uniforms |
| Gpu.InitLog | Sound_Interactions/js/vendor/GPUComputationRenderer.js:129-130 | `init` makes two copies of each initial texture |
| Gpu.InitLogContents | Sound_Interactions/js/vendor/GPUComputationRenderer.js:129-130 | the copies of variable `j` are renders `2j` and `2j + 1`, into its slot 0 and then slot 1 |
| Gpu.InitProgressKeeps | Sound_Interactions/js/vendor/GPUComputationRenderer.js:125-140 | before pass `i` of `init` the variables still to set up are untouched and every name is kept |
| Gpu.InitProgressStep | Sound_Interactions/js/vendor/GPUComputationRenderer.js:125-140 | pass `i` of `init`'s loop extends the progress by variable `i` |
| Gpu.InitProgressDone | Sound_Interactions/js/vendor/GPUComputationRenderer.js:117-143 | the finished loop followed by the index reset is `init`'s outcome |
| Gpu.InitErrors | Sound_Interactions/js/vendor/GPUComputationRenderer.js:119-124 | 'No float texture support' exactly without WebGL 2 and float textures, checked first; 'No vertex shader texture support' exactly without vertex textures; an error changes nothing |
| Gpu.InitSetsUp | Sound_Interactions/js/vendor/GPUComputationRenderer.js:117-143 | a successful `init` leaves two targets per variable, the index 0, the renderer's target and flags restored, and two logged copies per variable |
| Gpu.CurrentTargetAfterInit | Sound_Interactions/js/vendor/GPUComputationRenderer.js:141-162 | right after `init` every variable's current target is its slot 0, holding a copy of its initial texture |
| Gpu.BindInputsEffects | Sound_Interactions/js/vendor/GPUComputationRenderer.js:150-154 | after binding, each dependency name's sampler refers to the slot-`cur` target of a dependency of that name; other uniforms are untouched |
| Gpu.BindInputsByShape | Sound_Interactions/js/vendor/GPUComputationRenderer.js:150-154 | binding depends only on the variables' names and targets |
| Gpu.ComputeProgressStep | Sound_Interactions/js/vendor/GPUComputationRenderer.js:148-156 | before pass `i` of `compute` the variables keep their shape and variable `i` is untouched; pass `i` extends the progress |
| Gpu.ComputeProgressDone | Sound_Interactions/js/vendor/GPUComputationRenderer.js:145-158 | the finished loop followed by the index flip is `compute`'s outcome |
| Gpu.ComputeFlips | Sound_Interactions/js/vendor/GPUComputationRenderer.js:145-158 | `compute` flips the index between 0 and 1, keeps the variables' shape and the renderer's target and flags, and two computes restore the index |
| Gpu.ComputeReadsPrevious | Sound_Interactions/js/vendor/GPUComputationRenderer.js:146-155 | in one `compute` each variable writes its slot-`next` target while all its samplers read slot-`cur` targets of its dependencies |
| Gpu.CurrentTargetAfterCompute | Sound_Interactions/js/vendor/GPUComputationRenderer.js:157-162 | after `compute` a variable's current target is the one it wrote in that pass |
| Gpu.Gl.Render | Sound_Interactions/js/vendor/GPUComputationRenderer.js:110 | `renderer.render` logs one render into the current target and changes no renderer flag |
| Gpu.ComputeRenderer.constructor | Sound_Interactions/js/vendor/GPUComputationRenderer.js:28-45 | no variables, index 0, the mesh on the pass-through shader with a `null` input |
| Gpu.ComputeRenderer.AddVariable | Sound_Interactions/js/vendor/GPUComputationRenderer.js:52-67 | a new variable with `null` dependencies, no targets and no dependency uniforms is appended, and its index returned |
| Gpu.ComputeRenderer.SetVariableDependencies | Sound_Interactions/js/vendor/GPUComputationRenderer.js:69-71 | only that variable's dependencies change |
| Gpu.ComputeRenderer.DoRenderTarget | Sound_Interactions/js/vendor/GPUComputationRenderer.js:101-115 | the render-and-restore of `RenderState` |
| Gpu.ComputeRenderer.RenderTexture | Sound_Interactions/js/vendor/GPUComputationRenderer.js:95-99 | the pass-through copy of `RenderTextureState` |
| Gpu.ComputeRenderer.Init | Sound_Interactions/js/vendor/GPUComputationRenderer.js:117-143 | `init`'s error value and new state are those of `InitOutcome` for the renderer's capabilities |
| Gpu.ComputeRenderer.SetUpVariables | Sound_Interactions/js/vendor/GPUComputationRenderer.js:125-140 | `init`'s loop sets up every variable in order |
| Gpu.ComputeRenderer.SetUpVariable | Sound_Interactions/js/vendor/GPUComputationRenderer.js:126-139 | one pass of `init`'s loop |
| Gpu.ComputeRenderer.DeclareDependencies | Sound_Interactions/js/vendor/GPUComputationRenderer.js:133-139 | the dependency loop computes `Declare` over the dependency names |
| Gpu.ComputeRenderer.Compute | Sound_Interactions/js/vendor/GPUComputationRenderer.js:145-158 | `compute`'s new state is `ComputeState` and the scheduler stays initialised |
| Gpu.ComputeRenderer.ComputeVariables | Sound_Interactions/js/vendor/GPUComputationRenderer.js:148-156 | `compute`'s loop runs every variable in order |
| Gpu.ComputeRenderer.ComputeVariable | Sound_Interactions/js/vendor/GPUComputationRenderer.js:149-155 | one pass of `compute`'s loop |
| Gpu.ComputeRenderer.BindDependencies | Sound_Interactions/js/vendor/GPUComputationRenderer.js:150-154 | the dependency loop binds each sampler to its dependency's slot-`cur` target |
| Field.FieldStep | Sound_Interactions/js/main.js:76-106 | every particle takes the position step and the velocity step from its own pre-step values |
| Field.FieldStepBounds | Sound_Interactions/js/main.js:92-103 | whatever the curl and force, after a step every velocity component is in [-0.07, 0.07] and every position component in [-1.22, 1.22] |
| Field.ClampCloser | Sound_Interactions/js/main.js:102-103 | clamping into the box moves a point no further from a point inside the box |
| Field.ParticleDisplacement | Sound_Interactions/js/main.js:102-103 | a particle in the box with a bounded speed moves at most 0.0014 along each axis per step |
| Field.QuietStep | Sound_Interactions/js/main.js:92-103 | without curl and force a bounded velocity is just damped by 0.97, and a particle away from the walls moves by exactly 0.02 times its velocity |
| Field.PositionReadsPreviousVelocity | Sound_Interactions/js/main.js:568-576 | in the field's wiring the position pass reads the velocity target of the previous step while the velocity pass writes the other slot |
| Field.FieldVariablesInit | Sound_Interactions/js/main.js:568-576 | the field's two variables meet the scheduler's requirements and a successful `init` initialises both |
| Server.StripQuery | Sound_Interactions/server.js:23 | `split('?')[0]` is the prefix of the URL before its first '?', and contains no '?' |
| Server.RequestPathProperties | Sound_Interactions/server.js:22-23 | the path never carries a query, a query-free URL other than `/` is kept, `/` is `/index.html`, and stripping twice is stripping once |
| Server.StripNoQuery | Sound_Interactions/server.js:23 | a URL without '?' is unchanged by the split |
| Server.RootWithQueryNotRewritten | Sound_Interactions/server.js:22-23 | `/` with a query is not rewritten to the index page: the rewrite looks at the whole URL, so the path is `/` |
| Server.ContentTypeChoice | Sound_Interactions/server.js:8-19 | the default type is given exactly to extensions outside the table; HTML is UTF-8 text; empty and unknown extensions are binary |
| Server.RespondStatus | Sound_Interactions/server.js:26-41 | 200 exactly for a successful read, with the file's bytes and the extension's type; 404 exactly for ENOENT and 500 for every other error, both as plain text |
| Server.RootServesIndex | Sound_Interactions/server.js:21-41 | requests for `/` and `/index.html` get the same response |
| Server.RetriesCountUp | Sound_Interactions/server.js:52-56 | after k address-in-use errors the listener is on port p + k and has tried p, p + 1, ..., p + k in order |
| Server.OtherErrorStops | Sound_Interactions/server.js:57-59 | any other error ends the process: later errors change nothing and the port stays |
| Server.Listener.constructor | Sound_Interactions/server.js:5-62 | the first port is `PORT` or 3000, and it is listened on once |
| Server.Listener.TryListen | Sound_Interactions/server.js:46-50 | listening appends the current port to the ports tried |
| Server.Listener.OnError | Sound_Interactions/server.js:52-60 | the error handler's new state is `OnErrorStep`'s, and it throws exactly the errors other than address-in-use |
| Tracker.AbsInt | Sound_Interactions/js/main.js:1024-1025 | `Math.abs` of a channel difference is non-negative and is the difference or its negation |
| Tracker.PixelInFrame | Sound_Interactions/js/main.js:1019-1020 | the RGB bytes of pixel (x, y) at `(y * cw + x) * 4` lie inside a frame of `cw * ch * 4` bytes |
| Tracker.ColourDiff | Sound_Interactions/js/main.js:1024 | the summed absolute RGB difference of two pixels is non-negative |
| Tracker.PixelContrast | Sound_Interactions/js/main.js:1021-1026 | the neighbour contrast of a pixel is non-negative and counted only when both neighbours two steps right and down lie in the column and band |
| Tracker.PixelMotion | Sound_Interactions/js/main.js:1027-1031 | the weighted difference to the previous frame is non-negative, and absent without a previous frame |
| Tracker.ColumnsFit | Sound_Interactions/js/main.js:1008-1015 | each of the 16 columns of width `floor(cw / 16)` ends inside the frame, so `Math.min(x0 + colW, cw)` equals the head tracker's `x0 + colW` |
| Tracker.ColumnEnergies | Sound_Interactions/js/main.js:1013-1035 | there are exactly 16 column energies |
| Tracker.RowNonNegative | Sound_Interactions/js/main.js:1018-1032 | a row's contrast and motion sums are non-negative |
| Tracker.BandNonNegative | Sound_Interactions/js/main.js:1017-1033 | a column band's contrast and motion sums are non-negative |
| Tracker.EnergiesNonNegative | Sound_Interactions/js/main.js:1013-1035 | every column energy and every column's motion is non-negative |
| Tracker.RowMotionSameFrame | Sound_Interactions/js/main.js:1027-1031 | a row compared with the same frame has no motion |
| Tracker.BandMotionSameFrame | Sound_Interactions/js/main.js:1017-1033 | a band compared with the same frame has no motion |
| Tracker.MotionSameFrame | Sound_Interactions/js/main.js:1013-1035 | compared with itself a frame has zero total motion and the same column energies as with no previous frame |
| Tracker.RowNoPrevious | Sound_Interactions/js/main.js:1027 | without a previous frame a row has no motion |
| Tracker.BandNoPrevious | Sound_Interactions/js/main.js:1027 | without a previous frame a band has no motion |
| Tracker.RowContrastAnyPrevious | Sound_Interactions/js/main.js:1021-1026 | a row's contrast does not depend on the previous frame |
| Tracker.BandContrastAnyPrevious | Sound_Interactions/js/main.js:1021-1026 | a band's contrast does not depend on the previous frame |
| Tracker.RowEnergy | Sound_Interactions/js/main.js:1018-1032 | the `x` loop accumulates exactly the row's contrast plus weighted motion, and the motion alone |
| Tracker.PixelEnergy | Sound_Interactions/js/main.js:1019-1031 | one pixel adds its contrast and weighted motion to the energy, and the motion to the motion total |
| Tracker.BandEnergy | Sound_Interactions/js/main.js:1017-1033 | the `y` loop accumulates exactly the band's contrast plus weighted motion, and the motion alone |
| Tracker.FillColumnEnergies | Sound_Interactions/js/main.js:1005-1035 | the column loop fills a fresh 16-entry array with the column energies and returns the total motion over all columns |
| Tracker.HandSmooth | Sound_Interactions/js/main.js:1037-1043 | the `[1, 2, 1]` smoothing yields 16 values |
| Tracker.HeadSmooth | Sound_Interactions/js/main.js:1252-1260 | the `[0.5, 1, 2, 1, 0.5]` smoothing yields 16 values |
| Tracker.SmoothNonNegative | Sound_Interactions/js/main.js:1037-1043 | both kernels keep non-negative energies non-negative, and a column with energy keeps a positive smoothed value |
| Tracker.PeakScan | Sound_Interactions/js/main.js:1046-1048 | the peak loop returns its starting column or one of the columns it scanned |
| Tracker.Peak | Sound_Interactions/js/main.js:1044-1048 | the peak starts at column 8 with value 0 and is 8 or a column index |
| Tracker.PeakScanCorrect | Sound_Interactions/js/main.js:1046-1048 | the loop's result is the first strict maximum when some value is positive, and column 8 when none is |
| Tracker.PeakIsFirstMaximum | Sound_Interactions/js/main.js:1044-1048 | the peak is column 8 when no smoothed value is positive, and otherwise the first column holding the positive maximum |
| Tracker.WeightedBounds | Sound_Interactions/js/main.js:1051 | a value weighted by its column centre `c + 0.5` lies between 0.5 and 15.5 times the value |
| Tracker.WindowBounds | Sound_Interactions/js/main.js:1049-1053 | over the window the weight total is non-negative and the weighted sum lies between 0.5 and 15.5 times it |
| Tracker.CentroidRange | Sound_Interactions/js/main.js:1049-1055 | the centroid is 0.5 for a window without weight and always lies in [0.5/16, 15.5/16], so `1 - centroid` is strictly inside (0, 1) |
| Tracker.SmoothHandColumns | Sound_Interactions/js/main.js:1037-1043 | the smoothing loop fills a fresh array with the `[1, 2, 1]` smoothing of the energies |
| Tracker.SmoothHeadColumns | Sound_Interactions/js/main.js:1252-1260 | the smoothing loop fills a fresh array with the `[0.5, 1, 2, 1, 0.5]` smoothing of the energies |
| Tracker.PeakColumn | Sound_Interactions/js/main.js:1263-1267 | the peak loop returns the peak column |
| Tracker.Centroid | Sound_Interactions/js/main.js:1270-1275 | the window loop over `max(0, peak - 3) .. min(15, peak + 3)` returns the weighted centroid over 16, or 0.5 when the window weighs nothing |
| Tracker.TotalEnergy | Sound_Interactions/js/main.js:1278-1279 | the loop returns the sum of the column energies |
| Tracker.MotionNoPrevious | Sound_Interactions/js/main.js:1027-1031 | without a previous frame the total motion is 0 |
| Tracker.MotionNonNegative | Sound_Interactions/js/main.js:1011-1031 | the total motion is non-negative |
| Tracker.HandStepSwipe | Sound_Interactions/js/main.js:1057-1065 | a reading is a fast swipe exactly when it moved at least 0.22 * 0.033 since the last one, which records the time in seconds and the direction; otherwise the last swipe is kept; the position moves a quarter of the way and knob 1 is it clamped to [0, 1] |
| Tracker.HandStepMotion | Sound_Interactions/js/main.js:1067-1069 | knob 2 is the motion level, a fifth of the way to `min(1, motion / 800)`: stays in [0, 1], decays by a fifth with no motion, and does not fall at full motion |
| Tracker.HeadStepProperties | Sound_Interactions/js/main.js:1280-1295 | the confidence is 0.1 at or below 1600 (mode `low`), `total / 8000` up to 8000 and 1 beyond (mode `tracking`); the head moves 39% to 75% of the way to the reading and stays in [0, 1] |
| Tracker.ReadingsInRange | Sound_Interactions/js/main.js:1049-1055 | both the hand and the head readings `1 - centroid` lie strictly inside (0, 1), and the motion and energy totals are non-negative |
| Tracker.EnergyNonNegative | Sound_Interactions/js/main.js:1278-1279 | a sum of non-negative column energies is non-negative |
| Tracker.DetectHeadGuards | Sound_Interactions/js/main.js:1174-1204 | a detection that is inactive, on a video without data or within 33 ms of the last one changes nothing; one that runs records the time and saves the frame; with a face detector the head estimate is untouched |
| Tracker.SkinPathHandSeesNoMotion | Sound_Interactions/js/main.js:1243-1248 | because the frame is saved before the hand reading, the path without a face detector gives the hand tracker zero motion, so knob 2 only decays |
| Tracker.HandStepCalibrated | Sound_Interactions/js/main.js:1057-1069 | a hand step from calibrated state on a reading in (0, 1) keeps positions and knobs in [0, 1] and the swipe direction in {-1, 0, 1} |
| Tracker.DetectHeadCalibrated | Sound_Interactions/js/main.js:933-957 | the initial tracker state is calibrated and every detection keeps it calibrated |
| Tracker.Tracker.constructor | Sound_Interactions/js/main.js:933-956 | the tracker starts with hand at 0.5, knobs 0.5 and 0, no swipe, head centred, no detection and no saved frame |
| Tracker.Tracker.ApplyHandReading | Sound_Interactions/js/main.js:1057-1069 | the hand state becomes the hand step of the reading; nothing else changes |
| Tracker.Tracker.DetectHandGesture | Sound_Interactions/js/main.js:1004-1072 | the hand state becomes the step of the frame's hand reading, against the saved frame when `hasPrev`; nothing else changes |
| Tracker.Tracker.SaveFrame | Sound_Interactions/js/main.js:1244-1245 | the saved frame becomes a copy of the new frame, allocated only the first time |
| Tracker.Tracker.ReadHead | Sound_Interactions/js/main.js:1252-1279 | the head reading is `1 - centroid` of the smoothed energies around their peak, with the energy total |
| Tracker.Tracker.ApplyHeadReading | Sound_Interactions/js/main.js:1282-1295 | the head state becomes the head step of the reading; nothing else changes |
| Tracker.Tracker.DetectBySkin | Sound_Interactions/js/main.js:1210-1296 | the state becomes the skin path: head energies against the saved frame, save, hand reading against the frame just saved, head step |
| Tracker.Tracker.DetectHeadPosition | Sound_Interactions/js/main.js:1173-1297 | one call of the detection loop changes the state exactly as the detection function does |

## Left out

- The face detector's asynchronous result (`faceDetector.detect(...).then`) is left out, because it resolves outside the detection call. On that path the model leaves the head estimate unchanged.
- Float32 storage and IEEE rounding are not modelled, because numbers are Dafny reals. The head band's `Math.floor(ch * 0.05)` and `Math.floor(ch * 0.85)` are modelled as `ch * 5 / 100` and `ch * 85 / 100`.
- A canvas resize, which would change the frame length against the saved frame, is not modelled. `Tracker.Tracker.Valid` keeps the saved frame at the size given to the constructor, which is 240 x 180 on the page.
- The null guards on `headVideo` and `headCtx` are folded into the `active` flag of `DetectHeadPosition`.
- The hand tracker's `Math.min(x0 + colW, cw)` differs from the head tracker's `x0 + colW`. `Tracker.ColumnsFit` proves that the two bounds agree.
- `FAST_SWIPE_DURATION` and `prevHandFrameData` are declared but never read in the tracker functions, so they are not modelled.
- DOM work is not modelled, because it is presentation only. This covers the HUD, the gesture and head bars, toasts, the help overlay and the CSS classes.
- Three.js scene rendering is not modelled, and neither are `burstRingTime` and `sparkleTime`. They drive decorative layers only.
- Audio synthesis is not modelled, because it is Web Audio library code. This covers `playNote`, drums, voices, reverb and the analyser node itself.
- Ambient mode, gyroscope input, touch input, mouse velocity and camera yaw are left out, because they are outside the modelled handlers.
- `performance.now()` becomes an explicit time parameter. The `Math.random()` choices become parameters: the double-click cell and the arpeggio pattern.
- The curl noise and the attractor force of the velocity shader are given vectors, because they are trigonometric and inverse-square float math.
- The velocity variable's scalar uniforms (time, attractor, distortion values) are not modelled. They only feed the curl and force inputs.
- Texture contents are abstract numbers. Shader defines, the resolution, the options of `createRenderTarget`, `setDataType` and `createTexture` are not modelled. The WebGL renderer appears only as the state `doRenderTarget` saves and restores, and as a log of renders.
- Variables are held by value, and their dependencies are indices into the variable list rather than object references.
- Gpu.ComputeRenderer.Compute requires that `init` has run, because `compute` before `init` reads render targets that do not exist yet.
- Gpu.ComputeRenderer.GetCurrentRenderTarget is an accessor without a contract of its own. What it returns after `init` and after `compute` is stated by the `CurrentTargetAfter*` lemmas.
- Node's `path.join`, `path.extname` and `fs.readFile` enter `Server.Handle` as function parameters, because they are library code.
- The `PORT` environment variable is an `Option<nat>`. A non-numeric or empty string is not modelled.
- Console logging is not modelled.
- Visuals.Instrument.UpdateAudioLevels: whether the audio context exists is the `audioStarted` parameter, because `initAudio`, which creates the context on the first user gesture, is Web Audio code. Connecting the compressor to the new analyser is not modelled.
- Audio.BandLevels and Visuals.Instrument.UpdateAudioLevels require at least 7 bins. With fewer, a band is empty and the JavaScript division yields NaN or Infinity.
