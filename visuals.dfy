/** The instrument's visual state engine: the module-level state of the
    page script (attractor, distortion targets and current values, held
    keys, idle machine, controls) as one object, with the event handlers
    and the per-frame update as its methods. */
module Visuals {
  import opened Numeric
  import opened Grid
  import opened Notes
  import opened Profiles
  import opened Idle
  import opened Audio

  /** The particle attractor: position, strength and the grid cell it came from. */
  datatype Attractor = Attractor(pos: Vec3, strength: real, col: int, row: int)

  /** A snapshot of every field of the instrument. */
  datatype InstrumentState = InstrumentState(
    attractor: Attractor, activeProfile: Profile, keyHue: real,
    tgt: Params, cur: Params, keysPressed: seq<Code>, idle: IdleState,
    padLevel: real, masterVolume: real, zoomLevel: real, visualFreezeUntil: real,
    arpIndex: nat, levels: Levels, analyserReady: bool, micLevel: real, micSmoothed: real)

  predicate Distinct(keys: seq<Code>)
  {
    forall i, j :: 0 <= i < j < |keys| ==> keys[i] != keys[j]
  }

  /** The invariants every handler keeps. */
  predicate ValidState(s: InstrumentState)
  {
    Distinct(s.keysPressed) && (forall k :: k in s.keysPressed ==> IsNoteKey(k))
    && 0.05 <= s.masterVolume <= 1.0 && 0.4 <= s.zoomLevel <= 2.5
    && 0.0 <= s.padLevel <= 1.0 && Bounded(s.idle)
    && s.attractor.strength >= 0.0 && ValidCell(Cell(s.attractor.col, s.attractor.row))
    && 0.1 <= s.tgt.mix <= 1.0
    && 0.0 <= s.micSmoothed <= 1.0
  }

  /** `keysPressed.delete(k)`: the set without `k`, order kept. */
  function Remove(keys: seq<Code>, k: Code): (r: seq<Code>)
    ensures forall x :: x in r <==> x in keys && x != k
    ensures |r| <= |keys|
  {
    if keys == [] then []
    else if keys[0] == k then Remove(keys[1..], k)
    else [keys[0]] + Remove(keys[1..], k)
  }

  lemma {:induction false} RemoveKeepsDistinct(keys: seq<Code>, k: Code)
    requires Distinct(keys)
    ensures Distinct(Remove(keys, k))
  {
    if keys != [] {
      var rest := keys[1..];
      assert Distinct(rest) by {
        forall i, j | 0 <= i < j < |rest| ensures rest[i] != rest[j] {
          assert rest[i] == keys[i + 1] && rest[j] == keys[j + 1];
        }
      }
      RemoveKeepsDistinct(rest, k);
      if keys[0] != k {
        assert keys[0] !in rest;
        var r := [keys[0]] + Remove(rest, k);
        forall i, j | 0 <= i < j < |r| ensures r[i] != r[j] {
          if i == 0 {
            assert r[j] in Remove(rest, k);
          } else {
            assert r[i] == Remove(rest, k)[i - 1] && r[j] == Remove(rest, k)[j - 1];
          }
        }
      }
    }
  }

  /** Pressing a key that was not held and releasing it again leaves the
      held set as it was, in order. */
  lemma {:induction false} RemoveAfterAdd(keys: seq<Code>, k: Code)
    requires k !in keys
    ensures Remove(keys + [k], k) == keys
  {
    if keys == [] {
      assert [k][1..] == [];
    } else {
      assert (keys + [k])[1..] == keys[1..] + [k];
      RemoveAfterAdd(keys[1..], k);
      assert [keys[0]] + keys[1..] == keys;
    }
  }

  /** Removing a key that is not held changes nothing. */
  lemma {:induction false} RemoveAbsent(keys: seq<Code>, k: Code)
    requires k !in keys
    ensures Remove(keys, k) == keys
  {
    if keys != [] {
      RemoveAbsent(keys[1..], k);
      assert [keys[0]] + keys[1..] == keys;
    }
  }

  /** The grid column of a note key's note: the column of its pitch class. */
  function KeyCol(code: Code): (col: nat)
    requires IsNoteKey(code)
    ensures col < GridCols
  {
    match code
    case KeyZ => 0 case KeyX => 2 case KeyC => 3 case KeyV => 4
    case KeyB => 5 case KeyN => 7 case KeyM => 8
    case KeyQ => 0 case KeyW => 2 case KeyE => 3 case KeyR => 4
    case KeyT => 5 case KeyY => 7 case KeyU => 8
    case KeyI => 0 case KeyO => 2 case KeyP => 3
    case BracketLeft => 4 case BracketRight => 5
  }

  /** The key's column is the natural-note column of its pitch class, which
      is the one `midiToCell` picks for the key's note. */
  lemma KeyColumnsAgree(code: Code)
    requires IsNoteKey(code)
    ensures NoteOf(code) % 12 in SemitoneToCol && KeyCol(code) == SemitoneToCol[NoteOf(code) % 12]
    ensures KeyCol(code) == MidiToCell(NoteOf(code)).col
  {
    KeyColOfPitchClass(code);
    KeyNoteNatural(code);
    NaturalNoteCell(NoteOf(code));
  }

  lemma KeyColOfPitchClass(code: Code)
    requires IsNoteKey(code)
    ensures NoteOf(code) % 12 in SemitoneToCol && KeyCol(code) == SemitoneToCol[NoteOf(code) % 12]
  {
  }

  /** The profile a note key selects: `KEY_PROFILES[midiToCell(note).col % 12]`
      (the column taken from `KeyCol`, which `KeyColumnsAgree` ties to
      `midiToCell`). */
  function NoteProfile(code: Code): (p: Profile)
    requires IsNoteKey(code)
    ensures WellFormed(p)
  {
    KeyProfilesWellFormed(KeyCol(code));
    ProfileForCol(KeyCol(code))
  }

  /** The profiles collected for a chord: one per held note key, in holding order. */
  function HeldProfiles(keys: seq<Code>): seq<Profile>
  {
    if keys == [] then []
    else
      var rest := HeldProfiles(keys[..|keys| - 1]);
      var k := keys[|keys| - 1];
      if IsNoteKey(k) then rest + [NoteProfile(k)] else rest
  }

  /** When every held key is a note key there is one profile per key, each
      the key's own, and all are well formed. */
  lemma {:induction false} HeldProfilesOfNoteKeys(keys: seq<Code>)
    requires forall k :: k in keys ==> IsNoteKey(k)
    ensures |HeldProfiles(keys)| == |keys|
    ensures forall i :: 0 <= i < |keys| ==> HeldProfiles(keys)[i] == NoteProfile(keys[i])
    ensures forall i :: 0 <= i < |keys| ==> WellFormed(HeldProfiles(keys)[i])
  {
    if keys != [] {
      var prefix := keys[..|keys| - 1];
      var last := keys[|keys| - 1];
      assert forall k :: k in prefix ==> k in keys;
      HeldProfilesOfNoteKeys(prefix);
      assert last in keys;
      var hp := HeldProfiles(prefix);
      assert HeldProfiles(keys) == hp + [NoteProfile(last)];
      forall i | 0 <= i < |keys|
        ensures HeldProfiles(keys)[i] == NoteProfile(keys[i])
      {
        if i < |prefix| {
          assert keys[i] == prefix[i] && HeldProfiles(keys)[i] == hp[i];
        }
      }
    }
    forall i | 0 <= i < |keys|
      ensures WellFormed(HeldProfiles(keys)[i])
    {
      assert WellFormed(NoteProfile(keys[i]));
    }
  }

  /** Distinct note keys naming the same pitch class in different octaves
      pick the same profile: Z and Q both play C. */
  lemma OctaveKeysShareProfile()
    ensures NoteProfile(KeyZ) == NoteProfile(KeyQ) == KeyProfiles[0]
    ensures NoteProfile(KeyX) == NoteProfile(KeyW) == KeyProfiles[2]
  {
    assert NoteOf(KeyZ) % 12 == 0 && NoteOf(KeyQ) % 12 == 0;
    assert NoteOf(KeyX) % 12 == 2 && NoteOf(KeyW) % 12 == 2;
    assert KeyCol(KeyZ) == 0 && KeyCol(KeyQ) == 0;
    assert KeyCol(KeyX) == 2 && KeyCol(KeyW) == 2;
  }

  /** The chord loop over the held set: one profile per note key. */
  method CollectProfiles(keys: seq<Code>) returns (ps: seq<Profile>)
    ensures ps == HeldProfiles(keys)
    ensures (forall k :: k in keys ==> IsNoteKey(k)) ==> |ps| == |keys|
  {
    ps := [];
    var i := 0;
    while i < |keys|
      invariant 0 <= i <= |keys|
      invariant ps == HeldProfiles(keys[..i])
    {
      assert keys[..i + 1][..i] == keys[..i];
      var k := keys[i];
      if IsNoteKey(k) {
        ps := ps + [NoteProfile(k)];
      }
      i := i + 1;
    }
    assert keys[..|keys|] == keys;
    if forall k :: k in keys ==> IsNoteKey(k) {
      HeldProfilesOfNoteKeys(keys);
    }
  }

  /** The body shared by the three trigger functions: the attractor moves
      to the cell, and the active profile, hue and every target come from
      the column's profile, whatever they were before. */
  function TriggerState(s: InstrumentState, col: nat, row: int, strength: real, mix: real): InstrumentState
  {
    var p := ProfileForCol(col);
    s.(attractor := Attractor(CellToPosition3D(col, row), strength, col, row),
       activeProfile := p, keyHue := p.hue, tgt := TriggerTargets(p, mix))
  }

  /** `triggerVisualsForMidi`: the cell `midiToCell` picks for the note,
      strength 1.2 and mix 0.88. */
  function NoteTriggerState(s: InstrumentState, midi: int): InstrumentState
  {
    var c := MidiToCell(midi);
    TriggerState(s, c.col, c.row, 1.2, 0.88)
  }

  /** `triggerVisualsForDrum`: column `index % 12` of the middle row,
      strength 1.1 and mix 0.75. */
  function DrumTriggerState(s: InstrumentState, drumIndex: nat): InstrumentState
  {
    TriggerState(s, drumIndex % GridCols, 1, 1.1, 0.75)
  }

  /** A trigger on a grid cell, with a non-negative strength and a mix in
      [0.1, 1], keeps the invariants. */
  lemma TriggerKeepsValid(s: InstrumentState, col: nat, row: int, strength: real, mix: real)
    requires ValidState(s) && ValidCell(Cell(col, row)) && strength >= 0.0 && 0.1 <= mix <= 1.0
    ensures ValidState(TriggerState(s, col, row, strength, mix))
    ensures var t := TriggerState(s, col, row, strength, mix);
      t.keysPressed == s.keysPressed && t.tgt.mix == mix && t.attractor.strength == strength
  {
  }

  /** A trigger sets the attractor to the cell's position with the given
      strength, the active profile and hue to the column's profile, the
      mix to the given mix and every other target to the column profile's
      field, and changes nothing else. */
  lemma TriggerOverwrites(s: InstrumentState, col: nat, row: int, strength: real, mix: real)
    ensures var t := TriggerState(s, col, row, strength, mix);
      t == s.(attractor := t.attractor, activeProfile := t.activeProfile, keyHue := t.keyHue, tgt := t.tgt)
      && t.attractor == Attractor(CellToPosition3D(col, row), strength, col, row)
      && t.activeProfile == KeyProfiles[col % 12] && t.keyHue == KeyProfiles[col % 12].hue
      && t.tgt.mix == mix
      && forall f :: f != PMix ==> GetParam(t.tgt, f) == Get(KeyProfiles[col % 12], FieldOf(f))
  {
    TriggerTargetsFromProfile(ProfileForCol(col), mix);
  }

  /** What a trigger leaves in the attractor, profile, hue and targets does
      not depend on the state it starts from, so of two triggers in a row
      the last one wins. */
  lemma TriggerForgetsPrior(s1: InstrumentState, s2: InstrumentState, col: nat, row: int, strength: real, mix: real)
    ensures var t1 := TriggerState(s1, col, row, strength, mix);
      var t2 := TriggerState(s2, col, row, strength, mix);
      t1.tgt == t2.tgt && t1.attractor == t2.attractor
      && t1.activeProfile == t2.activeProfile && t1.keyHue == t2.keyHue
  {
  }

  lemma LastTriggerWins(s: InstrumentState, col1: nat, row1: int, strength1: real, mix1: real,
                        col2: nat, row2: int, strength2: real, mix2: real)
    ensures TriggerState(TriggerState(s, col1, row1, strength1, mix1), col2, row2, strength2, mix2)
      == TriggerState(s, col2, row2, strength2, mix2)
  {
  }

  /** What `onKeyDown` does to the visual targets for a chord of `n` held
      keys blended to `b`, after the single-note trigger set the active profile. */
  function ChordState(s: InstrumentState, b: Profile, n: nat): InstrumentState
  {
    var boost := ChordBoost(n);
    s.(tgt := ChordTargets(b, n), keyHue := b.hue,
       activeProfile := s.activeProfile.(bloom := b.bloom * boost, ca := b.ca * boost))
  }

  /** The note a note key plays: an octave up with Shift, capped at 127. */
  function PlayedNote(code: Code, shift: bool): (m: int)
    requires IsNoteKey(code)
    ensures NoteOf(code) <= m <= NoteOf(code) + 12 && m <= 127
  {
    KeyNotesOnGrid(code);
    var m := NoteOf(code) + (if shift then 12 else 0);
    if m < 127 then m else 127
  }

  /** The cell a note key's played note lands on: the key's column and the
      row of the played note. */
  function KeyCell(code: Code, shift: bool): Cell
    requires IsNoteKey(code)
  {
    Cell(KeyCol(code), NoteRow(PlayedNote(code, shift)))
  }

  /** That cell is the one `midiToCell` picks for the played note (the
      octave shift keeps the pitch class and the note natural). */
  lemma KeyCellAgrees(code: Code, shift: bool)
    requires IsNoteKey(code)
    ensures MidiToCell(PlayedNote(code, shift)) == KeyCell(code, shift)
  {
    var m := PlayedNote(code, shift);
    KeyNoteNatural(code);
    assert m % 12 == NoteOf(code) % 12;
    NaturalNoteCell(m);
    KeyColumnsAgree(code);
  }

  /** A note key going down (no auto-repeat): an already held key does
      nothing; otherwise the key joins the held set, its note triggers the
      visuals, two or more collected profiles blend into chord targets, and
      five or more held keys swell the pad. */
  function NoteKeyState(s: InstrumentState, code: Code, shift: bool): InstrumentState
    requires IsNoteKey(code)
  {
    if code in s.keysPressed then s
    else
      var c := KeyCell(code, shift);
      ChordStage(TriggerState(s, c.col, c.row, 1.2, 0.88).(keysPressed := s.keysPressed + [code]))
  }

  /** The end of a note key press, once the key is held and its note has
      triggered: two or more collected profiles blend into chord targets,
      and five or more held keys swell the pad. */
  function ChordStage(s: InstrumentState): InstrumentState
  {
    var n := |s.keysPressed|;
    var ps := HeldProfiles(s.keysPressed);
    var s2 := if n >= 2 && |ps| >= 2 then ChordState(s, BlendSpec(ps), n) else s;
    if n >= 5 then s2.(padLevel := 1.0) else s2
  }

  /** With two or more held keys and as many collected profiles `ps`, the
      chord stage sets the targets to the chord of the means of `ps`
      (`ChordOfMeans`). */
  lemma ChordStageTargets(s: InstrumentState)
    requires |s.keysPressed| >= 2 && |HeldProfiles(s.keysPressed)| >= 2
    ensures ChordOfMeans(ChordStage(s).tgt, HeldProfiles(s.keysPressed), |s.keysPressed|)
  {
    var ps := HeldProfiles(s.keysPressed);
    ChordTargetsOfBlend(ps, |s.keysPressed|);
    assert ChordStage(s).tgt == ChordTargets(BlendSpec(ps), |s.keysPressed|);
  }

  /** In the same case the hue becomes the mean hue and the active
      profile's bloom and chromatic aberration their boosted means, its
      other fields kept (`ChordLookOfMeans`). */
  lemma ChordStageLook(s: InstrumentState)
    requires |s.keysPressed| >= 2 && |HeldProfiles(s.keysPressed)| >= 2
    ensures ChordLookOfMeans(ChordStage(s).activeProfile, ChordStage(s).keyHue, s.activeProfile,
      HeldProfiles(s.keysPressed), |s.keysPressed|)
  {
    var ps := HeldProfiles(s.keysPressed);
    var c := ChordState(s, BlendSpec(ps), |s.keysPressed|);
    BlendSpecIsBlend(ps);
    ChordStateLook(s, ps, BlendSpec(ps), |s.keysPressed|);
    assert ChordStage(s).keyHue == c.keyHue && ChordStage(s).activeProfile == c.activeProfile;
  }

  /** The hue and active profile the chord step takes from any blend `b`
      carrying the means of `ps`. */
  lemma ChordStateLook(s: InstrumentState, ps: seq<Profile>, b: Profile, n: nat)
    requires |ps| > 0 && HasMeans(ps, b)
    ensures var t := ChordState(s, b, n);
      ChordLookOfMeans(t.activeProfile, t.keyHue, s.activeProfile, ps, n)
  {
    BlendLook(ps, b, n);
  }

  /** The chord stage changes only the targets, the hue, the active
      profile and the pad, and fills the pad exactly when five or more keys
      are held. */
  lemma ChordStageFrame(s: InstrumentState)
    ensures var t := ChordStage(s);
      t.padLevel == (if |s.keysPressed| >= 5 then 1.0 else s.padLevel)
      && t == s.(tgt := t.tgt, keyHue := t.keyHue, activeProfile := t.activeProfile, padLevel := t.padLevel)
  {
  }

  /** A note key press holds the key and changes the held set in no other
      way. */
  lemma NoteKeyHolds(s: InstrumentState, code: Code, shift: bool)
    requires IsNoteKey(code)
    ensures NoteKeyState(s, code, shift).keysPressed
      == if code in s.keysPressed then s.keysPressed else s.keysPressed + [code]
  {
  }

  /** Adding a note key that is not held keeps the invariants. */
  lemma AddKeyKeepsValid(s: InstrumentState, k: Code)
    requires ValidState(s) && IsNoteKey(k) && k !in s.keysPressed
    ensures ValidState(s.(keysPressed := s.keysPressed + [k]))
  {
  }

  /** A note key press keeps the invariants. */
  lemma NoteKeyKeepsValid(s: InstrumentState, code: Code, shift: bool)
    requires ValidState(s) && IsNoteKey(code)
    ensures ValidState(NoteKeyState(s, code, shift))
  {
    if code !in s.keysPressed {
      NoteKeyEffects(s, code, shift);
    }
  }

  /** The chord stage keeps the invariants, the held keys and the
      attractor; with two or more held keys it sets a mix in [0.88, 1] and
      a contrast of at most 2.5, with five or more the full mix and pad;
      with fewer than two the targets stay as they were. */
  lemma ChordStageEffects(s: InstrumentState)
    requires ValidState(s)
    ensures var t := ChordStage(s);
      ValidState(t) && t.keysPressed == s.keysPressed && t.attractor == s.attractor
      && (|s.keysPressed| >= 2 ==> 0.88 <= t.tgt.mix <= 1.0 && t.tgt.contrast <= 2.5)
      && (|s.keysPressed| < 2 ==> t.tgt == s.tgt)
      && (|s.keysPressed| >= 5 ==> t.padLevel == 1.0 && t.tgt.mix == 1.0)
  {
    HeldProfilesOfNoteKeys(s.keysPressed);
  }

  /** A fresh note key ends up held and is the attractor's note; its chord
      targets, when two or more keys are held, have a mix of at least 0.88
      and a contrast of at most 2.5; five or more keys fill the pad. */
  lemma NoteKeyEffects(s: InstrumentState, code: Code, shift: bool)
    requires ValidState(s) && IsNoteKey(code) && code !in s.keysPressed
    ensures var t := NoteKeyState(s, code, shift);
      ValidState(t)
      && t.keysPressed == s.keysPressed + [code]
      && t.attractor == NoteTriggerState(s, PlayedNote(code, shift)).attractor
      && 0.88 <= t.tgt.mix <= 1.0
      && (|s.keysPressed| >= 1 ==> t.tgt.contrast <= 2.5)
      && (|s.keysPressed| >= 4 ==> t.padLevel == 1.0 && t.tgt.mix == 1.0)
  {
    var s1 := s.(keysPressed := s.keysPressed + [code]);
    AddKeyKeepsValid(s, code);
    var c := KeyCell(code, shift);
    TriggerKeepsValid(s1, c.col, c.row, 1.2, 0.88);
    var s2 := TriggerState(s1, c.col, c.row, 1.2, 0.88);
    assert s2 == TriggerState(s, c.col, c.row, 1.2, 0.88).(keysPressed := s1.keysPressed);
    ChordStageEffects(s2);
    KeyCellAgrees(code, shift);
    assert NoteTriggerState(s, PlayedNote(code, shift)).attractor == s2.attractor;
  }

  /** A fresh note key pressed with no other key held sets the active
      profile, the hue and every target but the mix (0.88) from its own
      profile. */
  lemma NoteKeyAlone(s: InstrumentState, code: Code, shift: bool)
    requires IsNoteKey(code) && s.keysPressed == []
    ensures var t := NoteKeyState(s, code, shift);
      t.activeProfile == NoteProfile(code) && t.keyHue == NoteProfile(code).hue
      && t.tgt.mix == 0.88
      && forall f :: f != PMix ==> GetParam(t.tgt, f) == Get(NoteProfile(code), FieldOf(f))
  {
    var c := KeyCell(code, shift);
    TriggerOverwrites(s, c.col, c.row, 1.2, 0.88);
    assert NoteKeyState(s, code, shift) == TriggerState(s, c.col, c.row, 1.2, 0.88).(keysPressed := [code]);
  }

  /** A fresh note key pressed while others are held makes a chord: the
      targets, hue and active profile of the chord of the held profiles'
      means, the active profile otherwise the new key's
      (`HeldProfilesOfNoteKeys` says the held profiles are each held
      key's own). */
  lemma NoteKeyChord(s: InstrumentState, code: Code, shift: bool)
    requires (forall k :: k in s.keysPressed ==> IsNoteKey(k)) && IsNoteKey(code)
    requires code !in s.keysPressed && |s.keysPressed| >= 1
    ensures var t := NoteKeyState(s, code, shift);
      var ps := HeldProfiles(t.keysPressed);
      t.keysPressed == s.keysPressed + [code] && |ps| > 0
      && ChordOfMeans(t.tgt, ps, |t.keysPressed|)
      && ChordLookOfMeans(t.activeProfile, t.keyHue, NoteProfile(code), ps, |t.keysPressed|)
  {
    var c := KeyCell(code, shift);
    var s2 := TriggerState(s, c.col, c.row, 1.2, 0.88).(keysPressed := s.keysPressed + [code]);
    assert NoteKeyState(s, code, shift) == ChordStage(s2);
    ChordOfNoteKeys(s2);
  }

  /** The chord stage over two or more held note keys. */
  lemma ChordOfNoteKeys(s: InstrumentState)
    requires (forall k :: k in s.keysPressed ==> IsNoteKey(k)) && |s.keysPressed| >= 2
    ensures var ps := HeldProfiles(s.keysPressed);
      |ps| > 0
      && ChordOfMeans(ChordStage(s).tgt, ps, |s.keysPressed|)
      && ChordLookOfMeans(ChordStage(s).activeProfile, ChordStage(s).keyHue, s.activeProfile, ps, |s.keysPressed|)
  {
    HeldProfilesOfNoteKeys(s.keysPressed);
    ChordStageTargets(s);
    ChordStageLook(s);
  }

  /** Pressing a key that is already held changes nothing, so a second
      press of the same key is a no-op. */
  lemma NoteKeyIdempotent(s: InstrumentState, code: Code, shift: bool, shift2: bool)
    requires IsNoteKey(code)
    ensures NoteKeyState(NoteKeyState(s, code, shift), code, shift2) == NoteKeyState(s, code, shift)
  {
    if code !in s.keysPressed {
      assert code in NoteKeyState(s, code, shift).keysPressed;
    }
  }

  /** Releasing a note key that was pressed fresh restores the held set. */
  lemma PressThenRelease(s: InstrumentState, code: Code, shift: bool)
    requires IsNoteKey(code) && code !in s.keysPressed
    ensures Remove(NoteKeyState(s, code, shift).keysPressed, code) == s.keysPressed
  {
    NoteKeyHolds(s, code, shift);
    RemoveAfterAdd(s.keysPressed, code);
  }

  /** `onKeyUp`: a note key leaves the held set; any other key (the
      sustain pedal included) changes no visual state. */
  function KeyUpState(s: InstrumentState, code: Code): InstrumentState
  {
    if IsNoteKey(code) then s.(keysPressed := Remove(s.keysPressed, code)) else s
  }

  /** `onKeyDown` (`questionMark` is whether `e.key` is '?'): auto-repeats
      and the help key change nothing; Escape resets the zoom unless it
      closes the help overlay; Digit5 freezes the visuals for 2 s; Minus and
      Equal or keypad plus step the volume by 0.08 within [0.05, 1]; a drum
      key triggers its pad's visuals; a note key is pressed. The sustain
      pedal, the mode keys and every other key change no visual state. */
  function KeyDownState(s: InstrumentState, code: Code, questionMark: bool, shift: bool, repeat: bool,
                        now: real, helpVisible: bool): InstrumentState
  {
    if repeat || questionMark || (code == Slash && shift) then s
    else if code == Escape then (if helpVisible then s else s.(zoomLevel := 1.0))
    else if code == Digit5 then s.(visualFreezeUntil := now + 2.0)
    else if code == Minus then s.(masterVolume := Max(0.05, s.masterVolume - 0.08))
    else if code == Equal || code == NumpadAdd then s.(masterVolume := Min(1.0, s.masterVolume + 0.08))
    else if IsDrumKey(code) then DrumTriggerState(s, DrumIndex(code))
    else if IsNoteKey(code) then NoteKeyState(s, code, shift)
    else s
  }

  /** Every key press keeps the invariants. */
  lemma KeyDownKeepsValid(s: InstrumentState, code: Code, questionMark: bool, shift: bool, repeat: bool,
                          now: real, helpVisible: bool)
    requires ValidState(s)
    ensures ValidState(KeyDownState(s, code, questionMark, shift, repeat, now, helpVisible))
  {
    if repeat || questionMark || (code == Slash && shift) {
    } else if code == Escape || code == Digit5 || code == Minus || code == Equal || code == NumpadAdd {
    } else if IsDrumKey(code) {
      TriggerKeepsValid(s, DrumIndex(code) % GridCols, 1, 1.1, 0.75);
    } else if IsNoteKey(code) {
      NoteKeyKeepsValid(s, code, shift);
    }
  }

  /** Auto-repeats, the sustain pedal, the mode keys 1-4 and unmapped keys
      leave the visual state as it was. */
  lemma KeyDownIgnoredKeys(s: InstrumentState, code: Code, questionMark: bool, shift: bool, repeat: bool,
                           now: real, helpVisible: bool)
    requires repeat || code in [Space, Digit1, Digit2, Digit3, Digit4, OtherKey]
    ensures KeyDownState(s, code, questionMark, shift, repeat, now, helpVisible) == s
  {
    if !repeat {
      IgnoredKeysUnhandled(code);
    }
  }

  lemma IgnoredKeysUnhandled(code: Code)
    requires code in [Space, Digit1, Digit2, Digit3, Digit4, OtherKey]
    ensures !IsDrumKey(code) && !IsNoteKey(code)
    ensures code != Slash && code != Escape && code != Digit5 && code != Minus && code != Equal && code != NumpadAdd
  {
  }

  /** The volume keys move the volume by at most 0.08 and keep it within
      [0.05, 1]; Minus never raises it and Equal never lowers it. */
  lemma VolumeKeys(s: InstrumentState, code: Code, now: real, helpVisible: bool)
    requires ValidState(s) && (code == Minus || code == Equal || code == NumpadAdd)
    ensures var v := KeyDownState(s, code, false, false, false, now, helpVisible).masterVolume;
      0.05 <= v <= 1.0 && Abs(v - s.masterVolume) <= 0.08
      && (code == Minus ==> v <= s.masterVolume) && (code != Minus ==> v >= s.masterVolume)
  {
  }

  /** Pressing a note key that is not held and releasing it gives the held
      set back; the key press and release are each other's undo on the
      held keys. */
  lemma KeyUpUndoesKeyDown(s: InstrumentState, code: Code, shift: bool, now: real, helpVisible: bool)
    requires IsNoteKey(code) && code !in s.keysPressed
    ensures KeyUpState(KeyDownState(s, code, false, shift, false, now, helpVisible), code).keysPressed == s.keysPressed
  {
    NoteKeysAreNotCommandKeys(code);
    assert KeyDownState(s, code, false, shift, false, now, helpVisible) == NoteKeyState(s, code, shift);
    PressThenRelease(s, code, shift);
  }

  /** One animation frame: the pad fades (held up at 0.55 by five or more
      keys), the idle machine steps, every current value moves toward its
      target, the targets relax when not frozen and the attractor is weak,
      and only with the particle compute path does the attractor strength
      decay, by 0.92 per unfrozen frame. */
  function TickState(s: InstrumentState, now: real, gpgpu: bool): InstrumentState
  {
    var pad := s.padLevel * 0.96;
    var unfrozen := now >= s.visualFreezeUntil;
    s.(padLevel := if |s.keysPressed| >= 5 then Max(pad, 0.55) else pad,
       idle := IdleStep(s.idle, IsIdle(|s.keysPressed|, s.attractor.strength)),
       cur := Smooth(s.cur, s.tgt),
       tgt := if unfrozen && s.attractor.strength < 0.05 then Relax(s.tgt) else s.tgt,
       attractor := if gpgpu && unfrozen then s.attractor.(strength := s.attractor.strength * 0.92) else s.attractor)
  }

  /** A frame keeps the invariants, never changes the held keys or the
      attractor's place, keeps the pad at 0.55 or more under five held keys,
      and without the particle path leaves the strength alone. */
  lemma TickKeepsValid(s: InstrumentState, now: real, gpgpu: bool)
    requires ValidState(s)
    ensures var t := TickState(s, now, gpgpu);
      ValidState(t) && t.keysPressed == s.keysPressed
      && t.attractor.pos == s.attractor.pos
      && (|s.keysPressed| >= 5 ==> t.padLevel >= 0.55)
      && (!gpgpu ==> t.attractor == s.attractor)
      && t.attractor.strength <= s.attractor.strength
  {
    IdleStepBounded(s.idle, IsIdle(|s.keysPressed|, s.attractor.strength));
  }

  /** While the visuals are frozen the targets do not relax and the
      attractor does not decay; only the smoothing, the pad and the idle
      machine move. */
  lemma FrozenTickKeepsTargets(s: InstrumentState, now: real, gpgpu: bool)
    requires now < s.visualFreezeUntil
    ensures TickState(s, now, gpgpu).tgt == s.tgt && TickState(s, now, gpgpu).attractor == s.attractor
  {
  }

  /** One arpeggiator step with the chosen pattern: nothing when no key is
      held or the lowest held note is above 120; otherwise the next pattern
      offset above the lowest held note triggers the visuals and the index
      advances. */
  function ArpState(s: InstrumentState, pattern: seq<int>): InstrumentState
    requires |pattern| > 0
  {
    if |s.keysPressed| == 0 then s
    else match ArpStep(s.keysPressed, MinNote(s.keysPressed), pattern, s.arpIndex)
      case None => s
      case Some(r) => NoteTriggerState(s, r.0).(arpIndex := r.1)
  }

  /** An arpeggiator step keeps the invariants and the held keys; with held
      keys under one of the built-in patterns it always plays a note at most
      14 semitones above the lowest held note and advances the index. */
  lemma ArpKeepsValid(s: InstrumentState, pattern: seq<int>)
    requires ValidState(s) && |pattern| > 0
    ensures ValidState(ArpState(s, pattern)) && ArpState(s, pattern).keysPressed == s.keysPressed
  {
    if |s.keysPressed| > 0 {
      var r := ArpStep(s.keysPressed, MinNote(s.keysPressed), pattern, s.arpIndex);
      if r.Some? {
        var c := MidiToCell(r.value.0);
        TriggerKeepsValid(s, c.col, c.row, 1.2, 0.88);
      }
    }
  }

  /** With held note keys any pattern always plays: the note is the
      lowest held note plus the pattern's offset at the current index
      (for the built-in patterns at most 14 semitones above it, by
      `ArpAlwaysPlaysForHeldNotes`), it triggers the visuals, and the index
      advances by one. */
  lemma ArpPlaysWithHeldKeys(s: InstrumentState, pattern: seq<int>)
    requires (forall k :: k in s.keysPressed ==> IsNoteKey(k)) && |s.keysPressed| > 0 && |pattern| > 0
    ensures ArpState(s, pattern)
      == NoteTriggerState(s, MinNote(s.keysPressed) + pattern[s.arpIndex % |pattern|]).(arpIndex := s.arpIndex + 1)
  {
    HeldRootOnGrid(s.keysPressed);
    ArpStateStep(s, pattern);
  }

  /** A step whose root is at most 120 plays. */
  lemma ArpStateStep(s: InstrumentState, pattern: seq<int>)
    requires |pattern| > 0 && |s.keysPressed| > 0 && MinNote(s.keysPressed) <= 120
    ensures ArpState(s, pattern)
      == NoteTriggerState(s, MinNote(s.keysPressed) + pattern[s.arpIndex % |pattern|]).(arpIndex := s.arpIndex + 1)
  {
    var m := MinNote(s.keysPressed) + pattern[s.arpIndex % |pattern|];
    var r := ArpStep(s.keysPressed, MinNote(s.keysPressed), pattern, s.arpIndex);
    assert r.Some? && r.value.0 == m;
  }

  class Instrument {
    var attractor: Attractor
    var activeProfile: Profile
    var keyHue: real
    var tgt: Params
    var cur: Params
    var keysPressed: seq<Code>
    var idle: IdleState
    var padLevel: real
    var masterVolume: real
    var zoomLevel: real
    var visualFreezeUntil: real
    var arpIndex: nat
    var levels: Levels
    var analyserReady: bool
    var micLevel: real
    var micSmoothed: real

    function State(): InstrumentState
      reads this
    {
      InstrumentState(attractor, activeProfile, keyHue, tgt, cur, keysPressed, idle,
        padLevel, masterVolume, zoomLevel, visualFreezeUntil, arpIndex, levels, analyserReady, micLevel, micSmoothed)
    }

    ghost predicate Valid()
      reads this
    {
      ValidState(State())
    }

    /** The page's start-up state. */
    constructor ()
      ensures Valid()
      ensures State() == InstrumentState(
        Attractor(Vec3(0.0, 0.0, 0.0), 0.0, 0, 0), KeyProfiles[0], 0.55,
        InitialParams, InitialParams, [], InitialIdle,
        0.0, 0.4, 1.0, 0.0, 0, SilentLevels, false, 0.0, 0.0)
    {
      attractor := Attractor(Vec3(0.0, 0.0, 0.0), 0.0, 0, 0);
      activeProfile := KeyProfiles[0];
      keyHue := 0.55;
      tgt := InitialParams;
      cur := InitialParams;
      keysPressed := [];
      idle := InitialIdle;
      padLevel := 0.0;
      masterVolume := 0.4;
      zoomLevel := 1.0;
      visualFreezeUntil := 0.0;
      arpIndex := 0;
      levels := SilentLevels;
      analyserReady := false;
      micLevel := 0.0;
      micSmoothed := 0.0;
    }

    /** The trigger body shared by the three trigger functions. */
    method Trigger(col: nat, row: int, strength: real, mix: real)
      modifies this
      ensures State() == TriggerState(old(State()), col, row, strength, mix)
    {
      var pos := CellToPosition3D(col, row);
      attractor := Attractor(pos, strength, col, row);
      activeProfile := KeyProfiles[col % |KeyProfiles|];
      keyHue := activeProfile.hue;
      tgt := Params(activeProfile.folds, mix, activeProfile.spiral, activeProfile.flow, activeProfile.pulse,
        activeProfile.shear, activeProfile.wave, activeProfile.glitch, activeProfile.mx, activeProfile.my,
        activeProfile.warp, activeProfile.contrast);
    }

    /** `triggerCell`: strength 1.2 and mix 0.88; the spectrum column read
      back from the new attractor position is the cell's column. */
    method TriggerCell(col: nat, row: int)
      requires col < GridCols
      modifies this
      ensures State() == TriggerState(old(State()), col, row, 1.2, 0.88)
      ensures ActiveCol(attractor.pos.x) == col
    {
      Trigger(col, row, 1.2, 0.88);
      ActiveColRoundTrip(col, row);
    }

    method TriggerVisualsForDrum(drumIndex: nat)
      modifies this
      ensures State() == DrumTriggerState(old(State()), drumIndex)
    {
      var col := drumIndex % GridCols;
      Trigger(col, 1, 1.1, 0.75);
    }

    method TriggerVisualsForMidi(midi: int)
      modifies this
      ensures State() == NoteTriggerState(old(State()), midi)
    {
      var cell := MidiToCell(midi);
      Trigger(cell.col, cell.row, 1.2, 0.88);
    }

    /** `keysPressed.add(key)` for a key not yet held. */
    method AddKey(code: Code)
      modifies this
      ensures State() == old(State()).(keysPressed := old(keysPressed) + [code])
    {
      keysPressed := keysPressed + [code];
    }

    /** The note-key branch of `onKeyDown`. */
    method PressNoteKey(code: Code, shift: bool)
      requires IsNoteKey(code)
      modifies this
      ensures State() == NoteKeyState(old(State()), code, shift)
    {
      if code in keysPressed {
        return;
      }
      AddKey(code);
      TriggerNoteKey(code, shift);
      ChordAndPad();
    }

    /** The key's played note (an octave up with shift, capped at 127)
      triggers the visuals, on the key's own cell. */
    method TriggerNoteKey(code: Code, shift: bool)
      requires IsNoteKey(code)
      modifies this
      ensures var c := KeyCell(code, shift);
        State() == TriggerState(old(State()), c.col, c.row, 1.2, 0.88)
    {
      var midiPlay := PlayedNote(code, shift);
      KeyCellAgrees(code, shift);
      TriggerVisualsForMidi(midiPlay);
    }

    /** The chord and pad block that follows a fresh note key. */
    method ChordAndPad()
      modifies this
      ensures State() == ChordStage(old(State()))
      ensures var ps := HeldProfiles(old(keysPressed)); var n := |old(keysPressed)|;
        n >= 2 && |ps| >= 2 ==>
          ChordOfMeans(tgt, ps, n) && ChordLookOfMeans(activeProfile, keyHue, old(activeProfile), ps, n)
    {
      var n := |keysPressed|;
      if n >= 2 {
        var ps := CollectProfiles(keysPressed);
        if |ps| >= 2 {
          var b := BlendProfiles(ps);
          BlendSpecIsBlend(ps);
          ApplyChord(ps, b, n);
        }
      }
      if n >= 5 {
        padLevel := 1.0;
      }
    }

    /** The chord block of `onKeyDown` for the blend `b` of the collected
      profiles: the chord targets, the hue, and the active profile's bloom
      and chromatic offset. When `b` is the blend of `ps`, those are the
      boosted means of `ps`. */
    method ApplyChord(ghost ps: seq<Profile>, b: Profile, n: nat)
      modifies this
      ensures State() == ChordState(old(State()), b, n)
      ensures |ps| > 0 && IsBlendOf(ps, b) ==>
        ChordOfMeans(tgt, ps, n) && ChordLookOfMeans(activeProfile, keyHue, old(activeProfile), ps, n)
    {
      ghost var s0 := State();
      if |ps| > 0 && IsBlendOf(ps, b) {
        ChordTargetsOfMeans(ps, b, n);
        ChordStateLook(s0, ps, b, n);
      }
      var boost := ChordBoost(n);
      tgt := ChordTargets(b, n);
      keyHue := b.hue;
      activeProfile := activeProfile.(bloom := b.bloom * boost, ca := b.ca * boost);
    }

    /** The drum branch of `onKeyDown`: the pad index of the key triggers
      the drum visuals. */
    method PressDrumKey(code: Code)
      modifies this
      ensures State() == DrumTriggerState(old(State()), DrumIndex(code))
    {
      var idx := IndexOf(DrumKeyOrder, code);
      DrumIndexIsIndexOf(code);
      TriggerVisualsForDrum(if idx >= 0 then idx else 0);
    }

    /** `onKeyUp`: a note key leaves the held set; any other key changes no
      visual state. */
    method KeyUp(code: Code)
      requires Valid()
      modifies this
      ensures Valid()
      ensures State() == KeyUpState(old(State()), code)
    {
      if !IsNoteKey(code) {
        return;
      }
      RemoveKeepsDistinct(keysPressed, code);
      keysPressed := Remove(keysPressed, code);
    }

    /** Minus: volume down by 0.08, not below 0.05. */
    method VolumeDown()
      modifies this
      ensures State() == old(State()).(masterVolume := Max(0.05, old(masterVolume) - 0.08))
    {
      masterVolume := Max(0.05, masterVolume - 0.08);
    }

    /** Equal or keypad plus: volume up by 0.08, not above 1. */
    method VolumeUp()
      modifies this
      ensures State() == old(State()).(masterVolume := Min(1.0, old(masterVolume) + 0.08))
    {
      masterVolume := Min(1.0, masterVolume + 0.08);
    }

    /** Digit 5: freeze the relaxation and the attractor decay for 2 s. */
    method FreezeVisuals(now: real)
      modifies this
      ensures State() == old(State()).(visualFreezeUntil := now + 2.0)
    {
      visualFreezeUntil := now + 2.0;
    }

    /** Escape: closes the help overlay if it is open; otherwise resets the zoom. */
    method PressEscape(helpVisible: bool)
      modifies this
      ensures State() == if helpVisible then old(State()) else old(State()).(zoomLevel := 1.0)
    {
      if helpVisible {
        return;
      }
      zoomLevel := 1.0;
    }

    /** The wheel: zoom by 0.05 per notch, kept within [0.4, 2.5]. */
    method Wheel(deltaY: real)
      requires Valid()
      modifies this
      ensures Valid()
      ensures State() == old(State()).(zoomLevel := Clamp(old(zoomLevel) + (if deltaY > 0.0 then 0.05 else -0.05), 0.4, 2.5))
    {
      var delta := if deltaY > 0.0 then 0.05 else -0.05;
      zoomLevel := Max(0.4, Min(2.5, zoomLevel + delta));
    }

    /** Double click on a (randomly chosen) cell: the cell trigger, then a
      burst with strength 2.5, full mix and a full pad. */
    method DoubleClick(col: nat, row: int)
      requires Valid() && ValidCell(Cell(col, row))
      modifies this
      ensures Valid()
      ensures State() == TriggerState(old(State()), col, row, 2.5, 1.0).(padLevel := 1.0)
    {
      TriggerKeepsValid(State(), col, row, 2.5, 1.0);
      TriggerCell(col, row);
      attractor := attractor.(strength := 2.5);
      tgt := tgt.(mix := 1.0);
      padLevel := 1.0;
    }

    /** `onKeyDown`, dispatching on the key code. */
    method KeyDown(code: Code, questionMark: bool, shift: bool, repeat: bool, now: real, helpVisible: bool)
      requires Valid()
      modifies this
      ensures Valid()
      ensures State() == KeyDownState(old(State()), code, questionMark, shift, repeat, now, helpVisible)
    {
      KeyDownKeepsValid(State(), code, questionMark, shift, repeat, now, helpVisible);
      if repeat {
        return;
      }
      if questionMark || (code == Slash && shift) {
        return;
      }
      if code == Escape {
        PressEscape(helpVisible);
      } else if code == Digit5 {
        FreezeVisuals(now);
      } else if code == Minus {
        VolumeDown();
      } else if code == Equal || code == NumpadAdd {
        VolumeUp();
      } else if IsDrumKey(code) {
        PressDrumKey(code);
      } else if IsNoteKey(code) {
        PressNoteKey(code, shift);
      }
    }

    /** The pad fades by 4% a frame, held up at 0.55 by five or more keys. */
    method FadePad()
      modifies this
      ensures State() == old(State()).(padLevel := if |keysPressed| >= 5 then Max(old(padLevel) * 0.96, 0.55) else old(padLevel) * 0.96)
    {
      padLevel := padLevel * 0.96;
      if |keysPressed| >= 5 {
        padLevel := Max(padLevel, 0.55);
      }
    }

    /** One frame of the idle machine. */
    method StepIdle()
      modifies this
      ensures State() == old(State()).(idle := IdleStep(old(idle), IsIdle(|keysPressed|, attractor.strength)))
    {
      var isIdle := |keysPressed| == 0 && attractor.strength < 0.06;
      idle := IdleStep(idle, isIdle);
    }

    /** The distortion interpolation and the target relaxation. */
    method SmoothAndRelax(now: real)
      modifies this
      ensures State() == old(State()).(cur := Smooth(old(cur), old(tgt)),
        tgt := if now >= visualFreezeUntil && attractor.strength < 0.05 then Relax(old(tgt)) else old(tgt))
    {
      cur := Smooth(cur, tgt);
      if now >= visualFreezeUntil && attractor.strength < 0.05 {
        tgt := Relax(tgt);
      }
    }

    /** The attractor decay of the particle compute path. */
    method DecayAttractor(now: real, gpgpu: bool)
      modifies this
      ensures State() == old(State()).(attractor := if gpgpu && now >= visualFreezeUntil then old(attractor).(strength := old(attractor).strength * 0.92) else old(attractor))
    {
      if gpgpu && now >= visualFreezeUntil {
        attractor := attractor.(strength := attractor.strength * 0.92);
      }
    }

    /** The state updates of one animation frame; returns the spectrum
      column under the attractor. */
    method Tick(now: real, gpgpu: bool) returns (activeCol: int)
      requires Valid()
      modifies this
      ensures Valid()
      ensures State() == TickState(old(State()), now, gpgpu)
      ensures activeCol == ActiveCol(attractor.pos.x)
    {
      ghost var s0 := State();
      FadePad();
      StepIdle();
      SmoothAndRelax(now);
      DecayAttractor(now, gpgpu);
      activeCol := ActiveCol(attractor.pos.x);
      assert State() == TickState(s0, now, gpgpu);
      TickKeepsValid(s0, now, gpgpu);
    }

    /** `arpTick` with the chosen pattern. */
    method ArpTick(pattern: seq<int>)
      requires Valid() && |pattern| > 0
      modifies this
      ensures Valid()
      ensures State() == ArpState(old(State()), pattern)
    {
      ArpKeepsValid(State(), pattern);
      PlayArp(pattern);
    }

    /** The body of the arpeggiator's interval callback. */
    method PlayArp(pattern: seq<int>)
      requires |pattern| > 0
      modifies this
      ensures State() == ArpState(old(State()), pattern)
    {
      if |keysPressed| == 0 {
        return;
      }
      var root := LowestHeldNote(keysPressed);
      if root > 120 {
        return;
      }
      var note := root + pattern[arpIndex % |pattern|];
      ArpStateStep(State(), pattern);
      arpIndex := arpIndex + 1;
      TriggerVisualsForMidi(note);
    }

    /** `updateAudioLevels` (`audioStarted` is whether the audio context
      exists yet): before the analyser exists a frame only creates it, and
      only once the audio context has been started; after that each
      frame's spectrum sets the band levels. */
    method UpdateAudioLevels(audioStarted: bool, spectrum: seq<int>)
      requires Valid() && |spectrum| >= 7
      modifies this
      ensures Valid()
      ensures !old(analyserReady) ==> State() == old(State()).(analyserReady := audioStarted)
      ensures old(analyserReady) ==> State() == old(State()).(levels := levels) && LevelsOf(spectrum, levels)
      ensures old(analyserReady) && Bytes(spectrum) ==> LevelsInUnit(levels)
    {
      if !analyserReady {
        if audioStarted {
          analyserReady := true;
        }
        return;
      }
      levels := BandLevels(spectrum);
    }

    /** `updateMicLevel` with the measured level: nothing while the mic is
      off; otherwise the gated level is stored and the smoothed level moves
      toward it. */
    method UpdateMicLevel(enabled: bool, raw: real)
      requires Valid() && 0.0 <= raw <= 1.0
      modifies this
      ensures Valid()
      ensures State() == if enabled then old(State()).(micLevel := MicGate(raw), micSmoothed := MicStep(old(micSmoothed), raw)) else old(State())
    {
      if !enabled {
        return;
      }
      MicStepBounds(micSmoothed, raw);
      micLevel := MicGate(raw);
      micSmoothed := micSmoothed + (micLevel - micSmoothed) * MicSmoothRate;
    }
  }
}
