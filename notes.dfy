/** The keyboard tables (note keys, drum pads), note names, the sustain rule
    and the arpeggiator's note choice. */
module Notes {
  import opened Numeric
  import Grid

  /** The `KeyboardEvent.code` values the key handlers name; `OtherKey`
      stands for every other code. */
  datatype Code =
    | KeyZ | KeyX | KeyC | KeyV | KeyB | KeyN | KeyM
    | KeyQ | KeyW | KeyE | KeyR | KeyT | KeyY | KeyU | KeyI | KeyO | KeyP
    | BracketLeft | BracketRight
    | KeyA | KeyS | KeyD | KeyF | KeyG | KeyH | KeyJ | KeyK | KeyL | Semicolon | Quote
    | Slash | Escape | Space | Digit1 | Digit2 | Digit3 | Digit4 | Digit5
    | Minus | Equal | NumpadAdd
    | OtherKey

  /** `KEY_TO_NOTE`: low octave Z..M (C3..B3), Q..P (C4..E5), brackets F5
      and G5; no note for every other key. */
  function KeyToNote(code: Code): Option<int>
  {
    match code
    case KeyZ => Some(48) case KeyX => Some(50) case KeyC => Some(52) case KeyV => Some(53)
    case KeyB => Some(55) case KeyN => Some(57) case KeyM => Some(59)
    case KeyQ => Some(60) case KeyW => Some(62) case KeyE => Some(64) case KeyR => Some(65)
    case KeyT => Some(67) case KeyY => Some(69) case KeyU => Some(71)
    case KeyI => Some(72) case KeyO => Some(74) case KeyP => Some(76)
    case BracketLeft => Some(77) case BracketRight => Some(79)
    case _ => None
  }

  predicate IsNoteKey(code: Code)
  {
    KeyToNote(code).Some?
  }

  function NoteOf(code: Code): int
    requires IsNoteKey(code)
  {
    KeyToNote(code).value
  }

  datatype Drum = Kick | Snare | Boom808 | Clap | HatClosed | HatOpen | Rim | Snap | TomLow | TomMid | Ride

  /** `DRUM_KEYS`: the middle row A..L, `;` and `'`. */
  function DrumKeys(code: Code): Option<Drum>
  {
    match code
    case KeyA => Some(Kick) case KeyS => Some(Snare) case KeyD => Some(Boom808) case KeyF => Some(Clap)
    case KeyG => Some(HatClosed) case KeyH => Some(HatOpen) case KeyJ => Some(Rim) case KeyK => Some(Snap)
    case KeyL => Some(TomLow) case Semicolon => Some(TomMid) case Quote => Some(Ride)
    case _ => None
  }

  predicate IsDrumKey(code: Code)
  {
    DrumKeys(code).Some?
  }

  /** `DRUM_KEY_ORDER`: the pad index of each drum key. */
  const DrumKeyOrder: seq<Code> :=
    [KeyA, KeyS, KeyD, KeyF, KeyG, KeyH, KeyJ, KeyK, KeyL, Semicolon, Quote]

  const NoteNames: seq<string> := ["C", "C#", "D", "D#", "E", "F", "F#", "G", "G#", "A", "A#", "B"]

  /** Pitch classes played as sustained voices: C, D, E, F. */
  const SustainClasses: seq<int> := [0, 2, 4, 5]

  /** `Array.prototype.indexOf` on a sequence of key codes. */
  function IndexOf(xs: seq<Code>, x: Code): (i: int)
    ensures -1 <= i < |xs|
    ensures i >= 0 ==> xs[i] == x && forall j :: 0 <= j < i ==> xs[j] != x
    ensures i == -1 <==> x !in xs
  {
    if xs == [] then -1
    else if xs[0] == x then 0
    else
      var k := IndexOf(xs[1..], x);
      if k == -1 then -1 else k + 1
  }

  /** The pad number of each drum key, 0 for every other key. */
  function DrumIndex(code: Code): (i: nat)
    ensures i < |DrumKeyOrder|
  {
    match code
    case KeyA => 0 case KeyS => 1 case KeyD => 2 case KeyF => 3 case KeyG => 4 case KeyH => 5
    case KeyJ => 6 case KeyK => 7 case KeyL => 8 case Semicolon => 9 case Quote => 10
    case _ => 0
  }

  /** The drum table and the pad order list the same eleven keys. */
  lemma DrumTablesAgree(k: Code)
    ensures IsDrumKey(k) <==> k in DrumKeyOrder
    ensures |DrumKeyOrder| == 11
  {
  }

  lemma DrumIndexTable(code: Code)
    ensures IsDrumKey(code) ==> DrumKeyOrder[DrumIndex(code)] == code
    ensures !IsDrumKey(code) ==> DrumIndex(code) == 0
  {
  }

  /** Each drum key has one pad index: the pad order has no repeats. */
  lemma DrumKeyOrderDistinct(i: int, j: int)
    requires 0 <= i < j < |DrumKeyOrder|
    ensures DrumKeyOrder[i] != DrumKeyOrder[j]
  {
  }

  /** The pad number is what `onKeyDown` passes on: the key's position in
      the pad order, or 0 when it has none. */
  lemma DrumIndexIsIndexOf(code: Code)
    ensures var k := IndexOf(DrumKeyOrder, code);
      DrumIndex(code) == if k >= 0 then k else 0
    ensures IsDrumKey(code) ==> DrumKeyOrder[DrumIndex(code)] == code
  {
    var k := IndexOf(DrumKeyOrder, code);
    DrumTablesAgree(code);
    DrumIndexTable(code);
    if k >= 0 {
      var d := DrumIndex(code);
      if d < k {
        DrumKeyOrderDistinct(d, k);
      } else if k < d {
        DrumKeyOrderDistinct(k, d);
      }
    }
  }

  /** No note key is also a drum key or one of the command keys that
      `onKeyDown` handles first, so a note key always reaches the note
      branch and `onKeyDown` never treats one key two ways. */
  lemma NoteKeysAreNotCommandKeys(k: Code)
    requires IsNoteKey(k)
    ensures !IsDrumKey(k)
    ensures k != Slash && k != Escape && k != Digit5 && k != Minus && k != Equal && k != NumpadAdd
  {
  }

  /** Every note key plays a natural note of the grid's range. */
  lemma KeyNoteNatural(code: Code)
    requires IsNoteKey(code)
    ensures 48 <= NoteOf(code) <= 79 && NoteOf(code) % 12 in Grid.NaturalSemitones
  {
  }

  /** Every note key's note survives the trip through `midiToCell` and
      `cellToMidi`. */
  lemma KeyNotesOnGrid(code: Code)
    requires IsNoteKey(code)
    ensures 48 <= NoteOf(code) <= 79
    ensures Grid.SnapToNatural(NoteOf(code)) == NoteOf(code)
    ensures Grid.CellToMidi(Grid.MidiToCell(NoteOf(code)).col, Grid.MidiToCell(NoteOf(code)).row) == NoteOf(code)
  {
    var m := NoteOf(code);
    KeyNoteNatural(code);
    Grid.SnapIdentityOnNaturals(m);
    Grid.MidiCellRoundTrip(m);
  }

  /** `isSustainNote`: the JavaScript remainder is one of the sustain classes. */
  function IsSustainNote(midi: int): bool
  {
    JsRem12(midi) in SustainClasses
  }

  /** For non-negative notes a note is sustained exactly when its name is
      C, D, E or F (no sharp), and the rule repeats every octave. */
  lemma SustainByName(midi: int)
    requires midi >= 0
    ensures IsSustainNote(midi) <==> NoteNames[midi % 12] in ["C", "D", "E", "F"]
    ensures IsSustainNote(midi + 12) == IsSustainNote(midi)
  {
    var pc := midi % 12;
    assert (midi + 12) % 12 == pc;
    if pc < 6 {
      assert pc == 0 || pc == 1 || pc == 2 || pc == 3 || pc == 4 || pc == 5;
    } else {
      assert pc == 6 || pc == 7 || pc == 8 || pc == 9 || pc == 10 || pc == 11;
    }
  }

  function DigitChar(d: int): (c: char)
    requires 0 <= d < 10
    ensures '0' <= c <= '9'
  {
    ['0', '1', '2', '3', '4', '5', '6', '7', '8', '9'][d]
  }

  /** Decimal digits of a natural number, as JavaScript writes it in a string. */
  function NatToDecimal(n: nat): (s: string)
    ensures |s| >= 1
    ensures forall i :: 0 <= i < |s| ==> '0' <= s[i] <= '9'
    decreases n
  {
    if n < 10 then [DigitChar(n)] else NatToDecimal(n / 10) + [DigitChar(n % 10)]
  }

  /** Decimal form of an integer, with a leading '-' when negative. */
  function IntToDecimal(i: int): (s: string)
    ensures |s| >= 1
    ensures s[0] == '-' || '0' <= s[0] <= '9'
  {
    if i < 0 then "-" + NatToDecimal(-i) else NatToDecimal(i)
  }

  lemma DigitCharInjective(a: int, b: int)
    requires 0 <= a < 10 && 0 <= b < 10
    requires DigitChar(a) == DigitChar(b)
    ensures a == b
  {
  }

  /** Distinct naturals have distinct decimal strings. */
  lemma {:induction false} NatToDecimalInjective(a: nat, b: nat)
    requires NatToDecimal(a) == NatToDecimal(b)
    ensures a == b
    decreases a
  {
    var sa, sb := NatToDecimal(a), NatToDecimal(b);
    if a < 10 && b < 10 {
      DigitCharInjective(a, b);
    } else if a >= 10 && b >= 10 {
      var pa, pb := NatToDecimal(a / 10), NatToDecimal(b / 10);
      assert sa == pa + [DigitChar(a % 10)];
      assert sb == pb + [DigitChar(b % 10)];
      assert sa[|sa| - 1] == DigitChar(a % 10);
      assert sb[|sb| - 1] == DigitChar(b % 10);
      DigitCharInjective(a % 10, b % 10);
      assert pa == sa[..|sa| - 1];
      assert pb == sb[..|sb| - 1];
      NatToDecimalInjective(a / 10, b / 10);
    }
  }

  /** Distinct integers have distinct decimal strings. */
  lemma IntToDecimalInjective(a: int, b: int)
    requires IntToDecimal(a) == IntToDecimal(b)
    ensures a == b
  {
    var sa := IntToDecimal(a);
    if a < 0 && b < 0 {
      assert NatToDecimal(-a) == sa[1..];
      assert NatToDecimal(-b) == sa[1..];
      NatToDecimalInjective(-a, -b);
    } else if a >= 0 && b >= 0 {
      NatToDecimalInjective(a, b);
    }
  }

  /** `midiToNoteName`: the pitch-class name followed by the octave
      `Math.floor(midi / 12) - 1` (so 60 is "C4"). */
  function MidiToNoteName(midi: int): string
    requires midi >= 0
  {
    NoteNames[midi % 12] + IntToDecimal(midi / 12 - 1)
  }

  /** The pitch class each note name stands for. */
  const PitchClassOfName: map<string, int> := map[
    "C" := 0, "C#" := 1, "D" := 2, "D#" := 3, "E" := 4, "F" := 5,
    "F#" := 6, "G" := 7, "G#" := 8, "A" := 9, "A#" := 10, "B" := 11]

  /** Each name is a letter, optionally followed by '#', and names its own
      pitch class. */
  lemma NoteNameShape(i: int)
    requires 0 <= i < 12
    ensures 1 <= |NoteNames[i]| <= 2
    ensures |NoteNames[i]| == 2 ==> NoteNames[i][1] == '#'
    ensures NoteNames[i] in PitchClassOfName && PitchClassOfName[NoteNames[i]] == i
  {
    if i < 6 {
      assert i == 0 || i == 1 || i == 2 || i == 3 || i == 4 || i == 5;
    } else {
      assert i == 6 || i == 7 || i == 8 || i == 9 || i == 10 || i == 11;
    }
  }

  /** A name followed by an octave splits back uniquely: the second
      character is '#' exactly when the name is two characters long. */
  lemma SplitName(na: string, oa: string, nb: string, ob: string)
    requires na + oa == nb + ob
    requires 1 <= |na| <= 2 && 1 <= |nb| <= 2
    requires |na| == 2 ==> na[1] == '#'
    requires |nb| == 2 ==> nb[1] == '#'
    requires |oa| >= 1 && oa[0] != '#' && |ob| >= 1 && ob[0] != '#'
    ensures na == nb && oa == ob
  {
    var s := na + oa;
    assert (|na| == 2) == (s[1] == '#');
    assert s == nb + ob;
    assert (|nb| == 2) == (s[1] == '#');
    assert na == s[..|na|] && nb == s[..|nb|];
    assert oa == s[|na|..] && ob == s[|nb|..];
  }

  /** Distinct notes have distinct names: the name determines both the pitch
      class and the octave. */
  lemma NoteNameInjective(a: int, b: int)
    requires a >= 0 && b >= 0
    requires MidiToNoteName(a) == MidiToNoteName(b)
    ensures a == b
  {
    var na, nb := NoteNames[a % 12], NoteNames[b % 12];
    var oa, ob := IntToDecimal(a / 12 - 1), IntToDecimal(b / 12 - 1);
    NoteNameShape(a % 12);
    NoteNameShape(b % 12);
    SplitName(na, oa, nb, ob);
    IntToDecimalInjective(a / 12 - 1, b / 12 - 1);
    assert a % 12 == b % 12;
  }

  /** The arpeggiator's root: the lowest note among the held keys, starting
      from 127 (so 127 when no held key is a note key). */
  function MinNote(keys: seq<Code>): int
  {
    if keys == [] then 127
    else
      var root := MinNote(keys[..|keys| - 1]);
      var k := keys[|keys| - 1];
      if IsNoteKey(k) && NoteOf(k) < root then NoteOf(k) else root
  }

  /** The root is at most 127, no held note key lies below it, and it is
      127 or the note of a held key. */
  lemma {:induction false} MinNoteIsLowest(keys: seq<Code>)
    ensures MinNote(keys) <= 127
    ensures forall k :: k in keys && IsNoteKey(k) ==> MinNote(keys) <= NoteOf(k)
    ensures MinNote(keys) == 127 || exists k :: k in keys && IsNoteKey(k) && NoteOf(k) == MinNote(keys)
  {
    if keys != [] {
      var prefix := keys[..|keys| - 1];
      var last := keys[|keys| - 1];
      MinNoteIsLowest(prefix);
      assert keys == prefix + [last];
      assert forall k :: k in keys ==> k in prefix || k == last;
      if MinNote(keys) != 127 && MinNote(keys) != MinNote(prefix) {
        assert last in keys;
      }
    }
  }

  /** The loop of `arpTick` that finds the root. */
  method LowestHeldNote(keys: seq<Code>) returns (root: int)
    ensures root == MinNote(keys)
  {
    root := 127;
    var i := 0;
    while i < |keys|
      invariant 0 <= i <= |keys|
      invariant root == MinNote(keys[..i])
    {
      assert keys[..i + 1][..i] == keys[..i];
      var k := keys[i];
      if IsNoteKey(k) && NoteOf(k) < root {
        root := NoteOf(k);
      }
      i := i + 1;
    }
    assert keys[..|keys|] == keys;
  }

  /** `ARP_PATTERNS`: semitone offsets above the root. */
  const ArpPatterns: seq<seq<int>> := [
    [0, 4, 7, 12, 7, 4],
    [0, 3, 7, 12, 7, 3],
    [0, 4, 7, 11, 12, 11, 7, 4],
    [0, 7, 12, 0, 5, 12],
    [0, 3, 7, 10, 14, 10, 7, 3],
    [0, 2, 4, 7, 9, 12, 9, 7, 4, 2]]

  /** One arpeggiator step: nothing when no key is held or the root is above
      120; otherwise the note `root + pattern[arpIndex % length]` and the
      incremented index. */
  function ArpStep(keys: seq<Code>, root: int, pattern: seq<int>, arpIndex: nat): (r: Option<(int, nat)>)
    requires |pattern| > 0
    ensures r.Some? <==> |keys| > 0 && root <= 120
    ensures r.Some? ==> r.value.1 == arpIndex + 1
    ensures r.Some? ==> r.value.0 - root in pattern
  {
    if |keys| == 0 || root > 120 then None
    else Some((root + pattern[arpIndex % |pattern|], arpIndex + 1))
  }

  /** The notes `k` arpeggiator steps play from index `arpIndex` while the
      same keys stay held over the same root; a step that plays nothing
      ends the run. */
  function ArpRun(keys: seq<Code>, root: int, pattern: seq<int>, arpIndex: nat, k: nat): seq<int>
    requires |pattern| > 0
    decreases k
  {
    if k == 0 then []
    else match ArpStep(keys, root, pattern, arpIndex)
      case None => []
      case Some(r) => [r.0] + ArpRun(keys, root, pattern, r.1, k - 1)
  }

  /** While a key is held and the root is at most 120, every step plays:
      step `j` of a run from `arpIndex` plays the root plus offset
      `(arpIndex + j) % length` of the pattern, so the steps walk the
      pattern in order and wrap round at its end. */
  lemma {:induction false} ArpRunWalksPattern(keys: seq<Code>, root: int, pattern: seq<int>, arpIndex: nat, k: nat)
    requires |pattern| > 0 && |keys| > 0 && root <= 120
    ensures |ArpRun(keys, root, pattern, arpIndex, k)| == k
    ensures forall j :: 0 <= j < k ==>
      ArpRun(keys, root, pattern, arpIndex, k)[j] == root + pattern[(arpIndex + j) % |pattern|]
    decreases k
  {
    if k > 0 {
      var rest := ArpRun(keys, root, pattern, arpIndex + 1, k - 1);
      ArpRunWalksPattern(keys, root, pattern, arpIndex + 1, k - 1);
      assert ArpRun(keys, root, pattern, arpIndex, k) == [root + pattern[arpIndex % |pattern|]] + rest;
      forall j | 0 <= j < k
        ensures ArpRun(keys, root, pattern, arpIndex, k)[j] == root + pattern[(arpIndex + j) % |pattern|]
      {
        if j > 0 {
          assert rest[j - 1] == root + pattern[(arpIndex + 1 + (j - 1)) % |pattern|];
        }
      }
    }
  }

  /** With no key held, or a root above 120, the arpeggiator plays nothing. */
  lemma ArpRunSilent(keys: seq<Code>, root: int, pattern: seq<int>, arpIndex: nat, k: nat)
    requires |pattern| > 0 && (|keys| == 0 || root > 120)
    ensures ArpRun(keys, root, pattern, arpIndex, k) == []
  {
  }

  /** A full cycle from index 0 plays the root plus the pattern's offsets
      in order. */
  lemma ArpCyclePlaysPattern(keys: seq<Code>, root: int, pattern: seq<int>)
    requires |pattern| > 0 && |keys| > 0 && root <= 120
    ensures |ArpRun(keys, root, pattern, 0, |pattern|)| == |pattern|
    ensures forall j :: 0 <= j < |pattern| ==> ArpRun(keys, root, pattern, 0, |pattern|)[j] == root + pattern[j]
  {
    ArpRunWalksPattern(keys, root, pattern, 0, |pattern|);
    forall j | 0 <= j < |pattern|
      ensures ArpRun(keys, root, pattern, 0, |pattern|)[j] == root + pattern[j]
    {
      assert (0 + j) % |pattern| == j;
    }
  }

  /** Steps a whole pattern length apart play the same note. */
  lemma ArpRepeatsEveryCycle(keys: seq<Code>, root: int, pattern: seq<int>, arpIndex: nat)
    requires |pattern| > 0 && |keys| > 0 && root <= 120
    ensures ArpStep(keys, root, pattern, arpIndex + |pattern|) == Some((ArpStep(keys, root, pattern, arpIndex).value.0, arpIndex + |pattern| + 1))
  {
    ModAddPeriod(arpIndex, |pattern|);
  }

  /** Adding the modulus leaves a remainder unchanged. */
  lemma ModAddPeriod(i: nat, m: nat)
    requires m > 0
    ensures (i + m) % m == i % m
  {
    var a, b := (i + m) / m, i / m;
    var r1, r2 := (i + m) % m, i % m;
    assert i + m == m * a + r1 && i == m * b + r2;
    assert m * a - m * b - m == r2 - r1;
    assert m * (a - b - 1) == m * a - m * b - m;
    MultipleInWindow(a - b - 1, m, r2 - r1);
  }

  /** The only multiple of `m` strictly between `-m` and `m` is 0. */
  lemma MultipleInWindow(k: int, m: int, d: int)
    requires m > 0 && m * k == d && -m < d < m
    ensures k == 0
  {
  }

  /** Every step of every built-in pattern is 0 to 14 semitones. */
  lemma ArpPatternBounds(p: int, j: int)
    requires 0 <= p < |ArpPatterns| && 0 <= j < |ArpPatterns[p]|
    ensures 0 <= ArpPatterns[p][j] <= 14
  {
    var pat := ArpPatterns[p];
    assert p == 0 || p == 1 || p == 2 || p == 3 || p == 4 || p == 5;
    assert forall x :: x in pat ==> 0 <= x <= 14;
    assert pat[j] in pat;
  }

  /** With held note keys the root is a key note (at most 79), so the
      arpeggiator always plays: the lowest held note plus the pattern's
      offset at the current index, at most 14 semitones above the lowest
      held note for every built-in pattern. */
  lemma ArpAlwaysPlaysForHeldNotes(keys: seq<Code>, p: nat, arpIndex: nat)
    requires |keys| > 0 && forall k :: k in keys ==> IsNoteKey(k)
    requires p < |ArpPatterns|
    ensures ArpStep(keys, MinNote(keys), ArpPatterns[p], arpIndex).Some?
    ensures var root := MinNote(keys);
      var m := root + ArpPatterns[p][arpIndex % |ArpPatterns[p]|];
      ArpStep(keys, root, ArpPatterns[p], arpIndex).value.0 == m && root <= m <= root + 14
  {
    HeldRootOnGrid(keys);
    ArpPatternBounds(p, arpIndex % |ArpPatterns[p]|);
  }

  /** With note keys held the root is the note of one of them, so at most 79. */
  lemma HeldRootOnGrid(keys: seq<Code>)
    requires |keys| > 0 && forall k :: k in keys ==> IsNoteKey(k)
    ensures MinNote(keys) <= 79
  {
    MinNoteIsLowest(keys);
    var k0 := keys[0];
    assert k0 in keys;
    KeyNotesOnGrid(k0);
  }
}
