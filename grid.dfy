/** The 12 x 3 note grid of the instrument: snapping MIDI notes to the white
    keys, mapping between grid cells and MIDI notes, locating the cell under
    the mouse, and placing a cell in the 3-D simulation space (and back to
    its column). */
module Grid {
  import opened Numeric

  const GridCols: int := 12
  const GridRows: int := 3

  /** Semitone within the octave for each grid column. */
  const ColToSemitone: seq<int> := [0, 0, 2, 4, 5, 7, 7, 9, 11, 11, 0, 0]

  /** The pitch classes of the white keys, in the order the reduce visits them. */
  const NaturalSemitones: seq<int> := [0, 2, 4, 5, 7, 9, 11]

  /** The column `midiToCell` assigns to each natural pitch class. */
  const SemitoneToCol: map<int, int> := map[0 := 0, 2 := 2, 4 := 3, 5 := 4, 7 := 5, 9 := 7, 11 := 8]

  datatype Cell = Cell(col: int, row: int)

  predicate ValidCell(c: Cell)
  {
    0 <= c.col < GridCols && 0 <= c.row < GridRows
  }

  function IntAbs(x: int): nat
  {
    if x < 0 then -x else x
  }

  /** One step of the reduce `(a, b) => |s - a| < |s - b| ? a : b`: the
      accumulator survives only when it is strictly nearer. */
  function Nearer(s: int, a: int, b: int): int
  {
    if IntAbs(s - a) < IntAbs(s - b) then a else b
  }

  /** `rest.reduce(Nearer, acc)`, a left fold. */
  function ReduceNearest(s: int, acc: int, rest: seq<int>): (r: int)
    ensures r == acc || r in rest
    decreases |rest|
  {
    if rest == [] then acc else ReduceNearest(s, Nearer(s, acc, rest[0]), rest[1..])
  }

  /** `NATURAL_SEMITONES.reduce(...)` for pitch class `s`. */
  function NearestNatural(s: int): (r: int)
    ensures r in NaturalSemitones
  {
    ReduceNearest(s, NaturalSemitones[0], NaturalSemitones[1..])
  }

  /** `snapToNatural`: keep `Math.floor(midi / 12)` as the octave and replace
      the JavaScript remainder `midi % 12` by the nearest white key. (Dafny's
      `/` floors for a positive divisor, as `Math.floor(midi / 12)` does.) */
  function SnapToNatural(midi: int): int
  {
    (midi / 12) * 12 + NearestNatural(JsRem12(midi))
  }

  /** The reduce over the seven white keys, written out step by step. */
  lemma NearestNaturalUnfolded(s: int)
    ensures NearestNatural(s)
      == Nearer(s, Nearer(s, Nearer(s, Nearer(s, Nearer(s, Nearer(s, 0, 2), 4), 5), 7), 9), 11)
  {
    assert NaturalSemitones[1..] == [2, 4, 5, 7, 9, 11];
    assert [2, 4, 5, 7, 9, 11][1..] == [4, 5, 7, 9, 11];
    assert [4, 5, 7, 9, 11][1..] == [5, 7, 9, 11];
    assert [5, 7, 9, 11][1..] == [7, 9, 11];
    assert [7, 9, 11][1..] == [9, 11];
    assert [9, 11][1..] == [11];
    assert [11][1..] == [];
  }

  /** What the reduce returns for each pitch class 0..11: the nearest white
      key, the upper one on a tie. */
  lemma NearestNaturalTable(s: int)
    requires 0 <= s < 12
    ensures NearestNatural(s) == [0, 2, 2, 4, 4, 5, 7, 7, 9, 9, 11, 11][s]
  {
    NearestNaturalUnfolded(s);
    if s < 6 {
      assert s == 0 || s == 1 || s == 2 || s == 3 || s == 4 || s == 5;
    } else {
      assert s == 6 || s == 7 || s == 8 || s == 9 || s == 10 || s == 11;
    }
  }

  /** For a pitch class in 0..11 the reduce yields a white key at least as
      near as every other white key, and on a tie the upper one. */
  lemma NearestNaturalIsNearest(s: int, n: int)
    requires 0 <= s < 12
    requires n in NaturalSemitones
    ensures IntAbs(s - NearestNatural(s)) <= IntAbs(s - n)
    ensures IntAbs(s - NearestNatural(s)) == IntAbs(s - n) ==> n <= NearestNatural(s)
  {
    NearestNaturalTable(s);
  }

  /** Every accumulator step keeps 0 when all candidates are positive and the
      pitch class is not positive. */
  lemma {:induction false} ReduceKeepsZero(s: int, rest: seq<int>)
    requires s <= 0
    requires forall i :: 0 <= i < |rest| ==> rest[i] > 0
    ensures ReduceNearest(s, 0, rest) == 0
    decreases |rest|
  {
    if rest != [] {
      assert Nearer(s, 0, rest[0]) == 0;
      ReduceKeepsZero(s, rest[1..]);
    }
  }

  /** For negative notes JavaScript's remainder is not positive, so the reduce
      always picks 0: the note drops to the C at or below `Math.floor(midi/12)*12`. */
  lemma SnapNegative(midi: int)
    requires midi < 0
    ensures SnapToNatural(midi) == (midi / 12) * 12
    ensures SnapToNatural(midi) <= midi
  {
    ReduceKeepsZero(JsRem12(midi), NaturalSemitones[1..]);
  }

  /** For non-negative notes the octave is kept and the pitch class becomes a
      white key. */
  lemma SnapKeepsOctave(midi: int)
    requires midi >= 0
    ensures SnapToNatural(midi) / 12 == midi / 12
    ensures SnapToNatural(midi) % 12 in NaturalSemitones
    ensures SnapToNatural(midi) % 12 == NearestNatural(midi % 12)
  {
    NearestNaturalTable(midi % 12);
  }

  /** Snapping is the identity on white keys. */
  lemma SnapIdentityOnNaturals(midi: int)
    requires midi >= 0
    requires midi % 12 in NaturalSemitones
    ensures SnapToNatural(midi) == midi
  {
    NearestNaturalTable(midi % 12);
  }

  /** Black keys snap to the white key above (1->2, 3->4, 6->7, 8->9, 10->11). */
  lemma SnapTiesGoUp(midi: int)
    requires midi >= 0
    requires midi % 12 in [1, 3, 6, 8, 10]
    ensures SnapToNatural(midi) == midi + 1
  {
    NearestNaturalTable(midi % 12);
  }

  /** Snapping twice is snapping once. */
  lemma SnapIdempotent(midi: int)
    requires midi >= 0
    ensures SnapToNatural(SnapToNatural(midi)) == SnapToNatural(midi)
  {
    SnapKeepsOctave(midi);
    SnapIdentityOnNaturals(SnapToNatural(midi));
  }

  /** `cellToMidi`: C3 (48) plus one octave per row above the bottom row,
      plus the column's semitone. */
  function CellToMidi(col: int, row: int): (m: int)
    requires 0 <= col < GridCols
    ensures 0 <= row < GridRows ==> 48 <= m <= 83
    ensures m % 12 == ColToSemitone[col]
    ensures m % 12 in NaturalSemitones
  {
    48 + (2 - row) * 12 + ColToSemitone[col]
  }

  /** The row of a snapped note: two minus its octave above C3, clamped to
      0..2. */
  function NoteRow(m: int): (row: int)
    ensures 0 <= row < GridRows
  {
    var r := 2 - (m - 48) / 12;
    if r < 0 then 0 else if r > 2 then 2 else r
  }

  /** `midiToCell`: snap, then the row from the octave (clamped to 0..2) and
      the column from the pitch class (0 when the class is not in the table). */
  function MidiToCell(midi: int): (c: Cell)
    ensures ValidCell(c)
  {
    var m := SnapToNatural(midi);
    var st := JsRem12(m);
    Cell(if st in SemitoneToCol then SemitoneToCol[st] else 0, NoteRow(m))
  }

  /** `midiToCell` only ever picks the seven columns of the natural notes
      C D E F G A B (0, 2, 3, 4, 5, 7, 8). */
  lemma MidiToCellColumns(midi: int)
    ensures MidiToCell(midi).col in [0, 2, 3, 4, 5, 7, 8]
  {
  }

  /** A natural note keeps its own cell: the column of its pitch class and
      the row of its octave. */
  lemma NaturalNoteCell(midi: int)
    requires midi >= 0 && midi % 12 in NaturalSemitones
    ensures midi % 12 in SemitoneToCol && MidiToCell(midi) == Cell(SemitoneToCol[midi % 12], NoteRow(midi))
  {
    SnapIdentityOnNaturals(midi);
    assert JsRem12(midi) == midi % 12;
  }

  /** The row survives a round trip through a MIDI note. */
  lemma CellRowRoundTrip(col: int, row: int)
    requires 0 <= col < GridCols && 0 <= row < GridRows
    ensures MidiToCell(CellToMidi(col, row)).row == row
  {
    var m := CellToMidi(col, row);
    SnapIdentityOnNaturals(m);
    assert (m - 48) / 12 == 2 - row;
  }

  /** A note whose snapped value lies on the grid (48..83) comes back as that
      snapped value. */
  lemma MidiCellRoundTrip(midi: int)
    requires 48 <= SnapToNatural(midi) <= 83
    ensures CellToMidi(MidiToCell(midi).col, MidiToCell(midi).row) == SnapToNatural(midi)
  {
    if midi < 0 {
      SnapNegative(midi);
    }
    SnapKeepsOctave(midi);
    var m := SnapToNatural(midi);
    assert (m - 48) / 12 == m / 12 - 4;
    assert JsRem12(m) == m % 12;
  }

  /** The note of a cell is reproduced by the cell `midiToCell` picks for it
      (the column may differ: columns 0/1, 5/6, 8/9 and 10/11 share a note). */
  lemma CellNoteStable(col: int, row: int)
    requires 0 <= col < GridCols && 0 <= row < GridRows
    ensures CellToMidi(MidiToCell(CellToMidi(col, row)).col, MidiToCell(CellToMidi(col, row)).row) == CellToMidi(col, row)
  {
    var m := CellToMidi(col, row);
    SnapIdentityOnNaturals(m);
    MidiCellRoundTrip(m);
  }

  /** `getCellFromMouse` for a window of width `w` and height `h`. */
  function CellFromMouse(clientX: real, clientY: real, w: real, h: real): (r: Option<Cell>)
    requires w > 0.0 && h > 0.0
    ensures r.Some? <==> 0.0 <= clientX < w && 0.0 <= clientY < h
    ensures r.Some? ==> ValidCell(r.value)
    ensures r.Some? ==> r.value.col as real <= clientX / w * 12.0 < r.value.col as real + 1.0
    ensures r.Some? ==> r.value.row as real <= clientY / h * 3.0 < r.value.row as real + 1.0
  {
    var col := ((clientX / w) * 12.0).Floor;
    var row := ((clientY / h) * 3.0).Floor;
    FloorInRange(clientX, w, 12);
    FloorInRange(clientY, h, 3);
    if col < 0 || col >= GridCols || row < 0 || row >= GridRows then None else Some(Cell(col, row))
  }

  /** `floor(v / size * n)` is in 0..n-1 exactly when `0 <= v < size`. */
  lemma FloorInRange(v: real, size: real, n: int)
    requires size > 0.0 && n > 0
    ensures 0 <= ((v / size) * n as real).Floor < n <==> 0.0 <= v < size
  {
    var u := v / size;
    var t := u * n as real;
    assert u * size == v;
    ScaleBelow(u, size);
    ScaleBelow(u, n as real);
    assert t.Floor as real <= t < t.Floor as real + 1.0;
  }

  /** Scaling by a positive factor maps [0, 1) onto [0, n). */
  lemma ScaleBelow(u: real, n: real)
    requires n > 0.0
    ensures 0.0 <= u < 1.0 <==> 0.0 <= u * n < n
  {
    assert (1.0 - u) * n == n - u * n;
  }

  /** `cellToPosition3D`: column centres spread over x in [-1.5, 1.5], rows
      over y in [-0.6, 0.6], in the plane z = 0. */
  function CellToPosition3D(col: int, row: int): (p: Vec3)
    ensures 0 <= col < GridCols ==> -1.5 < p.x < 1.5
    ensures 0 <= row < GridRows ==> -0.6 < p.y < 0.6
    ensures p.z == 0.0
  {
    Vec3(((col as real + 0.5) / 12.0) * 3.0 - 1.5, 0.6 - (row as real + 0.5) / 3.0 * 1.2, 0.0)
  }

  /** Distinct cells are placed at distinct points. */
  lemma PositionInjective(c1: Cell, c2: Cell)
    requires CellToPosition3D(c1.col, c1.row) == CellToPosition3D(c2.col, c2.row)
    ensures c1 == c2
  {
  }

  /** The column recovered from an attractor x coordinate (the spectrum-bar
      index of the animation loop), clamped to 0..11. */
  function ActiveCol(x: real): (c: int)
    ensures 0 <= c < GridCols
  {
    var raw := (((x + 1.5) / 3.0) * 12.0).Floor;
    if raw < 0 then 0 else if raw > GridCols - 1 then GridCols - 1 else raw
  }

  /** Placing a cell and recovering its column gives the column back. */
  lemma ActiveColRoundTrip(col: int, row: int)
    requires 0 <= col < GridCols
    ensures ActiveCol(CellToPosition3D(col, row).x) == col
  {
    var x := CellToPosition3D(col, row).x;
    assert ((x + 1.5) / 3.0) * 12.0 == col as real + 0.5;
  }
}
