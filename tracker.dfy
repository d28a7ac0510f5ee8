/** The camera motion tracker: a frame of RGBA bytes is cut into 16 vertical
    columns, each column's contrast and motion energy is summed over every
    second pixel of every second row, the energies are smoothed, the first
    strict maximum is found and a centroid taken in a window of three
    columns either side; the mirrored centroid drives the smoothed head
    position, and the lower half of the frame drives the hand knobs and the
    fast-swipe detector. */
module Tracker {
  import opened Numeric

  const Columns: nat := 16
  /** Both loops visit every second pixel of every second row. */
  const Step: nat := 2

  function AbsInt(x: int): (r: int)
    ensures r >= 0 && (r == x || r == -x)
  {
    if x < 0 then -x else x
  }

  /** The frame holds at least `cw · ch` RGBA pixels. */
  predicate FrameFits(data: seq<int>, cw: nat, ch: nat)
  {
    cw * ch * 4 <= |data|
  }

  /** The red byte of pixel `(x, y)` is at `(y · cw + x) · 4`, and its blue
      byte is inside a frame of `cw · ch` pixels. */
  lemma PixelInFrame(cw: nat, ch: nat, x: nat, y: nat)
    requires x < cw && y < ch
    ensures (y * cw + x) * 4 + 2 < cw * ch * 4
  {
    var row := y * cw;
    assert (y + 1) * cw == row + cw;
    MulMonotone(y + 1, ch, cw);
    assert ch * cw == cw * ch;
  }

  lemma {:induction false} MulMonotone(a: nat, b: nat, c: nat)
    requires a <= b
    ensures a * c <= b * c
    decreases b - a
  {
    if a < b {
      MulMonotone(a, b - 1, c);
      assert b * c == (b - 1) * c + c;
    }
  }

  function PixelIndex(cw: nat, x: nat, y: nat): nat
  {
    (y * cw + x) * 4
  }

  /** `|R - R'| + |G - G'| + |B - B'|` between the pixel at byte `i` of `a`
      and the pixel at byte `j` of `b`. */
  function ColourDiff(a: seq<int>, i: nat, b: seq<int>, j: nat): (r: int)
    requires i + 2 < |a| && j + 2 < |b|
    ensures r >= 0
  {
    AbsInt(a[i] - b[j]) + AbsInt(a[i + 1] - b[j + 1]) + AbsInt(a[i + 2] - b[j + 2])
  }

  /** The contrast term of pixel `(x, y)`: the colour difference to the
      pixel two to the right plus the one to the pixel two below, counted
      only when both lie inside the column and the row band. */
  function PixelContrast(data: seq<int>, cw: nat, ch: nat, x: nat, y: nat, x1: nat, yEnd: nat): (r: int)
    requires FrameFits(data, cw, ch) && x < x1 <= cw && y < yEnd <= ch
    ensures r >= 0
  {
    if x + Step < x1 && y + Step < yEnd then
      PixelInFrame(cw, ch, x, y);
      PixelInFrame(cw, ch, x + Step, y);
      PixelInFrame(cw, ch, x, y + Step);
      ColourDiff(data, PixelIndex(cw, x, y), data, PixelIndex(cw, x + Step, y))
      + ColourDiff(data, PixelIndex(cw, x, y), data, PixelIndex(cw, x, y + Step))
    else 0
  }

  /** The motion term of pixel `(x, y)`: its colour difference to the same
      pixel of the previous frame, times `weight`; nothing without a
      previous frame. */
  function PixelMotion(data: seq<int>, prev: Option<seq<int>>, cw: nat, ch: nat, x: nat, y: nat, weight: nat): (r: int)
    requires FrameFits(data, cw, ch) && (prev.Some? ==> FrameFits(prev.value, cw, ch)) && x < cw && y < ch
    ensures r >= 0
  {
    if prev.Some? then
      PixelInFrame(cw, ch, x, y);
      ColourDiff(data, PixelIndex(cw, x, y), prev.value, PixelIndex(cw, x, y)) * weight
    else 0
  }

  /** The region one column's loops cover: `x0 <= x < x1` and
      `yStart <= y < yEnd`, inside the frame. */
  predicate Region(data: seq<int>, prev: Option<seq<int>>, cw: nat, ch: nat, x1: nat, yEnd: nat)
  {
    FrameFits(data, cw, ch) && (prev.Some? ==> FrameFits(prev.value, cw, ch)) && x1 <= cw && yEnd <= ch
  }

  /** Contrast of row `y` from `x` on, in steps of two. */
  function RowContrast(data: seq<int>, prev: Option<seq<int>>, cw: nat, ch: nat, y: nat, x: nat, x1: nat, yEnd: nat): int
    requires Region(data, prev, cw, ch, x1, yEnd) && y < yEnd
    decreases x1 - x
  {
    if x >= x1 then 0 else PixelContrast(data, cw, ch, x, y, x1, yEnd) + RowContrast(data, prev, cw, ch, y, x + Step, x1, yEnd)
  }

  /** Weighted motion of row `y` from `x` on, in steps of two. */
  function RowMotion(data: seq<int>, prev: Option<seq<int>>, cw: nat, ch: nat, y: nat, x: nat, x1: nat, yEnd: nat, weight: nat): int
    requires Region(data, prev, cw, ch, x1, yEnd) && y < yEnd
    decreases x1 - x
  {
    if x >= x1 then 0 else PixelMotion(data, prev, cw, ch, x, y, weight) + RowMotion(data, prev, cw, ch, y, x + Step, x1, yEnd, weight)
  }

  /** Contrast of the rows from `y` on, in steps of two, over `x0 <= x < x1`. */
  function BandContrast(data: seq<int>, prev: Option<seq<int>>, cw: nat, ch: nat, y: nat, x0: nat, x1: nat, yEnd: nat): int
    requires Region(data, prev, cw, ch, x1, yEnd)
    decreases yEnd - y
  {
    if y >= yEnd then 0
    else RowContrast(data, prev, cw, ch, y, x0, x1, yEnd) + BandContrast(data, prev, cw, ch, y + Step, x0, x1, yEnd)
  }

  /** Weighted motion of the rows from `y` on, in steps of two. */
  function BandMotion(data: seq<int>, prev: Option<seq<int>>, cw: nat, ch: nat, y: nat, x0: nat, x1: nat, yEnd: nat, weight: nat): int
    requires Region(data, prev, cw, ch, x1, yEnd)
    decreases yEnd - y
  {
    if y >= yEnd then 0
    else RowMotion(data, prev, cw, ch, y, x0, x1, yEnd, weight) + BandMotion(data, prev, cw, ch, y + Step, x0, x1, yEnd, weight)
  }

  /** Column `c` spans `c · colW <= x < min(c · colW + colW, cw)` with
      `colW = floor(cw / 16)`. */
  function ColumnStart(cw: nat, c: nat): nat { c * (cw / Columns) }
  function ColumnEnd(cw: nat, c: nat): nat
  {
    if ColumnStart(cw, c) + cw / Columns <= cw then ColumnStart(cw, c) + cw / Columns else cw
  }

  /** The sixteen columns close before the frame's right edge, so the
      `Math.min` with `cw` never bites and the head tracker's plain
      `x0 + colW` is the same bound. */
  lemma ColumnsFit(cw: nat, c: nat)
    requires c < Columns
    ensures ColumnEnd(cw, c) == ColumnStart(cw, c) + cw / Columns <= cw
    ensures ColumnStart(cw, c) <= ColumnEnd(cw, c)
  {
    var w := cw / Columns;
    assert c * w + w == (c + 1) * w;
    assert (c + 1) * w <= Columns * w by {
      assert (Columns - (c + 1)) * w >= 0;
    }
  }

  /** One column's energy: contrast plus weighted motion over its region. */
  function ColumnEnergy(data: seq<int>, prev: Option<seq<int>>, cw: nat, ch: nat, c: nat, yStart: nat, yEnd: nat, weight: nat): int
    requires Region(data, prev, cw, ch, cw, yEnd) && c < Columns
  {
    ColumnsFit(cw, c);
    BandContrast(data, prev, cw, ch, yStart, ColumnStart(cw, c), ColumnEnd(cw, c), yEnd)
    + BandMotion(data, prev, cw, ch, yStart, ColumnStart(cw, c), ColumnEnd(cw, c), yEnd, weight)
  }

  /** One column's weighted motion alone. */
  function ColumnMotion(data: seq<int>, prev: Option<seq<int>>, cw: nat, ch: nat, c: nat, yStart: nat, yEnd: nat, weight: nat): int
    requires Region(data, prev, cw, ch, cw, yEnd) && c < Columns
  {
    ColumnsFit(cw, c);
    BandMotion(data, prev, cw, ch, yStart, ColumnStart(cw, c), ColumnEnd(cw, c), yEnd, weight)
  }

  /** The sixteen column energies. */
  function ColumnEnergies(data: seq<int>, prev: Option<seq<int>>, cw: nat, ch: nat, yStart: nat, yEnd: nat, weight: nat): (e: seq<int>)
    requires Region(data, prev, cw, ch, cw, yEnd)
    ensures |e| == Columns
  {
    seq(Columns, c requires 0 <= c < Columns => ColumnEnergy(data, prev, cw, ch, c, yStart, yEnd, weight))
  }

  /** The motion summed over the first `k` columns. */
  function MotionUpTo(data: seq<int>, prev: Option<seq<int>>, cw: nat, ch: nat, k: nat, yStart: nat, yEnd: nat, weight: nat): int
    requires Region(data, prev, cw, ch, cw, yEnd) && k <= Columns
  {
    if k == 0 then 0 else MotionUpTo(data, prev, cw, ch, k - 1, yStart, yEnd, weight) + ColumnMotion(data, prev, cw, ch, k - 1, yStart, yEnd, weight)
  }

  // ---- Energies are non-negative, and motion against the same frame is zero.

  lemma {:induction false} RowNonNegative(data: seq<int>, prev: Option<seq<int>>, cw: nat, ch: nat, y: nat, x: nat, x1: nat, yEnd: nat, weight: nat)
    requires Region(data, prev, cw, ch, x1, yEnd) && y < yEnd
    ensures RowContrast(data, prev, cw, ch, y, x, x1, yEnd) >= 0
    ensures RowMotion(data, prev, cw, ch, y, x, x1, yEnd, weight) >= 0
    decreases x1 - x
  {
    if x < x1 {
      RowNonNegative(data, prev, cw, ch, y, x + Step, x1, yEnd, weight);
    }
  }

  lemma {:induction false} BandNonNegative(data: seq<int>, prev: Option<seq<int>>, cw: nat, ch: nat, y: nat, x0: nat, x1: nat, yEnd: nat, weight: nat)
    requires Region(data, prev, cw, ch, x1, yEnd)
    ensures BandContrast(data, prev, cw, ch, y, x0, x1, yEnd) >= 0
    ensures BandMotion(data, prev, cw, ch, y, x0, x1, yEnd, weight) >= 0
    decreases yEnd - y
  {
    if y < yEnd {
      RowNonNegative(data, prev, cw, ch, y, x0, x1, yEnd, weight);
      BandNonNegative(data, prev, cw, ch, y + Step, x0, x1, yEnd, weight);
    }
  }

  /** Every column energy, and every column's motion, is at least 0. */
  lemma EnergiesNonNegative(data: seq<int>, prev: Option<seq<int>>, cw: nat, ch: nat, yStart: nat, yEnd: nat, weight: nat)
    requires Region(data, prev, cw, ch, cw, yEnd)
    ensures forall c :: 0 <= c < Columns ==> ColumnEnergies(data, prev, cw, ch, yStart, yEnd, weight)[c] >= 0
    ensures forall c :: 0 <= c < Columns ==> ColumnMotion(data, prev, cw, ch, c, yStart, yEnd, weight) >= 0
  {
    forall c | 0 <= c < Columns
      ensures ColumnEnergies(data, prev, cw, ch, yStart, yEnd, weight)[c] >= 0
      ensures ColumnMotion(data, prev, cw, ch, c, yStart, yEnd, weight) >= 0
    {
      ColumnsFit(cw, c);
      BandNonNegative(data, prev, cw, ch, yStart, ColumnStart(cw, c), ColumnEnd(cw, c), yEnd, weight);
    }
  }

  lemma {:induction false} RowMotionSameFrame(data: seq<int>, cw: nat, ch: nat, y: nat, x: nat, x1: nat, yEnd: nat, weight: nat)
    requires Region(data, Some(data), cw, ch, x1, yEnd) && y < yEnd
    ensures RowMotion(data, Some(data), cw, ch, y, x, x1, yEnd, weight) == 0
    decreases x1 - x
  {
    if x < x1 {
      RowMotionSameFrame(data, cw, ch, y, x + Step, x1, yEnd, weight);
    }
  }

  lemma {:induction false} BandMotionSameFrame(data: seq<int>, cw: nat, ch: nat, y: nat, x0: nat, x1: nat, yEnd: nat, weight: nat)
    requires Region(data, Some(data), cw, ch, x1, yEnd)
    ensures BandMotion(data, Some(data), cw, ch, y, x0, x1, yEnd, weight) == 0
    decreases yEnd - y
  {
    if y < yEnd {
      RowMotionSameFrame(data, cw, ch, y, x0, x1, yEnd, weight);
      BandMotionSameFrame(data, cw, ch, y + Step, x0, x1, yEnd, weight);
    }
  }

  /** Compared with itself a frame has no motion: every column's motion,
      and their total, is 0, and the energies are the contrast alone, the
      same as with no previous frame. */
  lemma {:induction false} MotionSameFrame(data: seq<int>, cw: nat, ch: nat, k: nat, yStart: nat, yEnd: nat, weight: nat)
    requires Region(data, Some(data), cw, ch, cw, yEnd) && k <= Columns
    ensures MotionUpTo(data, Some(data), cw, ch, k, yStart, yEnd, weight) == 0
    ensures ColumnEnergies(data, Some(data), cw, ch, yStart, yEnd, weight) == ColumnEnergies(data, None, cw, ch, yStart, yEnd, weight)
  {
    if k > 0 {
      MotionSameFrame(data, cw, ch, k - 1, yStart, yEnd, weight);
      ColumnsFit(cw, k - 1);
      BandMotionSameFrame(data, cw, ch, yStart, ColumnStart(cw, k - 1), ColumnEnd(cw, k - 1), yEnd, weight);
    }
    forall c | 0 <= c < Columns
      ensures ColumnEnergies(data, Some(data), cw, ch, yStart, yEnd, weight)[c] == ColumnEnergies(data, None, cw, ch, yStart, yEnd, weight)[c]
    {
      ColumnsFit(cw, c);
      BandMotionSameFrame(data, cw, ch, yStart, ColumnStart(cw, c), ColumnEnd(cw, c), yEnd, weight);
      BandNoPrevious(data, cw, ch, yStart, ColumnStart(cw, c), ColumnEnd(cw, c), yEnd, weight);
      BandContrastAnyPrevious(data, Some(data), cw, ch, yStart, ColumnStart(cw, c), ColumnEnd(cw, c), yEnd);
    }
  }

  lemma {:induction false} RowNoPrevious(data: seq<int>, cw: nat, ch: nat, y: nat, x: nat, x1: nat, yEnd: nat, weight: nat)
    requires Region(data, None, cw, ch, x1, yEnd) && y < yEnd
    ensures RowMotion(data, None, cw, ch, y, x, x1, yEnd, weight) == 0
    decreases x1 - x
  {
    if x < x1 {
      RowNoPrevious(data, cw, ch, y, x + Step, x1, yEnd, weight);
    }
  }

  lemma {:induction false} BandNoPrevious(data: seq<int>, cw: nat, ch: nat, y: nat, x0: nat, x1: nat, yEnd: nat, weight: nat)
    requires Region(data, None, cw, ch, x1, yEnd)
    ensures BandMotion(data, None, cw, ch, y, x0, x1, yEnd, weight) == 0
    decreases yEnd - y
  {
    if y < yEnd {
      RowNoPrevious(data, cw, ch, y, x0, x1, yEnd, weight);
      BandNoPrevious(data, cw, ch, y + Step, x0, x1, yEnd, weight);
    }
  }

  lemma {:induction false} RowContrastAnyPrevious(data: seq<int>, prev: Option<seq<int>>, cw: nat, ch: nat, y: nat, x: nat, x1: nat, yEnd: nat)
    requires Region(data, prev, cw, ch, x1, yEnd) && y < yEnd
    ensures RowContrast(data, prev, cw, ch, y, x, x1, yEnd) == RowContrast(data, None, cw, ch, y, x, x1, yEnd)
    decreases x1 - x
  {
    if x < x1 {
      RowContrastAnyPrevious(data, prev, cw, ch, y, x + Step, x1, yEnd);
    }
  }

  lemma {:induction false} BandContrastAnyPrevious(data: seq<int>, prev: Option<seq<int>>, cw: nat, ch: nat, y: nat, x0: nat, x1: nat, yEnd: nat)
    requires Region(data, prev, cw, ch, x1, yEnd)
    ensures BandContrast(data, prev, cw, ch, y, x0, x1, yEnd) == BandContrast(data, None, cw, ch, y, x0, x1, yEnd)
    decreases yEnd - y
  {
    if y < yEnd {
      RowContrastAnyPrevious(data, prev, cw, ch, y, x0, x1, yEnd);
      BandContrastAnyPrevious(data, prev, cw, ch, y + Step, x0, x1, yEnd);
    }
  }

  // ---- The energy loops.

  /** The inner `x` loop over one row of one column: contrast plus motion,
      and the motion alone. */
  method RowEnergy(data: seq<int>, prev: Option<seq<int>>, cw: nat, ch: nat, y: nat, x0: nat, x1: nat, yEnd: nat, weight: nat)
    returns (energy: int, motion: int)
    requires Region(data, prev, cw, ch, x1, yEnd) && y < yEnd
    ensures energy == RowContrast(data, prev, cw, ch, y, x0, x1, yEnd) + RowMotion(data, prev, cw, ch, y, x0, x1, yEnd, weight)
    ensures motion == RowMotion(data, prev, cw, ch, y, x0, x1, yEnd, weight)
  {
    energy, motion := 0, 0;
    var x := x0;
    while x < x1
      invariant x >= x0
      invariant energy + RowContrast(data, prev, cw, ch, y, x, x1, yEnd) + RowMotion(data, prev, cw, ch, y, x, x1, yEnd, weight)
             == RowContrast(data, prev, cw, ch, y, x0, x1, yEnd) + RowMotion(data, prev, cw, ch, y, x0, x1, yEnd, weight)
      invariant motion + RowMotion(data, prev, cw, ch, y, x, x1, yEnd, weight) == RowMotion(data, prev, cw, ch, y, x0, x1, yEnd, weight)
      decreases x1 - x
    {
      var e, m := PixelEnergy(data, prev, cw, ch, x, y, x1, yEnd, weight);
      energy := energy + e;
      motion := motion + m;
      x := x + Step;
    }
  }

  /** The body of the `x` loop for pixel `(x, y)`: its contrast and
      weighted motion, and the motion alone. */
  method PixelEnergy(data: seq<int>, prev: Option<seq<int>>, cw: nat, ch: nat, x: nat, y: nat, x1: nat, yEnd: nat, weight: nat)
    returns (energy: int, motion: int)
    requires Region(data, prev, cw, ch, x1, yEnd) && x < x1 && y < yEnd
    ensures energy == PixelContrast(data, cw, ch, x, y, x1, yEnd) + PixelMotion(data, prev, cw, ch, x, y, weight)
    ensures motion == PixelMotion(data, prev, cw, ch, x, y, weight)
  {
    PixelInFrame(cw, ch, x, y);
    var i := (y * cw + x) * 4;
    var r, g, b := data[i], data[i + 1], data[i + 2];
    energy, motion := 0, 0;
    if x + Step < x1 && y + Step < yEnd {
      PixelInFrame(cw, ch, x + Step, y);
      PixelInFrame(cw, ch, x, y + Step);
      var j := (y * cw + x + Step) * 4;
      var k := ((y + Step) * cw + x) * 4;
      assert j == PixelIndex(cw, x + Step, y) && k == PixelIndex(cw, x, y + Step);
      energy := energy + AbsInt(r - data[j]) + AbsInt(g - data[j + 1]) + AbsInt(b - data[j + 2]);
      energy := energy + AbsInt(r - data[k]) + AbsInt(g - data[k + 1]) + AbsInt(b - data[k + 2]);
    }
    if prev.Some? {
      var p := prev.value;
      var m := (AbsInt(r - p[i]) + AbsInt(g - p[i + 1]) + AbsInt(b - p[i + 2])) * weight;
      energy := energy + m;
      motion := m;
    }
  }

  /** The `y` loop of one column. */
  method BandEnergy(data: seq<int>, prev: Option<seq<int>>, cw: nat, ch: nat, yStart: nat, x0: nat, x1: nat, yEnd: nat, weight: nat)
    returns (energy: int, motion: int)
    requires Region(data, prev, cw, ch, x1, yEnd)
    ensures energy == BandContrast(data, prev, cw, ch, yStart, x0, x1, yEnd) + BandMotion(data, prev, cw, ch, yStart, x0, x1, yEnd, weight)
    ensures motion == BandMotion(data, prev, cw, ch, yStart, x0, x1, yEnd, weight)
  {
    energy, motion := 0, 0;
    var y := yStart;
    while y < yEnd
      invariant y >= yStart
      invariant energy + BandContrast(data, prev, cw, ch, y, x0, x1, yEnd) + BandMotion(data, prev, cw, ch, y, x0, x1, yEnd, weight)
             == BandContrast(data, prev, cw, ch, yStart, x0, x1, yEnd) + BandMotion(data, prev, cw, ch, yStart, x0, x1, yEnd, weight)
      invariant motion + BandMotion(data, prev, cw, ch, y, x0, x1, yEnd, weight) == BandMotion(data, prev, cw, ch, yStart, x0, x1, yEnd, weight)
      decreases yEnd - y
    {
      var e, m := RowEnergy(data, prev, cw, ch, y, x0, x1, yEnd, weight);
      energy := energy + e;
      motion := motion + m;
      y := y + Step;
    }
  }

  /** The column loop: a fresh array with the sixteen column energies, and
      the motion summed over all columns; every read stays inside the
      frame. */
  method FillColumnEnergies(data: seq<int>, prev: Option<seq<int>>, cw: nat, ch: nat, yStart: nat, yEnd: nat, weight: nat)
    returns (colEnergy: array<int>, totalMotion: int)
    requires Region(data, prev, cw, ch, cw, yEnd)
    ensures fresh(colEnergy) && colEnergy.Length == Columns
    ensures colEnergy[..] == ColumnEnergies(data, prev, cw, ch, yStart, yEnd, weight)
    ensures totalMotion == MotionUpTo(data, prev, cw, ch, Columns, yStart, yEnd, weight)
  {
    colEnergy := new int[Columns];
    totalMotion := 0;
    var colW := cw / Columns;
    var c := 0;
    while c < Columns
      invariant 0 <= c <= Columns
      invariant forall k :: 0 <= k < c ==> colEnergy[k] == ColumnEnergy(data, prev, cw, ch, k, yStart, yEnd, weight)
      invariant totalMotion == MotionUpTo(data, prev, cw, ch, c, yStart, yEnd, weight)
    {
      ColumnsFit(cw, c);
      var x0 := c * colW;
      var x1 := if x0 + colW <= cw then x0 + colW else cw;
      var e, m := BandEnergy(data, prev, cw, ch, yStart, x0, x1, yEnd, weight);
      colEnergy[c] := e;
      totalMotion := totalMotion + m;
      c := c + 1;
    }
  }

  // ---- Smoothing, peak and centroid.

  /** The hand tracker's kernel `[1, 2, 1]`, cut off at the edges. */
  function HandSmooth(e: seq<int>): (s: seq<real>)
    requires |e| == Columns
    ensures |s| == Columns
  {
    seq(Columns, c requires 0 <= c < Columns =>
      (e[c] * 2) as real + (if c > 0 then e[c - 1] as real else 0.0) + (if c < Columns - 1 then e[c + 1] as real else 0.0))
  }

  /** The head tracker's kernel `[0.5, 1, 2, 1, 0.5]`, cut off at the edges. */
  function HeadSmooth(e: seq<int>): (s: seq<real>)
    requires |e| == Columns
    ensures |s| == Columns
  {
    seq(Columns, c requires 0 <= c < Columns =>
      (e[c] * 2) as real + (if c > 0 then e[c - 1] as real else 0.0) + (if c < Columns - 1 then e[c + 1] as real else 0.0)
      + (if c > 1 then e[c - 2] as real * 0.5 else 0.0) + (if c < Columns - 2 then e[c + 2] as real * 0.5 else 0.0))
  }

  predicate NonNegative(e: seq<int>)
  {
    forall c :: 0 <= c < |e| ==> e[c] >= 0
  }

  predicate NonNegativeReals(s: seq<real>)
  {
    forall c :: 0 <= c < |s| ==> s[c] >= 0.0
  }

  /** Both kernels keep non-negative energies non-negative, and a column
      with energy keeps a positive smoothed value. */
  lemma SmoothNonNegative(e: seq<int>)
    requires |e| == Columns && NonNegative(e)
    ensures NonNegativeReals(HandSmooth(e)) && NonNegativeReals(HeadSmooth(e))
    ensures forall c :: 0 <= c < Columns && e[c] > 0 ==> HandSmooth(e)[c] > 0.0 && HeadSmooth(e)[c] > 0.0
  {
  }

  /** The peak loop from column `c` on, with the best column and value so
      far: a column replaces the best only when strictly greater. */
  function PeakScan(s: seq<real>, c: nat, best: nat, bestVal: real): (r: nat)
    requires c <= |s|
    ensures r == best || c <= r < |s|
    decreases |s| - c
  {
    if c == |s| then best
    else if s[c] > bestVal then PeakScan(s, c + 1, c, s[c])
    else PeakScan(s, c + 1, best, bestVal)
  }

  /** The peak column: the loop starts at the middle column with value 0. */
  function Peak(s: seq<real>): (p: nat)
    ensures p == Columns / 2 || p < |s|
  {
    PeakScan(s, 0, Columns / 2, 0.0)
  }

  /** What the scan has established after columns `0 .. c-1`. */
  predicate PeakSoFar(s: seq<real>, c: nat, best: nat, bestVal: real)
    requires c <= |s|
  {
    (best == Columns / 2 && bestVal == 0.0 && forall k :: 0 <= k < c ==> s[k] <= 0.0)
    || (best < c && bestVal == s[best] && bestVal > 0.0
        && (forall k :: 0 <= k < c ==> s[k] <= bestVal) && (forall k :: 0 <= k < best ==> s[k] < bestVal))
  }

  lemma {:induction false} PeakScanCorrect(s: seq<real>, c: nat, best: nat, bestVal: real)
    requires c <= |s| && PeakSoFar(s, c, best, bestVal)
    ensures PeakSoFar(s, |s|, PeakScan(s, c, best, bestVal), if PeakScan(s, c, best, bestVal) < |s| then s[PeakScan(s, c, best, bestVal)] else 0.0)
            || (PeakScan(s, c, best, bestVal) == Columns / 2 && forall k :: 0 <= k < |s| ==> s[k] <= 0.0)
    decreases |s| - c
  {
    if c < |s| {
      if s[c] > bestVal {
        PeakScanCorrect(s, c + 1, c, s[c]);
      } else {
        PeakScanCorrect(s, c + 1, best, bestVal);
      }
    }
  }

  /** The peak is the first strict maximum of the smoothed energies when
      one of them is positive, and the middle column 8 when none is. */
  lemma PeakIsFirstMaximum(s: seq<real>)
    requires |s| == Columns
    ensures (forall c :: 0 <= c < Columns ==> s[c] <= 0.0) ==> Peak(s) == 8
    ensures (exists c :: 0 <= c < Columns && s[c] > 0.0) ==>
      Peak(s) < Columns && s[Peak(s)] > 0.0
      && (forall c :: 0 <= c < Columns ==> s[c] <= s[Peak(s)])
      && (forall c :: 0 <= c < Peak(s) ==> s[c] < s[Peak(s)])
    ensures Peak(s) < Columns
  {
    PeakScanCorrect(s, 0, Columns / 2, 0.0);
  }

  /** The centroid window: three columns either side of the peak, cut off
      at the edges. */
  function WindowLo(p: nat): nat { if p >= 3 then p - 3 else 0 }
  function WindowHi(p: nat): nat { if p + 3 <= Columns - 1 then p + 3 else Columns - 1 }

  /** A smoothed value weighted by the centre of its column. */
  function Weighted(x: real, c: nat): real
  {
    x * (c as real + 0.5)
  }

  lemma WeightedBounds(x: real, c: nat)
    requires x >= 0.0 && c < Columns
    ensures 0.5 * x <= Weighted(x, c) <= 15.5 * x
  {
    var w := c as real + 0.5;
    ProductSign(x, w - 0.5);
    ProductSign(x, 15.5 - w);
    assert x * (w - 0.5) == x * w - 0.5 * x;
    assert x * (15.5 - w) == 15.5 * x - x * w;
  }

  /** `sum smooth[c] * (c + 0.5)` over `lo <= c < k`. */
  function WeightedSum(s: seq<real>, lo: nat, k: nat): real
    requires k <= |s|
    decreases k
  {
    if k <= lo then 0.0 else WeightedSum(s, lo, k - 1) + Weighted(s[k - 1], k - 1)
  }

  /** `sum smooth[c]` over `lo <= c < k`. */
  function WindowTotal(s: seq<real>, lo: nat, k: nat): real
    requires k <= |s|
    decreases k
  {
    if k <= lo then 0.0 else WindowTotal(s, lo, k - 1) + s[k - 1]
  }

  /** The centroid of the window around peak `p`, as a fraction of the
      frame width; 0.5 when the window carries no weight. */
  function CentroidOf(s: seq<real>, p: nat): real
    requires |s| == Columns && p < Columns
  {
    var total := WindowTotal(s, WindowLo(p), WindowHi(p) + 1);
    if total > 0.0 then WeightedSum(s, WindowLo(p), WindowHi(p) + 1) / total / (Columns as real) else 0.5
  }

  lemma {:induction false} WindowBounds(s: seq<real>, lo: nat, k: nat)
    requires k <= |s| <= Columns && NonNegativeReals(s)
    ensures WindowTotal(s, lo, k) >= 0.0
    ensures 0.5 * WindowTotal(s, lo, k) <= WeightedSum(s, lo, k) <= 15.5 * WindowTotal(s, lo, k)
    decreases k
  {
    if k > lo {
      WindowBounds(s, lo, k - 1);
      WeightedBounds(s[k - 1], k - 1);
    }
  }

  /** With non-negative smoothed energies the centroid is 0.5 exactly when
      the window weighs nothing, and otherwise lies in [0.5/16, 15.5/16];
      so the mirrored position `1 - centroid` is strictly inside (0, 1). */
  lemma CentroidRange(s: seq<real>, p: nat)
    requires |s| == Columns && p < Columns && NonNegativeReals(s)
    ensures WindowTotal(s, WindowLo(p), WindowHi(p) + 1) == 0.0 ==> CentroidOf(s, p) == 0.5
    ensures 0.5 / 16.0 <= CentroidOf(s, p) <= 15.5 / 16.0
    ensures 0.0 < 1.0 - CentroidOf(s, p) < 1.0
  {
    var lo, k := WindowLo(p), WindowHi(p) + 1;
    WindowBounds(s, lo, k);
    var t := WindowTotal(s, lo, k);
    if t > 0.0 {
      QuotientBounds(WeightedSum(s, lo, k), t, 0.5, 15.5);
    }
  }

  /** The smoothing loops. */
  method SmoothHandColumns(e: array<int>) returns (s: array<real>)
    requires e.Length == Columns
    ensures fresh(s) && s[..] == HandSmooth(e[..])
  {
    s := new real[Columns];
    var c := 0;
    while c < Columns
      invariant 0 <= c <= Columns
      invariant forall k :: 0 <= k < c ==> s[k] == HandSmooth(e[..])[k]
    {
      var v := (e[c] * 2) as real;
      if c > 0 { v := v + e[c - 1] as real; }
      if c < Columns - 1 { v := v + e[c + 1] as real; }
      s[c] := v;
      c := c + 1;
    }
  }

  method SmoothHeadColumns(e: array<int>) returns (s: array<real>)
    requires e.Length == Columns
    ensures fresh(s) && s[..] == HeadSmooth(e[..])
  {
    s := new real[Columns];
    var c := 0;
    while c < Columns
      invariant 0 <= c <= Columns
      invariant forall k :: 0 <= k < c ==> s[k] == HeadSmooth(e[..])[k]
    {
      var v := (e[c] * 2) as real;
      if c > 0 { v := v + e[c - 1] as real; }
      if c < Columns - 1 { v := v + e[c + 1] as real; }
      if c > 1 { v := v + e[c - 2] as real * 0.5; }
      if c < Columns - 2 { v := v + e[c + 2] as real * 0.5; }
      s[c] := v;
      c := c + 1;
    }
  }

  /** The peak loop. */
  method PeakColumn(s: array<real>) returns (peakCol: nat)
    requires s.Length == Columns
    ensures peakCol == Peak(s[..])
  {
    peakCol := Columns / 2;
    var peakVal := 0.0;
    var c := 0;
    while c < Columns
      invariant 0 <= c <= Columns
      invariant PeakScan(s[..], c, peakCol, peakVal) == Peak(s[..])
    {
      if s[c] > peakVal {
        peakVal := s[c];
        peakCol := c;
      }
      c := c + 1;
    }
  }

  /** The centroid loop over the window around `peakCol`. */
  method Centroid(s: array<real>, peakCol: nat) returns (centroid: real)
    requires s.Length == Columns && peakCol < Columns
    ensures centroid == CentroidOf(s[..], peakCol)
  {
    var wSum, wTotal := 0.0, 0.0;
    var lo := if peakCol >= 3 then peakCol - 3 else 0;
    var hi := if peakCol + 3 <= Columns - 1 then peakCol + 3 else Columns - 1;
    var c := lo;
    while c <= hi
      invariant lo <= c <= hi + 1
      invariant wSum == WeightedSum(s[..], lo, c) && wTotal == WindowTotal(s[..], lo, c)
    {
      wSum := wSum + Weighted(s[c], c);
      wTotal := wTotal + s[c];
      c := c + 1;
    }
    centroid := if wTotal > 0.0 then wSum / wTotal / (Columns as real) else 0.5;
  }

  /** `sum colEnergy[c]` over `c < k`. */
  function EnergyUpTo(e: seq<int>, k: nat): int
    requires k <= |e|
  {
    if k == 0 then 0 else EnergyUpTo(e, k - 1) + e[k - 1]
  }

  method TotalEnergy(e: array<int>) returns (total: int)
    ensures total == EnergyUpTo(e[..], e.Length)
  {
    total := 0;
    var c := 0;
    while c < e.Length
      invariant 0 <= c <= e.Length && total == EnergyUpTo(e[..], c)
    {
      total := total + e[c];
      c := c + 1;
    }
  }

  /** With no previous frame there is no motion at all. */
  lemma {:induction false} MotionNoPrevious(data: seq<int>, cw: nat, ch: nat, k: nat, yStart: nat, yEnd: nat, weight: nat)
    requires Region(data, None, cw, ch, cw, yEnd) && k <= Columns
    ensures MotionUpTo(data, None, cw, ch, k, yStart, yEnd, weight) == 0
  {
    if k > 0 {
      MotionNoPrevious(data, cw, ch, k - 1, yStart, yEnd, weight);
      ColumnsFit(cw, k - 1);
      BandNoPrevious(data, cw, ch, yStart, ColumnStart(cw, k - 1), ColumnEnd(cw, k - 1), yEnd, weight);
    }
  }

  lemma {:induction false} MotionNonNegative(data: seq<int>, prev: Option<seq<int>>, cw: nat, ch: nat, k: nat, yStart: nat, yEnd: nat, weight: nat)
    requires Region(data, prev, cw, ch, cw, yEnd) && k <= Columns
    ensures MotionUpTo(data, prev, cw, ch, k, yStart, yEnd, weight) >= 0
  {
    if k > 0 {
      MotionNonNegative(data, prev, cw, ch, k - 1, yStart, yEnd, weight);
      EnergiesNonNegative(data, prev, cw, ch, yStart, yEnd, weight);
    }
  }

  // ---- The hand tracker: virtual knobs and fast swipes.

  /** Frame-to-frame motion of the hand position, per second of the assumed
      33 ms frame, that counts as a fast swipe (`FAST_SWIPE_VEL`). */
  const FastSwipeVel: real := 0.22
  const FrameSeconds: real := 0.033

  /** A hand reading: the mirrored centroid in (0, 1) and the motion total. */
  datatype Reading = Reading(rawX: real, motion: int)

  datatype HandState = HandState(handX: real, prevHandX: real, handMotion: real, knob1: real, knob2: real,
                                 swipeTime: real, swipeDir: int)

  /** The hand reading of a frame: energies of the bottom half with motion
      weight 2, smoothed `[1, 2, 1]`, centroid around the peak. */
  function HandReading(data: seq<int>, prev: Option<seq<int>>, cw: nat, ch: nat): Reading
    requires Region(data, prev, cw, ch, cw, ch)
  {
    var s := HandSmooth(ColumnEnergies(data, prev, cw, ch, ch / 2, ch, 2));
    Reading(1.0 - CentroidOf(s, Peak(s)), MotionUpTo(data, prev, cw, ch, Columns, ch / 2, ch, 2))
  }

  /** The hand state after a reading at time `now` (milliseconds). */
  function HandStep(h: HandState, r: Reading, now: real): HandState
  {
    var vel := (r.rawX - h.prevHandX) / FrameSeconds;
    var swiped := Abs(vel) >= FastSwipeVel;
    var handX := Lerp(h.handX, r.rawX, 0.25);
    var handMotion := Lerp(h.handMotion, Min(1.0, r.motion as real / 800.0), 0.2);
    HandState(handX, r.rawX, handMotion, Clamp(handX, 0.0, 1.0), handMotion,
              if swiped then now * 0.001 else h.swipeTime,
              if swiped then (if vel > 0.0 then 1 else -1) else h.swipeDir)
  }

  /** A reading is a swipe exactly when the hand moved at least
      0.22 * 0.033 of the frame width since the last reading; the swipe
      records the time in seconds and the direction of the move, and
      otherwise the last swipe is kept. The previous position becomes the
      reading, the position moves a quarter of the way to it and knob 1 is
      the position clamped to [0, 1]. */
  lemma HandStepSwipe(h: HandState, r: Reading, now: real)
    ensures var n := HandStep(h, r, now);
      n.prevHandX == r.rawX
      && n.handX - h.handX == (r.rawX - h.handX) * 0.25
      && InRange(n.knob1, 0.0, 1.0) && (InRange(n.handX, 0.0, 1.0) ==> n.knob1 == n.handX)
      && (Abs(r.rawX - h.prevHandX) >= FastSwipeVel * FrameSeconds ==>
            n.swipeTime == now * 0.001 && n.swipeDir == (if r.rawX > h.prevHandX then 1 else -1))
      && (Abs(r.rawX - h.prevHandX) < FastSwipeVel * FrameSeconds ==>
            n.swipeTime == h.swipeTime && n.swipeDir == h.swipeDir)
  {
    var d := r.rawX - h.prevHandX;
    var vel := d / FrameSeconds;
    assert vel * FrameSeconds == d;
    assert Abs(vel) >= FastSwipeVel <==> Abs(d) >= FastSwipeVel * FrameSeconds;
    assert vel > 0.0 <==> d > 0.0;
  }

  /** Knob 2 follows the motion: it is the new motion level, a fifth of the
      way from the old one to the motion total over 800 capped at 1; from
      a level in [0, 1] it stays in [0, 1], and with no motion it decays by
      a fifth. */
  lemma HandStepMotion(h: HandState, r: Reading, now: real)
    requires r.motion >= 0
    ensures var n := HandStep(h, r, now);
      n.knob2 == n.handMotion
      && (InRange(h.handMotion, 0.0, 1.0) ==> InRange(n.knob2, 0.0, 1.0))
      && (r.motion == 0 ==> n.handMotion == h.handMotion * 0.8)
      && (r.motion >= 800 && InRange(h.handMotion, 0.0, 1.0) ==> h.handMotion <= n.handMotion <= 1.0)
  {
    var norm := Min(1.0, r.motion as real / 800.0);
    assert 0.0 <= norm <= 1.0;
    if InRange(h.handMotion, 0.0, 1.0) {
      LerpStaysInRange(h.handMotion, norm, 0.2, 0.0, 1.0);
      LerpProperties(h.handMotion, norm, 0.2);
    }
  }

  // ---- The head tracker.

  /** How the head position was last estimated. */
  datatype DetectionMethod = NoDetection | Tracking | LowEnergy

  /** A head reading: the mirrored centroid and the total column energy. */
  datatype HeadReading = HeadReading(rawX: real, total: int)

  datatype HeadState = HeadState(headX: real, confidence: real, lastDetect: real, detection: DetectionMethod)

  /** The head tracker's band: from 5% to 85% of the frame height. */
  function HeadTop(ch: nat): nat { ch * 5 / 100 }
  function HeadBottom(ch: nat): nat { ch * 85 / 100 }

  /** Total energy above which the frame counts as tracked (`numCols * 100`). */
  const EnergyThreshold: int := 1600

  function HeadReadingOf(e: seq<int>): HeadReading
    requires |e| == Columns
  {
    var s := HeadSmooth(e);
    HeadReading(1.0 - CentroidOf(s, Peak(s)), EnergyUpTo(e, Columns))
  }

  /** Confidence: the total over five times the threshold, capped at 1,
      above the threshold; 0.1 otherwise. */
  function HeadConfidence(total: int): real
  {
    if total > EnergyThreshold then Min(1.0, total as real / (EnergyThreshold * 5) as real) else 0.1
  }

  function HeadStep(h: HeadState, r: HeadReading): HeadState
  {
    var conf := HeadConfidence(r.total);
    h.(headX := Lerp(h.headX, r.rawX, 0.35 + conf * 0.4), confidence := conf,
       detection := if r.total > EnergyThreshold then Tracking else LowEnergy)
  }

  /** The confidence is in [0.1, 1]: 0.1 at or below the threshold, 1 from
      five times the threshold on, and otherwise rising with the total; so
      the head moves between 39% and 75% of the way to the reading, and a
      position in [0, 1] stays there for a reading in [0, 1]. */
  lemma HeadStepProperties(h: HeadState, r: HeadReading)
    ensures var n := HeadStep(h, r);
      0.1 <= n.confidence <= 1.0
      && (r.total <= EnergyThreshold ==> n.confidence == 0.1 && n.detection == LowEnergy)
      && (r.total >= EnergyThreshold * 5 ==> n.confidence == 1.0 && n.detection == Tracking)
      && (EnergyThreshold < r.total <= EnergyThreshold * 5 ==> n.confidence == r.total as real / 8000.0)
      && n.headX - h.headX == (r.rawX - h.headX) * (0.35 + n.confidence * 0.4)
      && 0.39 <= 0.35 + n.confidence * 0.4 <= 0.75
      && (InRange(h.headX, 0.0, 1.0) && InRange(r.rawX, 0.0, 1.0) ==> InRange(n.headX, 0.0, 1.0))
      && n.lastDetect == h.lastDetect
  {
    var conf := HeadConfidence(r.total);
    if InRange(h.headX, 0.0, 1.0) && InRange(r.rawX, 0.0, 1.0) {
      LerpStaysInRange(h.headX, r.rawX, 0.35 + conf * 0.4, 0.0, 1.0);
    }
  }

  /** With non-negative energies the readings are inside the frame. */
  lemma ReadingsInRange(data: seq<int>, prev: Option<seq<int>>, cw: nat, ch: nat)
    requires Region(data, prev, cw, ch, cw, ch)
    ensures 0.0 < HandReading(data, prev, cw, ch).rawX < 1.0 && HandReading(data, prev, cw, ch).motion >= 0
    ensures var e := ColumnEnergies(data, prev, cw, ch, HeadTop(ch), HeadBottom(ch), 3);
      0.0 < HeadReadingOf(e).rawX < 1.0 && HeadReadingOf(e).total >= 0
  {
    var eh := ColumnEnergies(data, prev, cw, ch, ch / 2, ch, 2);
    EnergiesNonNegative(data, prev, cw, ch, ch / 2, ch, 2);
    SmoothNonNegative(eh);
    CentroidRange(HandSmooth(eh), Peak(HandSmooth(eh)));
    MotionNonNegative(data, prev, cw, ch, Columns, ch / 2, ch, 2);
    var e := ColumnEnergies(data, prev, cw, ch, HeadTop(ch), HeadBottom(ch), 3);
    EnergiesNonNegative(data, prev, cw, ch, HeadTop(ch), HeadBottom(ch), 3);
    SmoothNonNegative(e);
    CentroidRange(HeadSmooth(e), Peak(HeadSmooth(e)));
    EnergyNonNegative(e, Columns);
  }

  lemma {:induction false} EnergyNonNegative(e: seq<int>, k: nat)
    requires k <= |e| && NonNegative(e)
    ensures EnergyUpTo(e, k) >= 0
  {
    if k > 0 {
      EnergyNonNegative(e, k - 1);
    }
  }

  // ---- The whole tracker.

  datatype TrackerState = TrackerState(hand: HandState, head: HeadState, prev: Option<seq<int>>)

  /** The tracker before the first frame. */
  function InitialTracker(): TrackerState
  {
    TrackerState(HandState(0.5, 0.5, 0.0, 0.5, 0.0, -1.0, 0), HeadState(0.5, 0.0, 0.0, NoDetection), None)
  }

  /** The saved frame, if any, has the size of a frame. */
  predicate Fits(t: TrackerState, cw: nat, ch: nat)
  {
    t.prev.Some? ==> |t.prev.value| == cw * ch * 4
  }

  /** A detection runs only while tracking is on, the video has data and
      at least 33 ms have passed since the last one. */
  predicate Due(t: TrackerState, active: bool, readyState: int, now: real)
  {
    active && readyState >= 2 && now - t.head.lastDetect >= 33.0
  }

  /** With a face detector, only the hand reading runs here (against the
      saved frame), then the frame is saved. */
  function FacePath(t: TrackerState, cw: nat, ch: nat, data: seq<int>, now: real): TrackerState
    requires Fits(t, cw, ch) && |data| == cw * ch * 4
  {
    t.(hand := HandStep(t.hand, HandReading(data, t.prev, cw, ch), now), prev := Some(data))
  }

  /** Without one, the head reading is taken against the saved frame, the
      frame is saved, and the hand reading is then taken against the frame
      just saved, that is against itself. */
  function SkinPath(t: TrackerState, cw: nat, ch: nat, data: seq<int>, now: real): TrackerState
    requires Fits(t, cw, ch) && |data| == cw * ch * 4
  {
    var e := ColumnEnergies(data, t.prev, cw, ch, HeadTop(ch), HeadBottom(ch), 3);
    var handPrev := if t.prev.Some? then Some(data) else None;
    TrackerState(HandStep(t.hand, HandReading(data, handPrev, cw, ch), now), HeadStep(t.head, HeadReadingOf(e)), Some(data))
  }

  function DetectHead(t: TrackerState, cw: nat, ch: nat, data: seq<int>, active: bool, readyState: int, now: real, hasFaceDetector: bool): TrackerState
    requires Fits(t, cw, ch) && |data| == cw * ch * 4
  {
    if !Due(t, active, readyState, now) then t
    else
      var t1 := t.(head := t.head.(lastDetect := now));
      if hasFaceDetector then FacePath(t1, cw, ch, data, now) else SkinPath(t1, cw, ch, data, now)
  }

  /** A detection that is not due changes nothing; one that is records the
      time and saves the frame; with a face detector the head estimate is
      left to the detector. */
  lemma DetectHeadGuards(t: TrackerState, cw: nat, ch: nat, data: seq<int>, active: bool, readyState: int, now: real, hasFaceDetector: bool)
    requires Fits(t, cw, ch) && |data| == cw * ch * 4
    ensures var n := DetectHead(t, cw, ch, data, active, readyState, now, hasFaceDetector);
      (!Due(t, active, readyState, now) ==> n == t)
      && (Due(t, active, readyState, now) ==> n.head.lastDetect == now && n.prev == Some(data) && Fits(n, cw, ch))
      && (Due(t, active, readyState, now) && hasFaceDetector ==> n.head == t.head.(lastDetect := now))
  {
  }

  /** Because the frame is saved before the hand reading, on the path
      without a face detector the hand tracker never sees motion: its
      reading is the one with no previous frame, with motion 0, so knob 2
      only decays. */
  lemma SkinPathHandSeesNoMotion(t: TrackerState, cw: nat, ch: nat, data: seq<int>, now: real)
    requires Fits(t, cw, ch) && |data| == cw * ch * 4
    ensures SkinPath(t, cw, ch, data, now).hand == HandStep(t.hand, HandReading(data, None, cw, ch), now)
    ensures HandReading(data, None, cw, ch).motion == 0
    ensures SkinPath(t, cw, ch, data, now).hand.knob2 == t.hand.handMotion * 0.8
  {
    MotionNoPrevious(data, cw, ch, Columns, ch / 2, ch, 2);
    if t.prev.Some? {
      MotionSameFrame(data, cw, ch, Columns, ch / 2, ch, 2);
    }
    HandStepMotion(t.hand, HandReading(data, None, cw, ch), now);
  }

  /** The tracker's outputs stay in range: both knobs and the positions in
      [0, 1], the head confidence in [0, 1], the swipe direction -1, 0 or 1. */
  predicate Calibrated(t: TrackerState)
  {
    InRange(t.hand.handX, 0.0, 1.0) && InRange(t.hand.prevHandX, 0.0, 1.0)
    && InRange(t.hand.knob1, 0.0, 1.0) && InRange(t.hand.handMotion, 0.0, 1.0) && t.hand.knob2 == t.hand.handMotion
    && -1 <= t.hand.swipeDir <= 1
    && InRange(t.head.headX, 0.0, 1.0) && InRange(t.head.confidence, 0.0, 1.0)
  }

  lemma HandStepCalibrated(h: HandState, r: Reading, now: real)
    requires 0.0 < r.rawX < 1.0 && r.motion >= 0
    requires InRange(h.handX, 0.0, 1.0) && InRange(h.handMotion, 0.0, 1.0) && -1 <= h.swipeDir <= 1
    ensures var n := HandStep(h, r, now);
      InRange(n.handX, 0.0, 1.0) && InRange(n.prevHandX, 0.0, 1.0) && InRange(n.knob1, 0.0, 1.0)
      && InRange(n.handMotion, 0.0, 1.0) && n.knob2 == n.handMotion && -1 <= n.swipeDir <= 1
  {
    LerpStaysInRange(h.handX, r.rawX, 0.25, 0.0, 1.0);
    HandStepMotion(h, r, now);
  }

  /** The tracker starts calibrated and every detection keeps it so. */
  lemma DetectHeadCalibrated(t: TrackerState, cw: nat, ch: nat, data: seq<int>, active: bool, readyState: int, now: real, hasFaceDetector: bool)
    requires Fits(t, cw, ch) && |data| == cw * ch * 4 && Calibrated(t)
    ensures Calibrated(InitialTracker())
    ensures Calibrated(DetectHead(t, cw, ch, data, active, readyState, now, hasFaceDetector))
  {
    if Due(t, active, readyState, now) {
      var t1 := t.(head := t.head.(lastDetect := now));
      if hasFaceDetector {
        ReadingsInRange(data, t.prev, cw, ch);
        HandStepCalibrated(t1.hand, HandReading(data, t.prev, cw, ch), now);
      } else {
        var handPrev := if t.prev.Some? then Some(data) else None;
        ReadingsInRange(data, handPrev, cw, ch);
        ReadingsInRange(data, t.prev, cw, ch);
        HandStepCalibrated(t1.hand, HandReading(data, handPrev, cw, ch), now);
        var e := ColumnEnergies(data, t.prev, cw, ch, HeadTop(ch), HeadBottom(ch), 3);
        HeadStepProperties(t1.head, HeadReadingOf(e));
      }
    }
  }

  /** The tracker's state as the script keeps it. */
  class Tracker {
    const cw: nat
    const ch: nat
    var handX: real
    var prevHandX: real
    var handMotion: real
    var handKnob1: real
    var handKnob2: real
    var fastSwipeTime: real
    var fastSwipeDir: int
    var headX: real
    var headConfidence: real
    var lastHeadDetect: real
    var detectionMethod: DetectionMethod
    var prevFrameData: array?<int>

    function State(): TrackerState
      reads this, prevFrameData
    {
      TrackerState(HandState(handX, prevHandX, handMotion, handKnob1, handKnob2, fastSwipeTime, fastSwipeDir),
                   HeadState(headX, headConfidence, lastHeadDetect, detectionMethod),
                   if prevFrameData == null then None else Some(prevFrameData[..]))
    }

    /** The saved frame, if any, has the size of a frame. */
    predicate Valid()
      reads this
    {
      prevFrameData != null ==> prevFrameData.Length == cw * ch * 4
    }

    constructor(cw: nat, ch: nat)
      ensures this.cw == cw && this.ch == ch
      ensures Valid() && State() == InitialTracker()
    {
      this.cw, this.ch := cw, ch;
      handX, prevHandX, handMotion, handKnob1, handKnob2 := 0.5, 0.5, 0.0, 0.5, 0.0;
      fastSwipeTime, fastSwipeDir := -1.0, 0;
      headX, headConfidence, lastHeadDetect, detectionMethod := 0.5, 0.0, 0.0, NoDetection;
      prevFrameData := null;
    }

    /** Applies a hand reading; nothing else changes. */
    method ApplyHandReading(r: Reading, now: real)
      modifies this
      ensures State() == old(State()).(hand := HandStep(old(State()).hand, r, now))
      ensures prevFrameData == old(prevFrameData) && Valid() == old(Valid())
    {
      var vel := (r.rawX - prevHandX) / FrameSeconds;
      if Abs(vel) >= FastSwipeVel {
        fastSwipeTime := now * 0.001;
        fastSwipeDir := if vel > 0.0 then 1 else -1;
      }
      prevHandX := r.rawX;
      handX := handX + (r.rawX - handX) * 0.25;
      handKnob1 := Max(0.0, Min(1.0, handX));
      var motionNorm := Min(1.0, r.motion as real / 800.0);
      handMotion := handMotion + (motionNorm - handMotion) * 0.2;
      handKnob2 := handMotion;
    }

    /** The hand gesture reading of `data`, against the saved frame when
      `hasPrev`. */
    method DetectHandGesture(data: seq<int>, hasPrev: bool, now: real)
      requires Valid() && |data| == cw * ch * 4 && (hasPrev ==> prevFrameData != null)
      modifies this
      ensures prevFrameData == old(prevFrameData) && Valid()
      ensures State() == old(State()).(hand := HandStep(old(State()).hand, HandReading(data, if hasPrev then old(State()).prev else None, cw, ch), now))
    {
      var prev := if hasPrev then Some(prevFrameData[..]) else None;
      var colEnergy, totalMotion := FillColumnEnergies(data, prev, cw, ch, ch / 2, ch, 2);
      var smooth := SmoothHandColumns(colEnergy);
      var peakCol := PeakColumn(smooth);
      var centroid := Centroid(smooth, peakCol);
      ApplyHandReading(Reading(1.0 - centroid, totalMotion), now);
    }

    /** Copies `data` into the saved frame, allocating it the first time. */
    method SaveFrame(data: seq<int>)
      requires Valid() && |data| == cw * ch * 4
      modifies this, prevFrameData
      ensures Valid() && prevFrameData != null
      ensures old(prevFrameData) != null ==> prevFrameData == old(prevFrameData)
      ensures old(prevFrameData) == null ==> fresh(prevFrameData)
      ensures State() == old(State()).(prev := Some(data))
    {
      if prevFrameData == null {
        prevFrameData := new int[|data|];
      }
      forall i | 0 <= i < |data| {
        prevFrameData[i] := data[i];
      }
      assert prevFrameData[..] == data;
    }

    /** The head reading of the column energies. */
    method ReadHead(colEnergy: array<int>) returns (r: HeadReading)
      requires colEnergy.Length == Columns
      ensures r == HeadReadingOf(colEnergy[..])
    {
      var smooth := SmoothHeadColumns(colEnergy);
      var peakCol := PeakColumn(smooth);
      var centroid := Centroid(smooth, peakCol);
      var totalEnergy := TotalEnergy(colEnergy);
      r := HeadReading(1.0 - centroid, totalEnergy);
    }

    /** Applies a head reading; nothing else changes. */
    method ApplyHeadReading(r: HeadReading)
      modifies this
      ensures State() == old(State()).(head := HeadStep(old(State()).head, r))
      ensures prevFrameData == old(prevFrameData) && Valid() == old(Valid())
    {
      var conf;
      if r.total > EnergyThreshold {
        conf := Min(1.0, r.total as real / (EnergyThreshold * 5) as real);
        detectionMethod := Tracking;
      } else {
        conf := 0.1;
        detectionMethod := LowEnergy;
      }
      var lerpSpeed := 0.35 + conf * 0.4;
      headX := headX + (r.rawX - headX) * lerpSpeed;
      headConfidence := conf;
    }

    /** The path without a face detector. */
    method DetectBySkin(data: seq<int>, now: real)
      requires Valid() && |data| == cw * ch * 4
      modifies this, prevFrameData
      ensures Valid()
      ensures State() == SkinPath(old(State()), cw, ch, data, now)
    {
      var hasPrev := prevFrameData != null && prevFrameData.Length == |data|;
      var prev := if hasPrev then Some(prevFrameData[..]) else None;
      var colEnergy, _ := FillColumnEnergies(data, prev, cw, ch, HeadTop(ch), HeadBottom(ch), 3);
      SaveFrame(data);
      DetectHandGesture(data, hasPrev, now);
      var r := ReadHead(colEnergy);
      ApplyHeadReading(r);
    }

    /** One call of the detection loop, at time `now` in milliseconds, with
      the frame `data` that the canvas would hold. */
    method DetectHeadPosition(data: seq<int>, active: bool, readyState: int, now: real, hasFaceDetector: bool)
      requires Valid() && |data| == cw * ch * 4
      modifies this, prevFrameData
      ensures Valid()
      ensures State() == DetectHead(old(State()), cw, ch, data, active, readyState, now, hasFaceDetector)
    {
      if !active { return; }
      if readyState < 2 { return; }
      if now - lastHeadDetect < 33.0 { return; }
      lastHeadDetect := now;
      if hasFaceDetector {
        DetectHandGesture(data, prevFrameData != null, now);
        SaveFrame(data);
        return;
      }
      DetectBySkin(data, now);
    }
  }
}
