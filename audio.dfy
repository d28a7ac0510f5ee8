/** The analyser-driven levels: the byte spectrum split into bass, mid and
    treble bands, and the gated, smoothed microphone level. */
module Audio {
  import opened Numeric

  datatype Levels = Levels(bass: real, mid: real, treble: real, energy: real)

  /** The start-up levels, before any analyser reading. */
  const SilentLevels: Levels := Levels(0.0, 0.0, 0.0, 0.0)

  /** Bins per spectrum: an analyser with `fftSize` 256 reports 128 bins. */
  const SpectrumBins: nat := 128

  /** Sum of the bins `lo .. hi-1`. */
  function BandSum(data: seq<int>, lo: nat, hi: nat): int
    requires lo <= hi <= |data|
    decreases hi - lo
  {
    if lo == hi then 0 else BandSum(data, lo, hi - 1) + data[hi - 1]
  }

  /** `Math.floor(n * 0.15)` and `Math.floor(n * 0.5)`. */
  function BassEnd(n: nat): nat { (n * 15) / 100 }
  function MidEnd(n: nat): nat { n / 2 }

  predicate Bytes(data: seq<int>)
  {
    forall i :: 0 <= i < |data| ==> 0 <= data[i] <= 255
  }

  /** A band of byte bins sums to between 0 and 255 per bin. */
  lemma {:induction false} BandSumBounds(data: seq<int>, lo: nat, hi: nat)
    requires lo <= hi <= |data| && Bytes(data)
    ensures 0 <= BandSum(data, lo, hi) <= 255 * (hi - lo)
    decreases hi - lo
  {
    if lo < hi {
      BandSumBounds(data, lo, hi - 1);
    }
  }

  /** A band level lies in [0, 1]. */
  lemma LevelBounds(sum: int, count: nat)
    requires count > 0 && 0 <= sum <= 255 * count
    ensures 0.0 <= (sum as real) / ((count * 255) as real) <= 1.0
  {
    var d := (count * 255) as real;
    assert (sum as real) <= d;
  }

  /** The levels of an analyser reading: the three band sums, each divided
      by its bin count times 255, and the weighted energy
      `0.5 bass + 0.3 mid + 0.2 treble`. */
  predicate LevelsOf(data: seq<int>, l: Levels)
    requires |data| >= 7
  {
    var n := |data|;
    l.bass == (BandSum(data, 0, BassEnd(n)) as real) / ((BassEnd(n) * 255) as real)
    && l.mid == (BandSum(data, BassEnd(n), MidEnd(n)) as real) / (((MidEnd(n) - BassEnd(n)) * 255) as real)
    && l.treble == (BandSum(data, MidEnd(n), n) as real) / (((n - MidEnd(n)) * 255) as real)
    && l.energy == l.bass * 0.5 + l.mid * 0.3 + l.treble * 0.2
  }

  /** Every level, and the energy, lies in [0, 1]. */
  predicate LevelsInUnit(l: Levels)
  {
    0.0 <= l.bass <= 1.0 && 0.0 <= l.mid <= 1.0 && 0.0 <= l.treble <= 1.0 && 0.0 <= l.energy <= 1.0
  }

  /** `updateAudioLevels` after an analyser reading: the levels of the
      reading, which with byte bins all lie in [0, 1]. */
  method BandLevels(data: seq<int>) returns (l: Levels)
    requires |data| >= 7
    ensures LevelsOf(data, l)
    ensures Bytes(data) ==> LevelsInUnit(l)
  {
    var n := |data|;
    var bass, mid, treble := 0, 0, 0;
    var bassEnd := (n * 15) / 100;
    var midEnd := n / 2;
    var i := 0;
    while i < bassEnd
      invariant 0 <= i <= bassEnd
      invariant bass == BandSum(data, 0, i)
    {
      bass := bass + data[i];
      i := i + 1;
    }
    i := bassEnd;
    while i < midEnd
      invariant bassEnd <= i <= midEnd
      invariant mid == BandSum(data, bassEnd, i)
    {
      mid := mid + data[i];
      i := i + 1;
    }
    i := midEnd;
    while i < n
      invariant midEnd <= i <= n
      invariant treble == BandSum(data, midEnd, i)
    {
      treble := treble + data[i];
      i := i + 1;
    }
    var b := (bass as real) / ((bassEnd * 255) as real);
    var m := (mid as real) / (((midEnd - bassEnd) * 255) as real);
    var t := (treble as real) / (((n - midEnd) * 255) as real);
    l := Levels(b, m, t, b * 0.5 + m * 0.3 + t * 0.2);
    if Bytes(data) {
      BandSumBounds(data, 0, bassEnd);
      BandSumBounds(data, bassEnd, midEnd);
      BandSumBounds(data, midEnd, n);
      LevelBounds(bass, bassEnd);
      LevelBounds(mid, midEnd - bassEnd);
      LevelBounds(treble, n - midEnd);
    }
  }

  /** For the analyser's 128 bins the bands are bins 0-18, 19-63 and
      64-127. */
  lemma SpectrumBands()
    ensures BassEnd(SpectrumBins) == 19 && MidEnd(SpectrumBins) == 64
  {
  }

  const MicGateLevel: real := 0.012
  const MicSmoothRate: real := 0.11

  /** The microphone gate: levels below 0.012 count as silence. */
  function MicGate(raw: real): (g: real)
    ensures g == 0.0 <==> raw < MicGateLevel || raw == 0.0
    ensures g != 0.0 ==> g == raw && g >= MicGateLevel
  {
    if raw < MicGateLevel then 0.0 else raw
  }

  /** `updateMicLevel` once the level is read: the smoothed value moves 11%
      of the way to the gated level. */
  function MicStep(smoothed: real, raw: real): real
  {
    Lerp(smoothed, MicGate(raw), MicSmoothRate)
  }

  /** With raw levels in [0, 1] the smoothed mic level stays in [0, 1], and
      under the gate it only falls toward silence. */
  lemma MicStepBounds(smoothed: real, raw: real)
    requires 0.0 <= smoothed <= 1.0 && 0.0 <= raw <= 1.0
    ensures 0.0 <= MicStep(smoothed, raw) <= 1.0
    ensures raw < MicGateLevel ==> MicStep(smoothed, raw) <= smoothed
  {
    LerpProperties(smoothed, MicGate(raw), MicSmoothRate);
  }
}
