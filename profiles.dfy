/** The per-key visual profiles, the chord blend of several held keys, and
    the smoothed distortion parameters (`tgt*` targets and `cur*` values). */
module Profiles {
  import opened Numeric

  /** One entry of `KEY_PROFILES`. */
  datatype Profile = Profile(
    folds: real, hue: real, bloom: real, ca: real,
    spiral: real, flow: real, pulse: real, shear: real, wave: real, glitch: real,
    mx: real, my: real, warp: real, contrast: real)

  /** `KEY_PROFILES`: one visual character per grid column. */
  const KeyProfiles: seq<Profile> := [
    Profile(8.0, 0.0, 2.8, 0.012, 0.0, 0.9, 0.0, 0.0, 0.0, 0.0, 0.0, 0.0, 0.0, 1.85),
    Profile(0.0, 0.52, 0.9, 0.002, 0.0, 0.0, 0.0, 0.8, 0.0, 2.2, 0.0, 0.0, 0.2, 2.1),
    Profile(4.0, 0.32, 2.2, 0.007, 1.6, 0.0, 0.0, 0.0, 0.0, 0.0, 0.0, 0.0, 0.0, 1.15),
    Profile(24.0, 0.04, 3.2, 0.016, 0.0, 0.0, 0.7, 0.0, 0.0, 0.0, 0.0, 0.0, 0.0, 1.9),
    Profile(0.0, 0.86, 0.7, 0.003, 0.0, 0.0, 0.0, 0.0, 0.6, 0.0, 1.0, 1.0, 1.6, 2.25),
    Profile(12.0, 0.48, 2.4, 0.01, 0.5, 0.4, 0.0, 0.0, 0.3, 0.0, 0.0, 0.0, 0.0, 1.35),
    Profile(0.0, 0.1, 1.2, 0.004, 0.0, 0.6, 0.4, 0.2, 0.0, 2.0, 0.0, 0.0, 0.8, 2.0),
    Profile(6.0, 0.7, 2.6, 0.009, 0.0, 0.0, 0.5, 0.6, 0.0, 0.0, 1.0, 0.0, 0.0, 1.25),
    Profile(28.0, 0.92, 3.4, 0.018, 0.3, 0.3, 0.2, 0.0, 0.5, 0.0, 0.0, 0.0, 0.0, 1.65),
    Profile(0.0, 0.4, 0.6, 0.002, 0.0, 0.8, 0.0, 0.4, 0.0, 1.0, 1.0, 1.0, 0.0, 2.4),
    Profile(10.0, 0.58, 2.5, 0.011, 0.0, 0.0, 0.9, 0.0, 0.4, 0.0, 0.0, 0.0, 1.8, 1.5),
    Profile(0.0, 0.18, 1.8, 0.006, 1.5, 0.2, 0.0, 0.3, 0.6, 0.7, 1.0, 0.0, 0.0, 1.95)]

  /** The profile a column selects: `KEY_PROFILES[col % KEY_PROFILES.length]`. */
  function ProfileForCol(col: nat): (p: Profile)
    ensures p == KeyProfiles[col % 12]
    ensures col < 12 ==> p == KeyProfiles[col]
  {
    KeyProfiles[col % |KeyProfiles|]
  }

  /** Facts about the table the chord arithmetic relies on: mirror flags
      are 0 or 1, every field is non-negative, contrast lies in [1.15, 2.4]. */
  predicate WellFormed(p: Profile)
  {
    (p.mx == 0.0 || p.mx == 1.0) && (p.my == 0.0 || p.my == 1.0)
    && p.folds >= 0.0 && p.hue >= 0.0 && p.bloom >= 0.0 && p.ca >= 0.0
    && p.spiral >= 0.0 && p.flow >= 0.0 && p.pulse >= 0.0 && p.shear >= 0.0
    && p.wave >= 0.0 && p.glitch >= 0.0 && p.warp >= 0.0
    && 1.15 <= p.contrast <= 2.4
  }

  lemma KeyProfilesWellFormed(i: int)
    requires 0 <= i < |KeyProfiles|
    ensures WellFormed(KeyProfiles[i])
  {
    if i < 6 {
      assert i == 0 || i == 1 || i == 2 || i == 3 || i == 4 || i == 5;
    } else {
      assert i == 6 || i == 7 || i == 8 || i == 9 || i == 10 || i == 11;
    }
  }

  /** The fields of a profile, for stating per-field facts once. */
  datatype Field = Folds | Hue | Bloom | Ca | Spiral | Flow | Pulse | Shear | Wave | Glitch | Mx | My | Warp | Contrast

  function Get(p: Profile, f: Field): real
  {
    match f
    case Folds => p.folds
    case Hue => p.hue
    case Bloom => p.bloom
    case Ca => p.ca
    case Spiral => p.spiral
    case Flow => p.flow
    case Pulse => p.pulse
    case Shear => p.shear
    case Wave => p.wave
    case Glitch => p.glitch
    case Mx => p.mx
    case My => p.my
    case Warp => p.warp
    case Contrast => p.contrast
  }

  /** The mirror flags blend by maximum; every other field by mean. */
  predicate IsMirror(f: Field)
  {
    f == Mx || f == My
  }

  /** Sum of one field over a list of profiles. */
  function Sum(ps: seq<Profile>, f: Field): real
  {
    if ps == [] then 0.0 else Sum(ps[..|ps| - 1], f) + Get(ps[|ps| - 1], f)
  }

  /** Arithmetic mean of one field. */
  function Mean(ps: seq<Profile>, f: Field): real
    requires |ps| > 0
  {
    Sum(ps, f) / (|ps| as real)
  }

  /** `Math.max` over one field, starting from 0. */
  function MaxFrom0(ps: seq<Profile>, f: Field): (m: real)
    ensures m >= 0.0
    ensures forall i :: 0 <= i < |ps| ==> Get(ps[i], f) <= m
    ensures m == 0.0 || exists i :: 0 <= i < |ps| && Get(ps[i], f) == m
  {
    if ps == [] then 0.0
    else
      var prefix := ps[..|ps| - 1];
      var m0 := MaxFrom0(prefix, f);
      assert forall i :: 0 <= i < |ps| - 1 ==> ps[i] == prefix[i];
      Max(m0, Get(ps[|ps| - 1], f))
  }

  /** The running total the blend loop keeps: each profile's field
      weighted by `w`. */
  function WeightedSum(ps: seq<Profile>, f: Field, w: real): real
  {
    if ps == [] then 0.0 else WeightedSum(ps[..|ps| - 1], f, w) + Get(ps[|ps| - 1], f) * w
  }

  /** Weighting each term by `w` weights the sum by `w`. */
  lemma {:induction false} WeightedSumIsScaledSum(ps: seq<Profile>, f: Field, w: real)
    ensures WeightedSum(ps, f, w) == Sum(ps, f) * w
  {
    if ps != [] {
      var prefix := ps[..|ps| - 1];
      WeightedSumIsScaledSum(prefix, f, w);
      var g := Get(ps[|ps| - 1], f);
      assert (Sum(prefix, f) + g) * w == Sum(prefix, f) * w + g * w;
    }
  }

  const ZeroProfile: Profile := Profile(0.0, 0.0, 0.0, 0.0, 0.0, 0.0, 0.0, 0.0, 0.0, 0.0, 0.0, 0.0, 0.0, 0.0)

  /** The chord blend of a list of profiles: the mean of every field, and
      the maximum (from 0) of the mirror flags. */
  function BlendSpec(ps: seq<Profile>): (b: Profile)
    requires |ps| > 0
    ensures forall f :: !IsMirror(f) ==> Get(b, f) == Mean(ps, f)
    ensures forall f :: IsMirror(f) ==> Get(b, f) == MaxFrom0(ps, f)
  {
    Profile(Mean(ps, Folds), Mean(ps, Hue), Mean(ps, Bloom), Mean(ps, Ca),
      Mean(ps, Spiral), Mean(ps, Flow), Mean(ps, Pulse), Mean(ps, Shear), Mean(ps, Wave), Mean(ps, Glitch),
      MaxFrom0(ps, Mx), MaxFrom0(ps, My), Mean(ps, Warp), Mean(ps, Contrast))
  }

  /** One pass of the blend loop body over profile `p`. */
  function BlendStep(b: Profile, p: Profile, w: real): (r: Profile)
    ensures forall f :: !IsMirror(f) ==> Get(r, f) == Get(b, f) + Get(p, f) * w
    ensures forall f :: IsMirror(f) ==> Get(r, f) == Max(Get(b, f), Get(p, f))
  {
    b.(folds := b.folds + p.folds * w, bloom := b.bloom + p.bloom * w, ca := b.ca + p.ca * w,
       spiral := b.spiral + p.spiral * w, flow := b.flow + p.flow * w,
       pulse := b.pulse + p.pulse * w, shear := b.shear + p.shear * w,
       wave := b.wave + p.wave * w, glitch := b.glitch + p.glitch * w,
       warp := b.warp + p.warp * w, contrast := b.contrast + p.contrast * w,
       hue := b.hue + p.hue * w,
       mx := Max(b.mx, p.mx), my := Max(b.my, p.my))
  }

  /** What the blend loop has accumulated after the profiles `done`. */
  predicate Blended(b: Profile, done: seq<Profile>, w: real)
  {
    (forall f :: !IsMirror(f) ==> Get(b, f) == WeightedSum(done, f, w))
    && (forall f :: IsMirror(f) ==> Get(b, f) == MaxFrom0(done, f))
  }

  lemma BlendStepExtends(b: Profile, done: seq<Profile>, p: Profile, w: real)
    requires Blended(b, done, w)
    ensures Blended(BlendStep(b, p, w), done + [p], w)
  {
    var q := done + [p];
    assert q[..|q| - 1] == done;
    assert q[|q| - 1] == p;
    var r := BlendStep(b, p, w);
    forall f | !IsMirror(f)
      ensures Get(r, f) == WeightedSum(q, f, w)
    {
    }
    forall f | IsMirror(f)
      ensures Get(r, f) == MaxFrom0(q, f)
    {
    }
  }

  /** The chord blend loop: every field accumulates `p.field * w` with
      `w = 1 / length`, except the mirror flags, which take `Math.max`
      starting from 0. The result is the mean of each field and the maximum
      of each mirror flag. */
  method BlendProfiles(ps: seq<Profile>) returns (b: Profile)
    requires |ps| > 0
    ensures forall f :: !IsMirror(f) ==> Get(b, f) == Mean(ps, f)
    ensures forall f :: IsMirror(f) ==> Get(b, f) == MaxFrom0(ps, f)
    ensures b == BlendSpec(ps)
  {
    var w := 1.0 / (|ps| as real);
    b := ZeroProfile;
    var i := 0;
    while i < |ps|
      invariant 0 <= i <= |ps|
      invariant Blended(b, ps[..i], w)
    {
      BlendStepExtends(b, ps[..i], ps[i], w);
      assert ps[..i + 1] == ps[..i] + [ps[i]];
      b := BlendStep(b, ps[i], w);
      i := i + 1;
    }
    assert ps[..|ps|] == ps;
    BlendedIsSpec(b, ps, w);
  }

  /** The loop's total, once every profile is in, is the blend. */
  lemma BlendedIsSpec(b: Profile, ps: seq<Profile>, w: real)
    requires |ps| > 0 && w == 1.0 / (|ps| as real) && Blended(b, ps, w)
    ensures b == BlendSpec(ps)
  {
    forall f | !IsMirror(f)
      ensures Get(b, f) == Mean(ps, f)
    {
      WeightedSumIsScaledSum(ps, f, w);
      assert Sum(ps, f) * w == Sum(ps, f) / (|ps| as real);
    }
    ProfileFieldsDetermine(b, BlendSpec(ps));
  }

  /** Summing a field over copies of one profile multiplies it by the count. */
  lemma {:induction false} SumOfCopies(ps: seq<Profile>, p: Profile, f: Field)
    requires forall i :: 0 <= i < |ps| ==> ps[i] == p
    ensures Sum(ps, f) == (|ps| as real) * Get(p, f)
  {
    if ps != [] {
      var prefix := ps[..|ps| - 1];
      assert forall i :: 0 <= i < |prefix| ==> prefix[i] == p;
      SumOfCopies(prefix, p, f);
      assert Sum(ps, f) == (|prefix| as real) * Get(p, f) + Get(p, f);
    }
  }

  /** Blending copies of one profile gives that profile back. */
  lemma MeanOfCopies(ps: seq<Profile>, p: Profile, f: Field)
    requires |ps| > 0 && forall i :: 0 <= i < |ps| ==> ps[i] == p
    ensures Mean(ps, f) == Get(p, f)
  {
    SumOfCopies(ps, p, f);
    DivideProduct(|ps| as real, Get(p, f));
  }

  lemma DivideProduct(n: real, g: real)
    requires n > 0.0
    ensures (n * g) / n == g
  {
  }

  /** The mirror maximum over copies of one profile is that profile's flag
      (or 0 if it were negative). */
  lemma MaxOfCopies(ps: seq<Profile>, p: Profile, f: Field)
    requires |ps| > 0 && forall i :: 0 <= i < |ps| ==> ps[i] == p
    ensures MaxFrom0(ps, f) == Max(0.0, Get(p, f))
  {
    var m := MaxFrom0(ps, f);
    assert Get(ps[0], f) <= m;
    if m != 0.0 {
      var i :| 0 <= i < |ps| && Get(ps[i], f) == m;
      assert ps[i] == p;
    }
  }

  /** A field bounded on every profile stays bounded in the sum. */
  lemma SumBounds(ps: seq<Profile>, f: Field, lo: real, hi: real)
    requires forall i :: 0 <= i < |ps| ==> lo <= Get(ps[i], f) <= hi
    ensures (|ps| as real) * lo <= Sum(ps, f) <= (|ps| as real) * hi
  {
    SumAtLeast(ps, f, lo);
    SumAtMost(ps, f, hi);
  }

  lemma {:induction false} SumAtLeast(ps: seq<Profile>, f: Field, lo: real)
    requires forall i :: 0 <= i < |ps| ==> lo <= Get(ps[i], f)
    ensures (|ps| as real) * lo <= Sum(ps, f)
  {
    if ps != [] {
      var prefix := ps[..|ps| - 1];
      forall i | 0 <= i < |prefix|
        ensures lo <= Get(prefix[i], f)
      {
        assert prefix[i] == ps[i];
      }
      SumAtLeast(prefix, f, lo);
      assert lo <= Get(ps[|ps| - 1], f);
      assert Sum(ps, f) == Sum(prefix, f) + Get(ps[|ps| - 1], f);
      SuccTimes(|prefix|, lo);
    }
  }

  lemma {:induction false} SumAtMost(ps: seq<Profile>, f: Field, hi: real)
    requires forall i :: 0 <= i < |ps| ==> Get(ps[i], f) <= hi
    ensures Sum(ps, f) <= (|ps| as real) * hi
  {
    if ps != [] {
      var prefix := ps[..|ps| - 1];
      forall i | 0 <= i < |prefix|
        ensures Get(prefix[i], f) <= hi
      {
        assert prefix[i] == ps[i];
      }
      SumAtMost(prefix, f, hi);
      assert Get(ps[|ps| - 1], f) <= hi;
      assert Sum(ps, f) == Sum(prefix, f) + Get(ps[|ps| - 1], f);
      SuccTimes(|prefix|, hi);
    }
  }

  /** `(n + 1) * x == n * x + x`. */
  lemma SuccTimes(n: nat, x: real)
    ensures ((n + 1) as real) * x == (n as real) * x + x
  {
  }

  /** The mean lies between the field's bounds. */
  lemma MeanBounds(ps: seq<Profile>, f: Field, lo: real, hi: real)
    requires |ps| > 0
    requires forall i :: 0 <= i < |ps| ==> lo <= Get(ps[i], f) <= hi
    ensures lo <= Mean(ps, f) <= hi
  {
    SumBounds(ps, f, lo, hi);
    var n := |ps| as real;
    assert Mean(ps, f) * n == Sum(ps, f);
  }

  /** With mirror flags in {0, 1}, the blended flag is 1 exactly when some
      held profile has it set. */
  lemma MirrorBlendIsFlag(ps: seq<Profile>, f: Field)
    requires IsMirror(f)
    requires forall i :: 0 <= i < |ps| ==> Get(ps[i], f) == 0.0 || Get(ps[i], f) == 1.0
    ensures MaxFrom0(ps, f) == 0.0 || MaxFrom0(ps, f) == 1.0
    ensures MaxFrom0(ps, f) == 1.0 <==> exists i :: 0 <= i < |ps| && Get(ps[i], f) == 1.0
  {
  }

  /** The smoothed distortion parameters: a target set (`tgt*`,
      `targetKaleidoFolds`, `targetKaleidoMix`) or a current set (`cur*`,
      `currentKaleidoFolds`, `kaleidoMix`). */
  datatype Params = Params(
    folds: real, mix: real, spiral: real, flow: real, pulse: real, shear: real,
    wave: real, glitch: real, mirrorX: real, mirrorY: real, warp: real, contrast: real)

  datatype Param = PFolds | PMix | PSpiral | PFlow | PPulse | PShear | PWave | PGlitch | PMirrorX | PMirrorY | PWarp | PContrast

  function GetParam(q: Params, f: Param): real
  {
    match f
    case PFolds => q.folds
    case PMix => q.mix
    case PSpiral => q.spiral
    case PFlow => q.flow
    case PPulse => q.pulse
    case PShear => q.shear
    case PWave => q.wave
    case PGlitch => q.glitch
    case PMirrorX => q.mirrorX
    case PMirrorY => q.mirrorY
    case PWarp => q.warp
    case PContrast => q.contrast
  }

  /** The start-up values: six folds, mix 0.15, contrast 1, all else 0. */
  const InitialParams: Params := Params(6.0, 0.15, 0.0, 0.0, 0.0, 0.0, 0.0, 0.0, 0.0, 0.0, 0.0, 1.0)

  /** The profile field each target other than the mix is taken from. */
  function FieldOf(f: Param): Field
    requires f != PMix
  {
    match f
    case PFolds => Folds
    case PSpiral => Spiral
    case PFlow => Flow
    case PPulse => Pulse
    case PShear => Shear
    case PWave => Wave
    case PGlitch => Glitch
    case PMirrorX => Mx
    case PMirrorY => My
    case PWarp => Warp
    case PContrast => Contrast
  }

  /** The targets a single trigger sets: every field from the profile, and
      the given kaleidoscope mix. */
  function TriggerTargets(p: Profile, mix: real): Params
  {
    Params(p.folds, mix, p.spiral, p.flow, p.pulse, p.shear, p.wave, p.glitch, p.mx, p.my, p.warp, p.contrast)
  }

  /** A trigger's targets are the mix it is given and, for every other
      target, the matching field of the profile. */
  lemma TriggerTargetsFromProfile(p: Profile, mix: real)
    ensures GetParam(TriggerTargets(p, mix), PMix) == mix
    ensures forall f :: f != PMix ==> GetParam(TriggerTargets(p, mix), f) == Get(p, FieldOf(f))
  {
    forall f | f != PMix
      ensures GetParam(TriggerTargets(p, mix), f) == Get(p, FieldOf(f))
    {
      match f
      case PFolds =>
      case PSpiral =>
      case PFlow =>
      case PPulse =>
      case PShear =>
      case PWave =>
      case PGlitch =>
      case PMirrorX =>
      case PMirrorY =>
      case PWarp =>
      case PContrast =>
    }
  }

  /** Two profiles give the same trigger targets exactly when they agree
      on the twelve fields other than hue, bloom and chromatic aberration. */
  lemma TriggerTargetsAgree(p: Profile, q: Profile, mix: real)
    ensures TriggerTargets(p, mix) == TriggerTargets(q, mix)
        <==> forall f :: f != PMix ==> Get(p, FieldOf(f)) == Get(q, FieldOf(f))
  {
    TriggerTargetsFromProfile(p, mix);
    TriggerTargetsFromProfile(q, mix);
    if forall f :: f != PMix ==> Get(p, FieldOf(f)) == Get(q, FieldOf(f)) {
      SameFieldsSameTargets(p, q, mix);
    }
  }

  /** Profiles agreeing on the twelve target fields give the same targets. */
  lemma SameFieldsSameTargets(p: Profile, q: Profile, mix: real)
    requires forall f :: f != PMix ==> Get(p, FieldOf(f)) == Get(q, FieldOf(f))
    ensures TriggerTargets(p, mix) == TriggerTargets(q, mix)
  {
    assert Get(p, FieldOf(PFolds)) == Get(q, FieldOf(PFolds)) && Get(p, FieldOf(PSpiral)) == Get(q, FieldOf(PSpiral));
    assert Get(p, FieldOf(PFlow)) == Get(q, FieldOf(PFlow)) && Get(p, FieldOf(PPulse)) == Get(q, FieldOf(PPulse));
    assert Get(p, FieldOf(PShear)) == Get(q, FieldOf(PShear)) && Get(p, FieldOf(PWave)) == Get(q, FieldOf(PWave));
    assert Get(p, FieldOf(PGlitch)) == Get(q, FieldOf(PGlitch)) && Get(p, FieldOf(PMirrorX)) == Get(q, FieldOf(PMirrorX));
    assert Get(p, FieldOf(PMirrorY)) == Get(q, FieldOf(PMirrorY)) && Get(p, FieldOf(PWarp)) == Get(q, FieldOf(PWarp));
    assert Get(p, FieldOf(PContrast)) == Get(q, FieldOf(PContrast));
  }

  /** `1 + (n - 1) * 0.15`. */
  function ChordBoost(n: nat): (k: real)
    ensures n >= 1 ==> k >= 1.0
  {
    1.0 + (n as real - 1.0) * 0.15
  }

  /** The chord targets for `n` held keys from the blended profile `b`:
      folds is the mean; the motion fields are the mean times the boost;
      the mirror flags are the maximum; contrast is capped at 2.5 and the
      mix at 1. */
  function ChordTargets(b: Profile, n: nat): (t: Params)
    ensures t.contrast <= 2.5 && t.mix <= 1.0
    ensures n >= 1 ==> t.mix >= 0.88
    ensures n >= 4 ==> t.mix == 1.0
    ensures t.folds == b.folds && t.mirrorX == b.mx && t.mirrorY == b.my
    ensures n >= 1 && b.contrast >= 1.15 ==> 1.15 <= t.contrast
  {
    var boost := ChordBoost(n);
    BoostNotBelow(b.contrast, boost);
    Params(b.folds, Min(1.0, 0.88 + (n as real - 1.0) * 0.04),
      b.spiral * boost, b.flow * boost, b.pulse * boost, b.shear * boost, b.wave * boost,
      b.glitch * boost, b.mx, b.my, b.warp * boost, Min(2.5, b.contrast * boost))
  }

  /** `b` carries the mean of `ps` on every field that blends by mean. */
  predicate HasMeans(ps: seq<Profile>, b: Profile)
    requires |ps| > 0
  {
    forall g :: !IsMirror(g) ==> Get(b, g) == Mean(ps, g)
  }

  /** `b` is a blend of `ps`: the means, and the mirror flags' maximum from 0. */
  predicate IsBlendOf(ps: seq<Profile>, b: Profile)
    requires |ps| > 0
  {
    HasMeans(ps, b) && b.mx == MaxFrom0(ps, Mx) && b.my == MaxFrom0(ps, My)
  }

  /** The chord targets `t` for `n` held keys whose profiles are `ps`:
      the motion targets and the shape targets below. */
  predicate ChordOfMeans(t: Params, ps: seq<Profile>, n: nat)
    requires |ps| > 0
  {
    MotionOfMeans(t, ps, n) && ShapeOfMeans(t, ps, n)
  }

  /** Every motion target is the mean of its field times the boost
      `1 + (n - 1) * 0.15`. */
  predicate MotionOfMeans(t: Params, ps: seq<Profile>, n: nat)
    requires |ps| > 0
  {
    var k := ChordBoost(n);
    t.spiral == Mean(ps, Spiral) * k && t.flow == Mean(ps, Flow) * k
    && t.pulse == Mean(ps, Pulse) * k && t.shear == Mean(ps, Shear) * k
    && t.wave == Mean(ps, Wave) * k && t.glitch == Mean(ps, Glitch) * k
    && t.warp == Mean(ps, Warp) * k
  }

  /** Folds is the plain mean, the mirror flags the maximum from 0, the mix
      `min(1, 0.88 + (n - 1) * 0.04)` and the contrast the boosted mean
      capped at 2.5. */
  predicate ShapeOfMeans(t: Params, ps: seq<Profile>, n: nat)
    requires |ps| > 0
  {
    t.folds == Mean(ps, Folds) && t.mirrorX == MaxFrom0(ps, Mx) && t.mirrorY == MaxFrom0(ps, My)
    && t.mix == Min(1.0, 0.88 + (n as real - 1.0) * 0.04)
    && t.contrast == Min(2.5, Mean(ps, Contrast) * ChordBoost(n))
  }

  /** The specification blend is a blend of its profiles. */
  lemma BlendSpecIsBlend(ps: seq<Profile>)
    requires |ps| > 0
    ensures IsBlendOf(ps, BlendSpec(ps))
  {
    assert Get(BlendSpec(ps), Mx) == MaxFrom0(ps, Mx) && Get(BlendSpec(ps), My) == MaxFrom0(ps, My);
  }

  /** The chord targets of the blended held profiles are the means and
      maxima of those profiles, boosted and capped as the chord does. */
  lemma ChordTargetsOfBlend(ps: seq<Profile>, n: nat)
    requires |ps| > 0
    ensures ChordOfMeans(ChordTargets(BlendSpec(ps), n), ps, n)
  {
    BlendSpecIsBlend(ps);
    ChordTargetsOfMeans(ps, BlendSpec(ps), n);
  }

  /** The same for any blend of `ps`. */
  lemma ChordTargetsOfMeans(ps: seq<Profile>, b: Profile, n: nat)
    requires |ps| > 0 && IsBlendOf(ps, b)
    ensures ChordOfMeans(ChordTargets(b, n), ps, n)
  {
    ChordMotionOfMeans(ps, b, n);
    ChordShapeOfMeans(ps, b, n);
  }

  /** The motion targets of the chord of any blend carrying the means of `ps`. */
  lemma ChordMotionOfMeans(ps: seq<Profile>, b: Profile, n: nat)
    requires |ps| > 0 && HasMeans(ps, b)
    ensures MotionOfMeans(ChordTargets(b, n), ps, n)
  {
    var k := ChordBoost(n);
    var t := ChordTargets(b, n);
    BlendMeans(ps, b);
    ChordMotions(b, n);
    Rescale(t.spiral, b.spiral, Mean(ps, Spiral), k);
    Rescale(t.flow, b.flow, Mean(ps, Flow), k);
    Rescale(t.pulse, b.pulse, Mean(ps, Pulse), k);
    Rescale(t.shear, b.shear, Mean(ps, Shear), k);
    Rescale(t.wave, b.wave, Mean(ps, Wave), k);
    Rescale(t.glitch, b.glitch, Mean(ps, Glitch), k);
    Rescale(t.warp, b.warp, Mean(ps, Warp), k);
  }

  /** A value that is `x` times `k`, where `x` equals `m`, is `m` times `k`. */
  lemma Rescale(v: real, x: real, m: real, k: real)
    requires v == x * k && x == m
    ensures v == m * k
  {
    MulEq(x, m, k);
  }

  /** The shape targets of the chord of any blend of `ps`. */
  lemma ChordShapeOfMeans(ps: seq<Profile>, b: Profile, n: nat)
    requires |ps| > 0 && IsBlendOf(ps, b)
    ensures ShapeOfMeans(ChordTargets(b, n), ps, n)
  {
    BlendMeans(ps, b);
    ChordShape(b, n);
    ChordContrastOf(b, n, Mean(ps, Contrast));
  }

  /** The fields of a blend carrying the means of `ps`, one by one. */
  lemma BlendMeans(ps: seq<Profile>, b: Profile)
    requires |ps| > 0 && HasMeans(ps, b)
    ensures b.folds == Mean(ps, Folds) && b.hue == Mean(ps, Hue)
    ensures b.bloom == Mean(ps, Bloom) && b.ca == Mean(ps, Ca)
    ensures b.spiral == Mean(ps, Spiral) && b.flow == Mean(ps, Flow)
    ensures b.pulse == Mean(ps, Pulse) && b.shear == Mean(ps, Shear)
    ensures b.wave == Mean(ps, Wave) && b.glitch == Mean(ps, Glitch)
    ensures b.warp == Mean(ps, Warp) && b.contrast == Mean(ps, Contrast)
  {
    assert Get(b, Folds) == Mean(ps, Folds) && Get(b, Hue) == Mean(ps, Hue);
    assert Get(b, Bloom) == Mean(ps, Bloom) && Get(b, Ca) == Mean(ps, Ca);
    assert Get(b, Spiral) == Mean(ps, Spiral) && Get(b, Flow) == Mean(ps, Flow);
    assert Get(b, Pulse) == Mean(ps, Pulse) && Get(b, Shear) == Mean(ps, Shear);
    assert Get(b, Wave) == Mean(ps, Wave) && Get(b, Glitch) == Mean(ps, Glitch);
    assert Get(b, Warp) == Mean(ps, Warp) && Get(b, Contrast) == Mean(ps, Contrast);
  }

  /** The chord's contrast target for a blend whose contrast is `m`. */
  lemma ChordContrastOf(b: Profile, n: nat, m: real)
    requires b.contrast == m
    ensures ChordTargets(b, n).contrast == Min(2.5, m * ChordBoost(n))
  {
  }

  /** Multiplying equal reals by the same factor gives equal products; the
      solver does not always find this step under a division. */
  lemma MulEq(x: real, y: real, k: real)
    requires x == y
    ensures x * k == y * k
  {
  }

  /** The look a chord of `n` held keys with profiles `ps` gives: the hue
      is the mean hue, and the active profile `p` is `base` with bloom and
      chromatic aberration replaced by their means times the boost. */
  predicate ChordLookOfMeans(p: Profile, hue: real, base: Profile, ps: seq<Profile>, n: nat)
    requires |ps| > 0
  {
    hue == Mean(ps, Hue)
    && p.bloom == Mean(ps, Bloom) * ChordBoost(n) && p.ca == Mean(ps, Ca) * ChordBoost(n)
    && p == base.(bloom := p.bloom, ca := p.ca)
  }

  /** The hue, bloom and chromatic aberration a chord takes from any blend
      carrying the means of `ps`: the mean hue, and the boosted mean bloom
      and aberration. */
  lemma BlendLook(ps: seq<Profile>, b: Profile, n: nat)
    requires |ps| > 0 && HasMeans(ps, b)
    ensures b.hue == Mean(ps, Hue)
    ensures b.bloom * ChordBoost(n) == Mean(ps, Bloom) * ChordBoost(n)
    ensures b.ca * ChordBoost(n) == Mean(ps, Ca) * ChordBoost(n)
  {
    BlendMeans(ps, b);
    MulEq(b.bloom, Mean(ps, Bloom), ChordBoost(n));
    MulEq(b.ca, Mean(ps, Ca), ChordBoost(n));
  }

  /** Each motion target of the chord is the blend's field times the boost. */
  lemma ChordMotions(b: Profile, n: nat)
    ensures var t := ChordTargets(b, n);
      var k := ChordBoost(n);
      t.spiral == b.spiral * k && t.flow == b.flow * k && t.pulse == b.pulse * k
      && t.shear == b.shear * k && t.wave == b.wave * k && t.glitch == b.glitch * k
      && t.warp == b.warp * k
  {
  }

  /** The chord's folds, mirror, mix and contrast targets in terms of the
      blend `b`. */
  lemma ChordShape(b: Profile, n: nat)
    ensures var t := ChordTargets(b, n);
      t.folds == b.folds && t.mirrorX == b.mx && t.mirrorY == b.my
      && t.mix == Min(1.0, 0.88 + (n as real - 1.0) * 0.04)
      && t.contrast == Min(2.5, b.contrast * ChordBoost(n))
  {
  }

  /** One field of the blend: the maximum from 0 for a mirror flag, the
      mean for every other field. */
  lemma BlendField(ps: seq<Profile>, f: Field)
    requires |ps| > 0
    ensures Get(BlendSpec(ps), f) == if IsMirror(f) then MaxFrom0(ps, f) else Mean(ps, f)
  {
  }

  /** Two profiles that agree on every field are equal. */
  lemma ProfileFieldsDetermine(a: Profile, b: Profile)
    requires forall f :: Get(a, f) == Get(b, f)
    ensures a == b
  {
    assert Get(a, Folds) == Get(b, Folds) && Get(a, Hue) == Get(b, Hue);
    assert Get(a, Bloom) == Get(b, Bloom) && Get(a, Ca) == Get(b, Ca);
    assert Get(a, Spiral) == Get(b, Spiral) && Get(a, Flow) == Get(b, Flow);
    assert Get(a, Pulse) == Get(b, Pulse) && Get(a, Shear) == Get(b, Shear);
    assert Get(a, Wave) == Get(b, Wave) && Get(a, Glitch) == Get(b, Glitch);
    assert Get(a, Mx) == Get(b, Mx) && Get(a, My) == Get(b, My);
    assert Get(a, Warp) == Get(b, Warp) && Get(a, Contrast) == Get(b, Contrast);
  }

  /** The chord blend of held table profiles: the mirror targets are 0/1
      flags and the contrast target lies in [1.15, 2.5]. */
  lemma ChordOfHeldProfiles(ps: seq<Profile>, b: Profile, n: nat)
    requires |ps| > 0 && n >= 1
    requires forall f :: !IsMirror(f) ==> Get(b, f) == Mean(ps, f)
    requires forall f :: IsMirror(f) ==> Get(b, f) == MaxFrom0(ps, f)
    requires forall i :: 0 <= i < |ps| ==> WellFormed(ps[i])
    ensures ChordTargets(b, n).mirrorX == 0.0 || ChordTargets(b, n).mirrorX == 1.0
    ensures ChordTargets(b, n).mirrorY == 0.0 || ChordTargets(b, n).mirrorY == 1.0
    ensures 1.15 <= ChordTargets(b, n).contrast <= 2.5
  {
    BlendedMirrorIsFlag(ps, b, Mx);
    BlendedMirrorIsFlag(ps, b, My);
    assert !IsMirror(Contrast);
    HeldContrast(ps, b);
  }

  /** The blended contrast of table profiles lies in their range [1.15, 2.4]. */
  lemma HeldContrast(ps: seq<Profile>, b: Profile)
    requires |ps| > 0 && Get(b, Contrast) == Mean(ps, Contrast)
    requires forall i :: 0 <= i < |ps| ==> WellFormed(ps[i])
    ensures 1.15 <= b.contrast <= 2.4
  {
    forall i | 0 <= i < |ps|
      ensures 1.15 <= Get(ps[i], Contrast) <= 2.4
    {
      assert WellFormed(ps[i]);
    }
    MeanBounds(ps, Contrast, 1.15, 2.4);
  }

  lemma BlendedMirrorIsFlag(ps: seq<Profile>, b: Profile, f: Field)
    requires IsMirror(f)
    requires Get(b, f) == MaxFrom0(ps, f)
    requires forall i :: 0 <= i < |ps| ==> WellFormed(ps[i])
    ensures Get(b, f) == 0.0 || Get(b, f) == 1.0
  {
    forall i | 0 <= i < |ps|
      ensures Get(ps[i], f) == 0.0 || Get(ps[i], f) == 1.0
    {
      assert WellFormed(ps[i]);
    }
    MirrorBlendIsFlag(ps, f);
  }

  lemma BoostNotBelow(c: real, k: real)
    ensures c >= 0.0 && k >= 1.0 ==> c * k >= c
  {
    if c >= 0.0 && k >= 1.0 {
      assert c * (k - 1.0) >= 0.0;
    }
  }

  /** Holding keys that all pick the same profile (for instance the same
      pitch class in two octaves) blends to that profile. */
  lemma ChordOfOneProfile(ps: seq<Profile>, p: Profile, b: Profile)
    requires |ps| > 0 && forall i :: 0 <= i < |ps| ==> ps[i] == p
    requires p.mx >= 0.0 && p.my >= 0.0
    requires forall f :: !IsMirror(f) ==> Get(b, f) == Mean(ps, f)
    requires forall f :: IsMirror(f) ==> Get(b, f) == MaxFrom0(ps, f)
    ensures b == p
  {
    forall f ensures Get(b, f) == Get(p, f) {
      MeanOfCopies(ps, p, f);
      MaxOfCopies(ps, p, f);
    }
    ProfileFieldsDetermine(b, p);
  }

  /** With one key the chord formula reduces to the plain trigger targets:
      the boost is 1, the mix 0.88 and no contrast is capped. */
  lemma ChordOfOneKeyIsTrigger(p: Profile)
    requires WellFormed(p)
    ensures ChordTargets(p, 1) == TriggerTargets(p, 0.88)
  {
  }

  /** Per-field smoothing rates of `animate`. */
  function Rate(f: Param): (r: real)
    ensures 0.0 < r < 1.0
  {
    match f
    case PFolds => 0.095
    case PMix => 0.08
    case PGlitch => 0.12
    case PMirrorX => 0.13
    case PMirrorY => 0.13
    case _ => 0.11
  }

  /** One smoothing tick of `animate` toward the targets, each field at its
      own rate. */
  function Smooth(cur: Params, tgt: Params): Params
  {
    Params(
      Lerp(cur.folds, tgt.folds, Rate(PFolds)), Lerp(cur.mix, tgt.mix, Rate(PMix)),
      Lerp(cur.spiral, tgt.spiral, Rate(PSpiral)), Lerp(cur.flow, tgt.flow, Rate(PFlow)),
      Lerp(cur.pulse, tgt.pulse, Rate(PPulse)), Lerp(cur.shear, tgt.shear, Rate(PShear)),
      Lerp(cur.wave, tgt.wave, Rate(PWave)), Lerp(cur.glitch, tgt.glitch, Rate(PGlitch)),
      Lerp(cur.mirrorX, tgt.mirrorX, Rate(PMirrorX)), Lerp(cur.mirrorY, tgt.mirrorY, Rate(PMirrorY)),
      Lerp(cur.warp, tgt.warp, Rate(PWarp)), Lerp(cur.contrast, tgt.contrast, Rate(PContrast)))
  }

  lemma SmoothField(cur: Params, tgt: Params, f: Param)
    ensures GetParam(Smooth(cur, tgt), f) == Lerp(GetParam(cur, f), GetParam(tgt, f), Rate(f))
  {
  }

  /** Each smoothed value ends between its old value and its target, the gap
      shrinks by exactly `1 - rate`, and a value off target stays off it. */
  lemma SmoothNarrowsGap(cur: Params, tgt: Params, f: Param)
    ensures GetParam(tgt, f) - GetParam(Smooth(cur, tgt), f) == (1.0 - Rate(f)) * (GetParam(tgt, f) - GetParam(cur, f))
    ensures Min(GetParam(cur, f), GetParam(tgt, f)) <= GetParam(Smooth(cur, tgt), f) <= Max(GetParam(cur, f), GetParam(tgt, f))
    ensures GetParam(cur, f) != GetParam(tgt, f) ==> GetParam(Smooth(cur, tgt), f) != GetParam(tgt, f)
  {
    SmoothField(cur, tgt, f);
    LerpProperties(GetParam(cur, f), GetParam(tgt, f), Rate(f));
  }

  /** `k` smoothing ticks toward a fixed target. */
  function SmoothN(cur: Params, tgt: Params, k: nat): Params
  {
    if k == 0 then cur else Smooth(SmoothN(cur, tgt, k - 1), tgt)
  }

  /** Each field of `k` smoothing ticks is `k` scalar smoothing steps at
      that field's rate, so by `LerpNGap` its gap to the target after `k`
      ticks is `(1 - rate)^k` of the initial gap. */
  lemma {:induction false} SmoothNField(cur: Params, tgt: Params, k: nat, f: Param)
    ensures GetParam(SmoothN(cur, tgt, k), f) == LerpN(GetParam(cur, f), GetParam(tgt, f), Rate(f), k)
  {
    if k > 0 {
      SmoothNField(cur, tgt, k - 1, f);
      SmoothField(SmoothN(cur, tgt, k - 1), tgt, f);
    }
  }

  /** The relaxation applied when not frozen and the attractor is weak:
      the mix target decays by 0.998 but not below 0.1, and the motion
      targets decay by 0.995; folds, mirrors and contrast are untouched. */
  function Relax(t: Params): (r: Params)
    ensures r.mix >= 0.1
    ensures t.mix >= 0.1 ==> r.mix <= t.mix
    ensures t.mix <= 0.1 ==> r.mix == 0.1
    ensures r.folds == t.folds && r.mirrorX == t.mirrorX && r.mirrorY == t.mirrorY && r.contrast == t.contrast
  {
    Params(t.folds, Max(0.1, t.mix * 0.998), t.spiral * 0.995, t.flow * 0.995, t.pulse * 0.995,
      t.shear * 0.995, t.wave * 0.995, t.glitch * 0.995, t.mirrorX, t.mirrorY, t.warp * 0.995, t.contrast)
  }

  /** The seven motion targets: the fields relaxation pulls toward zero
      and a chord scales by its boost. */
  predicate IsMotion(f: Param)
  {
    f == PSpiral || f == PFlow || f == PPulse || f == PShear || f == PWave || f == PGlitch || f == PWarp
  }

  lemma RelaxField(t: Params, f: Param)
    requires IsMotion(f)
    ensures GetParam(Relax(t), f) == GetParam(t, f) * 0.995
  {
  }

  /** Relaxation only shrinks each motion target toward 0, without
      changing its sign. */
  lemma RelaxShrinksMotion(t: Params, f: Param)
    requires IsMotion(f)
    ensures Abs(GetParam(Relax(t), f)) <= Abs(GetParam(t, f))
    ensures GetParam(t, f) >= 0.0 ==> GetParam(Relax(t), f) >= 0.0
    ensures GetParam(t, f) <= 0.0 ==> GetParam(Relax(t), f) <= 0.0
    ensures GetParam(t, f) != 0.0 ==> GetParam(Relax(t), f) != GetParam(t, f)
  {
    RelaxField(t, f);
  }

  /** `k` relaxation ticks. */
  function RelaxN(t: Params, k: nat): Params
  {
    if k == 0 then t else Relax(RelaxN(t, k - 1))
  }

  /** `k` decays of one value by 0.995. */
  function Decay(g: real, k: nat): real
  {
    if k == 0 then g else Decay(g, k - 1) * 0.995
  }

  /** Repeated decay keeps the sign and only ever shrinks the magnitude. */
  lemma {:induction false} DecayShrinks(g: real, k: nat)
    ensures g >= 0.0 ==> 0.0 <= Decay(g, k) <= g
    ensures g <= 0.0 ==> g <= Decay(g, k) <= 0.0
    ensures g != 0.0 && k > 0 ==> Abs(Decay(g, k)) < Abs(g)
  {
    if k > 0 {
      DecayShrinks(g, k - 1);
    }
  }

  /** `k` relaxation ticks decay each motion target `k` times by 0.995 and
      keep the mix target at or above 0.1. */
  lemma {:induction false} RelaxNDecay(t: Params, k: nat, f: Param)
    requires IsMotion(f)
    ensures GetParam(RelaxN(t, k), f) == Decay(GetParam(t, f), k)
    ensures k > 0 ==> RelaxN(t, k).mix >= 0.1
  {
    if k > 0 {
      RelaxNDecay(t, k - 1, f);
      RelaxField(RelaxN(t, k - 1), f);
    }
  }
}
