/** The idle auto-play machine of the animation loop: while no key is held
    and the attractor is weak it rests, builds an intensity up to a cap,
    holds, and decays back, one step per frame of 1/60 s. */
module Idle {
  import opened Numeric

  datatype Phase = Rest | Build | Hold | Decay

  datatype IdleState = IdleState(phase: Phase, intensity: real, timer: real)

  const RestSec: real := 2.5
  const BuildRate: real := 0.018
  const Cap: real := 0.38
  const HoldSec: real := 5.0
  const DecayRate: real := 0.022
  const Dt: real := 1.0 / 60.0

  /** The start-up state. */
  const InitialIdle: IdleState := IdleState(Rest, 0.0, 0.0)

  /** A frame is idle when no key is held and the attractor strength is
      below 0.06. */
  predicate IsIdle(heldKeys: nat, strength: real)
  {
    heldKeys == 0 && strength < 0.06
  }

  /** The intensity stays within [0, cap] and the timer is never negative. */
  predicate Bounded(s: IdleState)
  {
    0.0 <= s.intensity <= Cap && s.timer >= 0.0
  }

  /** One frame of the machine. A non-idle frame returns to rest, clears
      the timer and fades the intensity by 0.92; an idle frame advances the
      current phase. */
  function IdleStep(s: IdleState, idle: bool): IdleState
  {
    if !idle then IdleState(Rest, s.intensity * 0.92, 0.0)
    else match s.phase
      case Rest =>
        var t := s.timer + Dt;
        if t >= RestSec then IdleState(Build, s.intensity, 0.0) else IdleState(Rest, s.intensity, t)
      case Build =>
        var i := Min(Cap, s.intensity + BuildRate);
        if i >= Cap then IdleState(Hold, i, 0.0) else IdleState(Build, i, s.timer)
      case Hold =>
        var t := s.timer + Dt;
        if t >= HoldSec then IdleState(Decay, s.intensity, t) else IdleState(Hold, s.intensity, t)
      case Decay =>
        var i := Max(0.0, s.intensity - DecayRate);
        if i <= 0.0 then IdleState(Rest, i, 0.0) else IdleState(Decay, i, s.timer)
  }

  /** Every frame keeps the intensity in [0, 0.38] and the timer non-negative. */
  lemma IdleStepBounded(s: IdleState, idle: bool)
    requires Bounded(s)
    ensures Bounded(IdleStep(s, idle))
  {
  }

  /** A non-idle frame forces the rest phase with a cleared timer, and the
      intensity only fades. */
  lemma NonIdleResets(s: IdleState)
    requires Bounded(s)
    ensures IdleStep(s, false).phase == Rest && IdleStep(s, false).timer == 0.0
    ensures 0.0 <= IdleStep(s, false).intensity <= s.intensity
  {
  }

  /** Phase changes follow the cycle rest -> build -> hold -> decay -> rest;
      no idle frame skips a phase or goes backwards. */
  lemma IdleStepFollowsCycle(s: IdleState)
    ensures var p := IdleStep(s, true).phase;
      match s.phase
      case Rest => p == Rest || p == Build
      case Build => p == Build || p == Hold
      case Hold => p == Hold || p == Decay
      case Decay => p == Decay || p == Rest
  {
  }

  /** `k` consecutive idle frames. */
  function IdleRun(s: IdleState, k: nat): IdleState
  {
    if k == 0 then s else IdleStep(IdleRun(s, k - 1), true)
  }

  lemma {:induction false} IdleRunAppend(s: IdleState, a: nat, b: nat)
    ensures IdleRun(s, a + b) == IdleRun(IdleRun(s, a), b)
  {
    if b > 0 {
      IdleRunAppend(s, a, b - 1);
    }
  }

  /** Resting from a cleared timer: after `k < 150` frames the timer reads
      `k / 60`. */
  lemma {:induction false} RestRun(i: real, k: nat)
    requires k < 150
    ensures IdleRun(IdleState(Rest, i, 0.0), k) == IdleState(Rest, i, (k as real) / 60.0)
  {
    if k > 0 {
      RestRun(i, k - 1);
      assert ((k - 1) as real) / 60.0 + Dt == (k as real) / 60.0;
    }
  }

  /** The build phase starts after exactly 150 frames (2.5 s) of rest. */
  lemma RestToBuild(i: real)
    ensures IdleRun(IdleState(Rest, i, 0.0), 150) == IdleState(Build, i, 0.0)
  {
    RestRun(i, 149);
    assert (149 as real) / 60.0 + Dt == 2.5;
  }

  /** Building from zero: after `k < 22` frames the intensity is `0.018 k`. */
  lemma {:induction false} BuildRun(t: real, k: nat)
    requires k < 22
    ensures IdleRun(IdleState(Build, 0.0, t), k) == IdleState(Build, BuildRate * (k as real), t)
  {
    if k > 0 {
      BuildRun(t, k - 1);
      assert BuildRate * ((k - 1) as real) + BuildRate == BuildRate * (k as real);
    }
  }

  /** The intensity reaches the cap, and the hold phase begins, on the 22nd
      frame of building from zero. */
  lemma BuildToHold(t: real)
    ensures IdleRun(IdleState(Build, 0.0, t), 22) == IdleState(Hold, Cap, 0.0)
  {
    BuildRun(t, 21);
  }

  /** Holding from a cleared timer: after `k < 300` frames the timer reads
      `k / 60`. */
  lemma {:induction false} HoldRun(i: real, k: nat)
    requires k < 300
    ensures IdleRun(IdleState(Hold, i, 0.0), k) == IdleState(Hold, i, (k as real) / 60.0)
  {
    if k > 0 {
      HoldRun(i, k - 1);
      assert ((k - 1) as real) / 60.0 + Dt == (k as real) / 60.0;
    }
  }

  /** The decay phase starts after exactly 300 frames (5 s) of holding; the
      timer is not cleared on that change. */
  lemma HoldToDecay(i: real)
    ensures IdleRun(IdleState(Hold, i, 0.0), 300) == IdleState(Decay, i, HoldSec)
  {
    HoldRun(i, 299);
    assert (299 as real) / 60.0 + Dt == 5.0;
  }

  /** Decaying from the cap: after `k < 18` frames the intensity is
      `0.38 - 0.022 k`. */
  lemma {:induction false} DecayRun(t: real, k: nat)
    requires k < 18
    ensures IdleRun(IdleState(Decay, Cap, t), k) == IdleState(Decay, Cap - DecayRate * (k as real), t)
  {
    if k > 0 {
      DecayRun(t, k - 1);
      assert Cap - DecayRate * ((k - 1) as real) - DecayRate == Cap - DecayRate * (k as real);
    }
  }

  /** The intensity reaches 0, and the machine rests again, on the 18th
      frame of decay. */
  lemma DecayToRest(t: real)
    ensures IdleRun(IdleState(Decay, Cap, t), 18) == IdleState(Rest, 0.0, 0.0)
  {
    DecayRun(t, 17);
  }

  /** Uninterrupted idling from the start-up state runs one full cycle in
      490 frames (150 rest, 22 build, 300 hold, 18 decay) and is back where
      it began. */
  lemma IdleCycle()
    ensures IdleRun(InitialIdle, 490) == InitialIdle
  {
    RestToBuild(0.0);
    BuildToHold(0.0);
    HoldToDecay(Cap);
    DecayToRest(HoldSec);
    IdleRunAppend(InitialIdle, 150, 22);
    IdleRunAppend(InitialIdle, 172, 300);
    IdleRunAppend(InitialIdle, 472, 18);
  }
}
