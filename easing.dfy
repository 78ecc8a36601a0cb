/**
 * The opacity rate limiter shared by the three overlay back ends (postured/overlay.py,
 * postured/layer_shell_overlay.py, postured/gnome_overlay.py): every transition tick moves the
 * current opacity towards the target by at most 0.015 when darkening and 0.047 when brightening,
 * never past the target, and a tick within 0.001 of the target does nothing.
 */
module Easing {
  import opened Common

  /** `EASE_IN_RATE`: the largest increase per tick. */
  const EaseInRate: real := 0.015
  /** `EASE_OUT_RATE`: the largest decrease per tick. */
  const EaseOutRate: real := 0.047
  /** The distance below which a tick leaves the opacity alone. */
  const ConvergedBand: real := 0.001
  /** `TRANSITION_INTERVAL_MS`: the tick period. */
  const TransitionIntervalMs: nat := 33
  /** Ticks enough to cross the whole range [0,1] at the slower rate: 67 * 0.015 > 1. */
  const MaxTicks: nat := 67

  predicate Converged(current: real, target: real)
  {
    Abs(current - target) < ConvergedBand
  }

  /** The new `current_opacity` after one `_update_opacity` tick. */
  function Ease(current: real, target: real): (n: real)
    ensures Converged(current, target) ==> n == current
    ensures Min(current, target) <= n <= Max(current, target)
    ensures Abs(n - target) <= Abs(current - target)
    ensures current <= n ==> n - current <= EaseInRate
    ensures n <= current ==> current - n <= EaseOutRate
    ensures !Converged(current, target) && current < target ==>
              n == target || n == current + EaseInRate
    ensures !Converged(current, target) && current > target ==>
              n == target || n == current - EaseOutRate
  {
    if Converged(current, target) then current
    else if current < target then Min(current + EaseInRate, target)
    else Max(current - EaseOutRate, target)
  }

  /** Recovery is faster than onset. */
  lemma EaseOutFasterThanEaseIn()
    ensures EaseOutRate > EaseInRate
    ensures MaxTicks as real * EaseInRate > 1.0
  {
  }

  /** A tick keeps an opacity within [0,1] when the target is within [0,1]. */
  lemma EaseStaysInUnit(current: real, target: real)
    requires 0.0 <= current <= 1.0 && 0.0 <= target <= 1.0
    ensures 0.0 <= Ease(current, target) <= 1.0
  {
  }

  /** A tick that is not converged either lands on the target or closes the gap by a full step. */
  lemma EaseProgress(current: real, target: real)
    requires !Converged(current, target)
    ensures Ease(current, target) == target ||
            Abs(Ease(current, target) - target) <= Abs(current - target) - EaseInRate
  {
  }

  /** The rate limiter's single-tick examples: darkening, brightening, capping, and the dead band. */
  lemma EaseExamples()
    ensures Ease(0.0, 0.5) == 0.015
    ensures Ease(0.5, 0.0) == 0.5 - 0.047
    ensures Ease(0.49, 0.5) == 0.5
    ensures Ease(0.03, 0.0) == 0.0
    ensures Ease(0.5, 0.5005) == 0.5
    ensures Ease(0.5, 0.6) != 0.5
  {
  }

  /** The opacity after `k` ticks towards a fixed target. */
  function EaseN(current: real, target: real, k: nat): real
  {
    if k == 0 then current else Ease(EaseN(current, target, k - 1), target)
  }

  /** Ten darkening ticks from 0 towards 0.5 reach 0.15; five brightening ticks from 0.5 reach 0.265. */
  lemma EaseNExamples()
    ensures EaseN(0.0, 0.5, 10) == 0.015 * 10.0
    ensures EaseN(0.5, 0.0, 5) == 0.5 - 0.047 * 5.0
  {
    assert EaseN(0.0, 0.5, 1) == 0.015;
    assert EaseN(0.0, 0.5, 2) == 0.030;
    assert EaseN(0.0, 0.5, 3) == 0.045;
    assert EaseN(0.0, 0.5, 4) == 0.060;
    assert EaseN(0.0, 0.5, 5) == 0.075;
    assert EaseN(0.0, 0.5, 6) == 0.090;
    assert EaseN(0.0, 0.5, 7) == 0.105;
    assert EaseN(0.0, 0.5, 8) == 0.120;
    assert EaseN(0.0, 0.5, 9) == 0.135;
    assert EaseN(0.5, 0.0, 1) == 0.453;
    assert EaseN(0.5, 0.0, 2) == 0.406;
    assert EaseN(0.5, 0.0, 3) == 0.359;
    assert EaseN(0.5, 0.0, 4) == 0.312;
  }

  /** Once converged, no number of further ticks changes the opacity. */
  lemma {:induction false} ConvergedStays(current: real, target: real, k: nat)
    requires Converged(current, target)
    ensures EaseN(current, target, k) == current
  {
    if k > 0 {
      ConvergedStays(current, target, k - 1);
    }
  }

  /** Ticking `a` times and then `b` times is ticking `a + b` times. */
  lemma {:induction false} EaseNCompose(current: real, target: real, a: nat, b: nat)
    ensures EaseN(current, target, a + b) == EaseN(EaseN(current, target, a), target, b)
  {
    if b > 0 {
      EaseNCompose(current, target, a, b - 1);
    }
  }

  /** After `k` ticks the opacity has converged, or the gap has shrunk by at least `k` darkening steps. */
  lemma {:induction false} EaseNProgress(current: real, target: real, k: nat)
    ensures Converged(EaseN(current, target, k), target) ||
            Abs(EaseN(current, target, k) - target) <= Abs(current - target) - (k as real) * EaseInRate
  {
    if k > 0 {
      EaseNProgress(current, target, k - 1);
      var prev := EaseN(current, target, k - 1);
      if Converged(prev, target) {
        assert EaseN(current, target, k) == prev;
      } else {
        EaseProgress(prev, target);
      }
    }
  }

  /**
   * From any opacity within distance 1 of the target (any two values of [0,1]), the opacity has
   * converged after at most 67 ticks, and from then on it does not change.
   */
  lemma ConvergesWithinMaxTicks(current: real, target: real, extra: nat)
    requires Abs(current - target) <= 1.0
    ensures Converged(EaseN(current, target, MaxTicks), target)
    ensures EaseN(current, target, MaxTicks + extra) == EaseN(current, target, MaxTicks)
  {
    EaseNProgress(current, target, MaxTicks);
    EaseNCompose(current, target, MaxTicks, extra);
    ConvergedStays(EaseN(current, target, MaxTicks), target, extra);
  }

  /** The values a back end sends over `k` ticks towards a fixed target: one per non-converged tick. */
  function Sent(current: real, target: real, k: nat): seq<real>
  {
    if k == 0 then []
    else
      var prev := EaseN(current, target, k - 1);
      Sent(current, target, k - 1) + (if Converged(prev, target) then [] else [Ease(prev, target)])
  }

  /** Every value sent lies between the starting opacity and the target. */
  lemma {:induction false} SentBetween(current: real, target: real, k: nat)
    ensures forall i :: 0 <= i < |Sent(current, target, k)| ==>
              Min(current, target) <= Sent(current, target, k)[i] <= Max(current, target)
    ensures Min(current, target) <= EaseN(current, target, k) <= Max(current, target)
  {
    if k > 0 {
      SentBetween(current, target, k - 1);
    }
  }

  /** A change of target costs at most 67 sends, however long the timer runs. */
  lemma {:induction false} SentAtMostMaxTicks(current: real, target: real, k: nat)
    requires Abs(current - target) <= 1.0
    ensures |Sent(current, target, k)| <= if k < MaxTicks then k else MaxTicks
  {
    if k > 0 {
      SentAtMostMaxTicks(current, target, k - 1);
      if k - 1 >= MaxTicks {
        ConvergesWithinMaxTicks(current, target, k - 1 - MaxTicks);
        assert MaxTicks + (k - 1 - MaxTicks) == k - 1;
      }
    }
  }
}
