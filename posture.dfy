/**
 * The pure rules behind `Application` (postured/app.py): the posture classifier of
 * `_evaluate_posture` (a dual-threshold test of each smoothed nose Y against the calibration, an
 * 8-frame debounce of the slouching state, the quadratic mapping of slouch severity to a dimming
 * opacity) and the away counter of `_on_no_detection`.
 */
module PostureRules {
  import opened Common

  /** `FRAME_THRESHOLD`: consecutive same-kind frames before the state flips. */
  const FrameThreshold: nat := 8
  /** `AWAY_THRESHOLD`: consecutive frames without a face before the user counts as away. */
  const AwayThreshold: nat := 15
  /** `HYSTERESIS_FACTOR`: the exit threshold is this fraction of the entry threshold. */
  const HysteresisFactor: real := 0.5
  /** `DEAD_ZONE`: margin past the bad-posture reference, as a fraction of the calibrated range. */
  const DeadZone: real := 0.03
  /** A calibrated range below this is degenerate and replaced by `FallbackRange`. */
  const MinRange: real := 0.01
  const FallbackRange: real := 0.2
  /** Opacity while slouching is `OpacityFloor + severity^2 * OpacitySpan * sensitivity`. */
  const OpacityFloor: real := 0.03
  const OpacitySpan: real := 0.97

  // ---------------------------------------------------------------------------------------
  // Frame classification
  // ---------------------------------------------------------------------------------------

  /** `posture_range`: the calibrated distance, never below `MinRange`. */
  function PostureRange(good: real, bad: real): (r: real)
    ensures r >= MinRange
    ensures Abs(bad - good) >= MinRange ==> r == Abs(bad - good)
    ensures Abs(bad - good) < MinRange ==> r == FallbackRange
  {
    var d := Abs(bad - good);
    if d < MinRange then FallbackRange else d
  }

  /** `enter_threshold` (the full `base_threshold`). */
  function EnterThreshold(good: real, bad: real, sensitivity: real): real {
    DeadZone * PostureRange(good, bad) * sensitivity
  }

  /** `exit_threshold`: half the entry threshold. */
  function ExitThreshold(good: real, bad: real, sensitivity: real): real {
    EnterThreshold(good, bad, sensitivity) * HysteresisFactor
  }

  /** `slouch_amount`: how far the nose is below (numerically above) the bad-posture reference. */
  function SlouchAmount(currentY: real, bad: real): real {
    currentY - bad
  }

  /** `is_bad_posture`: the slouch amount strictly exceeds the threshold that applies in the current state. */
  predicate IsBadFrame(currentY: real, good: real, bad: real, sensitivity: real, isSlouching: bool) {
    var threshold := if isSlouching then ExitThreshold(good, bad, sensitivity)
                     else EnterThreshold(good, bad, sensitivity);
    SlouchAmount(currentY, bad) > threshold
  }

  /** Hysteresis: a frame bad enough to enter slouching is bad enough to stay slouching. */
  lemma ExitIsEasierThanEntry(currentY: real, good: real, bad: real, sensitivity: real)
    requires sensitivity >= 0.0
    ensures IsBadFrame(currentY, good, bad, sensitivity, false) ==> IsBadFrame(currentY, good, bad, sensitivity, true)
    ensures ExitThreshold(good, bad, sensitivity) <= EnterThreshold(good, bad, sensitivity)
  {
    var r := PostureRange(good, bad);
    assert DeadZone * r >= 0.0;
    assert DeadZone * r * sensitivity >= 0.0;
  }

  /** A nose further down is never a better frame. */
  lemma BadFrameMonotone(y1: real, y2: real, good: real, bad: real, sensitivity: real, isSlouching: bool)
    requires y1 <= y2 && IsBadFrame(y1, good, bad, sensitivity, isSlouching)
    ensures IsBadFrame(y2, good, bad, sensitivity, isSlouching)
  {
  }

  /** As written, the dead zone scales up with the sensitivity setting. */
  lemma {:induction false} SensitivityWidensDeadZone(good: real, bad: real, s1: real, s2: real)
    requires 0.0 <= s1 <= s2
    ensures EnterThreshold(good, bad, s1) <= EnterThreshold(good, bad, s2)
  {
    var k := DeadZone * PostureRange(good, bad);
    assert k >= 0.0;
    assert k * s1 <= k * s2;
  }

  /**
   * The sensitivity examples: a slouch of 0.008 is bad at sensitivity 1.0 and at 0.3, while one
   * of 0.0055 is bad only at the lower sensitivity, since the dead zone grows with the setting.
   */
  lemma SensitivityExamples()
    ensures IsBadFrame(0.608, 0.4, 0.6, 1.0, false) && IsBadFrame(0.608, 0.4, 0.6, 0.3, false)
    ensures !IsBadFrame(0.6055, 0.4, 0.6, 1.0, false) && IsBadFrame(0.6055, 0.4, 0.6, 0.3, false)
  {
    assert PostureRange(0.4, 0.6) == 0.2;
  }

  /** A degenerate calibration (even good == bad) classifies against the 0.2 fallback range. */
  lemma DegenerateCalibrationUsesFallback(good: real, bad: real, sensitivity: real)
    requires Abs(bad - good) < MinRange
    ensures EnterThreshold(good, bad, sensitivity) == DeadZone * FallbackRange * sensitivity
  {
  }

  /** The boundary cases with the defaults 0.4 / 0.6 and sensitivity 0.85. */
  lemma DefaultCalibrationBoundaries()
    ensures !IsBadFrame(0.6051, 0.4, 0.6, 0.85, false)
    ensures !IsBadFrame(0.605, 0.4, 0.6, 0.85, false)
    ensures IsBadFrame(0.61, 0.4, 0.6, 0.85, false)
    ensures IsBadFrame(0.605, 0.4, 0.6, 0.85, true)
    ensures !IsBadFrame(0.601, 0.4, 0.6, 0.85, true)
    ensures IsBadFrame(0.6, 0.5, 0.5, 0.85, false) && IsBadFrame(0.6, 0.5, 0.505, 0.85, false)
  {
    assert PostureRange(0.4, 0.6) == 0.2;
    assert PostureRange(0.5, 0.5) == 0.2;
  }

  // ---------------------------------------------------------------------------------------
  // Severity and opacity
  // ---------------------------------------------------------------------------------------

  /** `severity`: the slouch past the entry threshold as a fraction of the range, clamped to [0, 1]. */
  function Severity(currentY: real, good: real, bad: real, sensitivity: real): (s: real)
    ensures 0.0 <= s <= 1.0
  {
    Clamp01((SlouchAmount(currentY, bad) - EnterThreshold(good, bad, sensitivity)) / PostureRange(good, bad))
  }

  /** The dimming target while slouching: quadratic in the severity, above a 0.03 floor. */
  function SlouchOpacity(currentY: real, good: real, bad: real, sensitivity: real): (o: real)
    requires sensitivity >= 0.0
    ensures OpacityFloor <= o <= OpacityFloor + OpacitySpan * sensitivity
  {
    OpacityFloor + SquaredScale(Severity(currentY, good, bad, sensitivity), OpacitySpan * sensitivity)
  }

  /** `s^2 * k`, which stays within [0, k] for a severity `s` in [0, 1]. */
  function SquaredScale(s: real, k: real): (r: real)
    requires 0.0 <= s <= 1.0 && k >= 0.0
    ensures 0.0 <= r <= k
  {
    SquareInUnit(s);
    ScaleInUnit(s * s, k);
    s * s * k
  }

  lemma SquareInUnit(s: real)
    requires 0.0 <= s <= 1.0
    ensures 0.0 <= s * s <= s <= 1.0
  {
  }

  lemma ScaleInUnit(u: real, k: real)
    requires 0.0 <= u <= 1.0 && k >= 0.0
    ensures 0.0 <= u * k <= k
  {
  }

  /** Slouching further never dims less. */
  lemma {:induction false} OpacityMonotone(y1: real, y2: real, good: real, bad: real, sensitivity: real)
    requires y1 <= y2 && sensitivity >= 0.0
    ensures SlouchOpacity(y1, good, bad, sensitivity) <= SlouchOpacity(y2, good, bad, sensitivity)
  {
    var r := PostureRange(good, bad);
    var t := EnterThreshold(good, bad, sensitivity);
    var a1, a2 := SlouchAmount(y1, bad) - t, SlouchAmount(y2, bad) - t;
    assert a1 <= a2;
    DivideMonotone(a1, a2, r);
    var s1, s2 := Severity(y1, good, bad, sensitivity), Severity(y2, good, bad, sensitivity);
    assert s1 <= s2;
    SquaredScaleMonotone(s1, s2, OpacitySpan * sensitivity);
  }

  lemma SquaredScaleMonotone(s1: real, s2: real, k: real)
    requires 0.0 <= s1 <= s2 <= 1.0 && k >= 0.0
    ensures SquaredScale(s1, k) <= SquaredScale(s2, k)
  {
    SquareMonotone(s1, s2);
    assert s1 * s1 * k <= s2 * s2 * k;
  }

  lemma DivideMonotone(a: real, b: real, r: real)
    requires a <= b && r > 0.0
    ensures a / r <= b / r
  {
    assert b / r - a / r == (b - a) / r;
  }

  lemma SquareMonotone(a: real, b: real)
    requires 0.0 <= a <= b
    ensures a * a <= b * b
  {
    assert a * a <= a * b <= b * b;
  }

  /** Just past the entry threshold the target is the 0.03 floor, so new slouching is visible at once. */
  lemma OpacityFloorAtEntry(currentY: real, good: real, bad: real, sensitivity: real)
    requires sensitivity >= 0.0
    requires SlouchAmount(currentY, bad) <= EnterThreshold(good, bad, sensitivity)
    ensures SlouchOpacity(currentY, good, bad, sensitivity) == OpacityFloor
  {
    var r := PostureRange(good, bad);
    var a := SlouchAmount(currentY, bad) - EnterThreshold(good, bad, sensitivity);
    DivideMonotone(a, 0.0, r);
  }

  /** A slouch a whole range past the threshold saturates at `0.03 + 0.97 * sensitivity`. */
  lemma OpacitySaturates(currentY: real, good: real, bad: real, sensitivity: real)
    requires sensitivity >= 0.0
    requires SlouchAmount(currentY, bad) - EnterThreshold(good, bad, sensitivity) >= PostureRange(good, bad)
    ensures SlouchOpacity(currentY, good, bad, sensitivity) == OpacityFloor + OpacitySpan * sensitivity
  {
    var r := PostureRange(good, bad);
    var a := SlouchAmount(currentY, bad) - EnterThreshold(good, bad, sensitivity);
    DivideMonotone(r, a, r);
    assert r / r == 1.0;
  }

  // ---------------------------------------------------------------------------------------
  // Debounce
  // ---------------------------------------------------------------------------------------

  /** `is_slouching`, `consecutive_bad_frames`, `consecutive_good_frames`. */
  datatype Counters = Counters(isSlouching: bool, badFrames: nat, goodFrames: nat)

  /** The counter update of one classified frame. */
  function Debounce(c: Counters, isBad: bool): (r: Counters)
    ensures isBad ==> r.badFrames == c.badFrames + 1 && r.goodFrames == 0
    ensures !isBad ==> r.goodFrames == c.goodFrames + 1 && r.badFrames == 0
    ensures isBad ==> (r.isSlouching <==> c.isSlouching || r.badFrames >= FrameThreshold)
    ensures !isBad ==> (r.isSlouching <==> c.isSlouching && r.goodFrames < FrameThreshold)
  {
    if isBad then
      var bad := c.badFrames + 1;
      Counters(if bad >= FrameThreshold then true else c.isSlouching, bad, 0)
    else
      var good := c.goodFrames + 1;
      Counters(if good >= FrameThreshold then false else c.isSlouching, 0, good)
  }

  /** The counters after a whole run of classified frames, oldest first. */
  function Feed(c: Counters, frames: seq<bool>): Counters
    decreases |frames|
  {
    if frames == [] then c else Debounce(Feed(c, frames[..|frames| - 1]), frames[|frames| - 1])
  }

  function Repeat(b: bool, n: nat): (r: seq<bool>)
    ensures |r| == n && forall i :: 0 <= i < n ==> r[i] == b
  {
    seq(n, _ => b)
  }

  /** n bad frames in a row: the bad count grows by n, and slouching holds once it reaches 8. */
  lemma {:induction false} BadRun(c: Counters, n: nat)
    requires n > 0
    ensures Feed(c, Repeat(true, n)) ==
            Counters(c.isSlouching || c.badFrames + n >= FrameThreshold, c.badFrames + n, 0)
  {
    assert Repeat(true, n)[..n - 1] == Repeat(true, n - 1);
    if n > 1 {
      BadRun(c, n - 1);
    }
  }

  /** n good frames in a row: the good count grows by n, and slouching clears once it reaches 8. */
  lemma {:induction false} GoodRun(c: Counters, n: nat)
    requires n > 0
    ensures Feed(c, Repeat(false, n)) ==
            Counters(c.isSlouching && c.goodFrames + n < FrameThreshold, 0, c.goodFrames + n)
  {
    assert Repeat(false, n)[..n - 1] == Repeat(false, n - 1);
    if n > 1 {
      GoodRun(c, n - 1);
    }
  }

  /** From the reset state, the 7th bad frame still reports good and the 8th reports slouching. */
  lemma EighthBadFrameEntersSlouching()
    ensures !Feed(Counters(false, 0, 0), Repeat(true, 7)).isSlouching
    ensures Feed(Counters(false, 0, 0), Repeat(true, 8)).isSlouching
  {
    BadRun(Counters(false, 0, 0), 7);
    BadRun(Counters(false, 0, 0), 8);
  }

  /** From slouching, five good frames then one bad one leave the good streak at 0. */
  lemma BadFrameResetsGoodStreak()
    ensures Debounce(Feed(Counters(true, 0, 0), Repeat(false, 5)), true) == Counters(true, 1, 0)
  {
    GoodRun(Counters(true, 0, 0), 5);
  }

  /** The number of trailing frames equal to `v`. */
  function TrailingRun(frames: seq<bool>, v: bool): (n: nat)
    ensures n <= |frames|
    ensures forall j :: |frames| - n <= j < |frames| ==> frames[j] == v
    decreases |frames|
  {
    if frames == [] || frames[|frames| - 1] != v then 0
    else 1 + TrailingRun(frames[..|frames| - 1], v)
  }

  /** The `n` frames from index `i` on all equal `v`. */
  ghost predicate RunAt(frames: seq<bool>, v: bool, i: int, n: nat) {
    0 <= i && i + n <= |frames| && forall j :: i <= j < i + n ==> frames[j] == v
  }

  /** Somewhere in `frames` there are `n` consecutive frames equal to `v`. */
  ghost predicate HasRun(frames: seq<bool>, v: bool, n: nat) {
    exists i :: RunAt(frames, v, i, n)
  }

  lemma RunSurvivesAppend(frames: seq<bool>, x: bool, v: bool, n: nat)
    requires HasRun(frames, v, n)
    ensures HasRun(frames + [x], v, n)
  {
    var i :| RunAt(frames, v, i, n);
    assert RunAt(frames + [x], v, i, n);
  }

  lemma TrailingRunIsRun(frames: seq<bool>, v: bool, n: nat)
    requires TrailingRun(frames, v) >= n
    ensures HasRun(frames, v, n)
  {
    assert RunAt(frames, v, |frames| - n, n);
  }

  /**
   * Starting from zeroed counters, the counters are the trailing run lengths, and the state can
   * only have flipped if the frames hold 8 consecutive frames of the opposite kind.
   */
  lemma {:induction false} DebounceNeedsFullRun(start: bool, frames: seq<bool>)
    ensures var r := Feed(Counters(start, 0, 0), frames);
            r.badFrames == TrailingRun(frames, true) &&
            r.goodFrames == TrailingRun(frames, false) &&
            (r.isSlouching && !start ==> HasRun(frames, true, FrameThreshold)) &&
            (!r.isSlouching && start ==> HasRun(frames, false, FrameThreshold))
    decreases |frames|
  {
    if frames != [] {
      var n := |frames|;
      var prefix := frames[..n - 1];
      var v := frames[n - 1];
      assert frames == prefix + [v];
      DebounceNeedsFullRun(start, prefix);
      var p := Feed(Counters(start, 0, 0), prefix);
      var r := Feed(Counters(start, 0, 0), frames);
      assert r == Debounce(p, v);
      if HasRun(prefix, true, FrameThreshold) {
        RunSurvivesAppend(prefix, v, true, FrameThreshold);
      }
      if HasRun(prefix, false, FrameThreshold) {
        RunSurvivesAppend(prefix, v, false, FrameThreshold);
      }
      if TrailingRun(frames, v) >= FrameThreshold {
        TrailingRunIsRun(frames, v, FrameThreshold);
      }
    }
  }

  // ---------------------------------------------------------------------------------------
  // Away episodes
  // ---------------------------------------------------------------------------------------

  /** `consecutive_no_detection` and `_screen_locked_this_away`. */
  datatype AwayState = AwayState(noDetection: nat, lockedThisAway: bool)

  /** The away bookkeeping of one frame without a face; `lockNow` says whether the screen is locked. */
  function AwayStep(a: AwayState, lockWhenAway: bool): (r: (AwayState, bool))
    ensures r.0.noDetection == a.noDetection + 1
    ensures r.0.lockedThisAway == (a.lockedThisAway || r.1)
  {
    var n := a.noDetection + 1;
    var lockNow := n >= AwayThreshold && lockWhenAway && !a.lockedThisAway;
    (AwayState(n, a.lockedThisAway || lockNow), lockNow)
  }

  /** The state after `n` frames without a face. */
  function AwayAfter(a: AwayState, lockWhenAway: bool, n: nat): AwayState
    decreases n
  {
    if n == 0 then a else AwayStep(AwayAfter(a, lockWhenAway, n - 1), lockWhenAway).0
  }

  /** How many times the screen is locked during `n` frames without a face. */
  function LocksDuring(a: AwayState, lockWhenAway: bool, n: nat): nat
    decreases n
  {
    if n == 0 then 0
    else LocksDuring(a, lockWhenAway, n - 1) + (if AwayStep(AwayAfter(a, lockWhenAway, n - 1), lockWhenAway).1 then 1 else 0)
  }

  /**
   * Within one away episode the screen is locked at most once, never once already locked, and a
   * lock leaves the flag set.
   */
  lemma {:induction false} AtMostOneLockPerEpisode(a: AwayState, lockWhenAway: bool, n: nat)
    ensures AwayAfter(a, lockWhenAway, n).noDetection == a.noDetection + n
    ensures LocksDuring(a, lockWhenAway, n) <= (if a.lockedThisAway then 0 else 1)
    ensures AwayAfter(a, lockWhenAway, n).lockedThisAway <==> a.lockedThisAway || LocksDuring(a, lockWhenAway, n) == 1
    decreases n
  {
    if n > 0 {
      AtMostOneLockPerEpisode(a, lockWhenAway, n - 1);
    }
  }

  /** From a fresh episode with locking enabled, the 15th missed frame locks and no other does. */
  lemma {:induction false} FifteenthMissLocks(lockWhenAway: bool, n: nat)
    ensures LocksDuring(AwayState(0, false), lockWhenAway, n) ==
            (if lockWhenAway && n >= AwayThreshold then 1 else 0)
    decreases n
  {
    if n > 0 {
      FifteenthMissLocks(lockWhenAway, n - 1);
      AtMostOneLockPerEpisode(AwayState(0, false), lockWhenAway, n - 1);
    }
  }
}
