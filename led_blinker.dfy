/**
 * The camera-LED blinker (postured/led_blinker.py): a blink is four timed steps that stop and start
 * the camera alternately, so its LED goes off-on-off-on; slouching starts a blink and a 30-second
 * repeat timer that blinks again while slouching lasts.
 */
module LedBlink {
  import opened Common

  /** `BLINK_OFF_MS`: how long the camera stays stopped. */
  const BlinkOffMs: nat := 200
  /** `BLINK_ON_MS`: how long the camera runs before the next stop. */
  const BlinkOnMs: nat := 200
  /** `BLINK_COUNT`: off-on pairs per blink. */
  const BlinkCount: nat := 2
  /** `REPEAT_INTERVAL_S`. */
  const RepeatIntervalS: nat := 30

  /** What the blinker asks of the pose detector. */
  datatype CameraCommand = Stop | Start(index: int)

  /** The command step `step` of a blink issues, if the blink has not ended. */
  function StepCommand(step: nat, index: int): (c: Option<CameraCommand>)
    ensures c.None? <==> step >= BlinkCount * 2
    ensures c == Some(Stop) <==> step < BlinkCount * 2 && step % 2 == 0
    ensures c == Some(Start(index)) <==> step < BlinkCount * 2 && step % 2 == 1
  {
    if step >= BlinkCount * 2 then None
    else if step % 2 == 0 then Some(Stop)
    else Some(Start(index))
  }

  /**
   * The timer `_do_blink_step` schedules after issuing the command of `step`: a stop keeps the
   * camera off for `BLINK_OFF_MS`, a start keeps it on for `BLINK_ON_MS`.
   */
  function StepDelay(step: nat): (ms: nat)
    ensures forall index :: StepCommand(step, index) == Some(Stop) ==> ms == BlinkOffMs
    ensures forall index :: StepCommand(step, index) == Some(Start(index)) ==> ms == BlinkOnMs
  {
    if step % 2 == 0 then BlinkOffMs else BlinkOnMs
  }

  /** The commands of steps `0 .. n-1` of a blink whose camera index stays `index`. */
  function Issued(index: int, n: nat): (cs: seq<CameraCommand>)
    ensures |cs| == if n < BlinkCount * 2 then n else BlinkCount * 2
  {
    if n == 0 then []
    else Issued(index, n - 1) + (match StepCommand(n - 1, index) case None => [] case Some(c) => [c])
  }

  /** A whole blink is stop, start, stop, start; steps from the fourth on issue nothing more. */
  lemma {:induction false} BlinkSequence(index: int, n: nat)
    requires n >= BlinkCount * 2
    ensures Issued(index, n) == [Stop, Start(index), Stop, Start(index)]
  {
    if n > BlinkCount * 2 {
      BlinkSequence(index, n - 1);
    } else {
      assert Issued(index, 1) == [Stop];
      assert Issued(index, 2) == [Stop, Start(index)];
      assert Issued(index, 3) == [Stop, Start(index), Stop];
    }
  }

  /** Step `k` of a blink is a stop when `k` is even and a start when it is odd. */
  predicate IsStepCommand(c: CameraCommand, k: nat)
  {
    if k % 2 == 0 then c == Stop else c.Start?
  }

  class LedBlinker {
    var cameraIndex: int
    var blinkStep: nat
    var blinkInProgress: bool
    var isSlouching: bool
    /** The delay of the pending `_advance_step` single-shot timer, if one is pending. */
    var advanceTimer: Option<nat>
    /** The interval of the repeat timer while it runs. */
    var repeatTimer: Option<nat>
    /** Every command sent to the pose detector, oldest first. */
    var commands: seq<CameraCommand>
    /** Where in `commands` the latest blink began. */
    ghost var blinkOrigin: nat

    /**
     * A blink in progress has issued one command per step so far, alternating stop and start, and
     * has exactly one advance pending; a finished blink issued all four.
     */
    ghost predicate Valid()
      reads this
    {
      && blinkStep <= BlinkCount * 2
      && (advanceTimer.Some? <==> blinkInProgress)
      && (blinkInProgress ==> blinkStep < BlinkCount * 2 && advanceTimer == Some(StepDelay(blinkStep)))
      && blinkOrigin <= |commands|
      && |commands| - blinkOrigin == (if blinkInProgress then blinkStep + 1 else blinkStep)
      && (forall k :: blinkOrigin <= k < |commands| ==> IsStepCommand(commands[k], k - blinkOrigin))
    }

    constructor (cameraIndex: int)
      ensures Valid() && this.cameraIndex == cameraIndex && blinkStep == 0 && !blinkInProgress
      ensures !isSlouching && advanceTimer == None && repeatTimer == None && commands == []
    {
      this.cameraIndex := cameraIndex;
      blinkStep := 0;
      blinkInProgress := false;
      isSlouching := false;
      advanceTimer := None;
      repeatTimer := None;
      commands := [];
      blinkOrigin := 0;
    }

    /** `_do_blink_step`: issue this step's command and schedule the next, or end the blink. */
    method DoBlinkStep()
      requires blinkInProgress && blinkStep <= BlinkCount * 2 && blinkOrigin <= |commands|
      requires |commands| - blinkOrigin == blinkStep
      requires forall k :: blinkOrigin <= k < |commands| ==> IsStepCommand(commands[k], k - blinkOrigin)
      modifies this`blinkInProgress, this`advanceTimer, this`commands
      ensures Valid()
      ensures blinkStep >= BlinkCount * 2 ==>
                !blinkInProgress && advanceTimer == None && commands == old(commands)
      ensures blinkStep < BlinkCount * 2 ==>
                blinkInProgress && advanceTimer == Some(StepDelay(blinkStep)) &&
                commands == old(commands) + [StepCommand(blinkStep, cameraIndex).value]
    {
      if blinkStep >= BlinkCount * 2 {
        blinkInProgress := false;
        advanceTimer := None;
        return;
      }
      if blinkStep % 2 == 0 {
        commands := commands + [Stop];
        advanceTimer := Some(BlinkOffMs);
      } else {
        commands := commands + [Start(cameraIndex)];
        advanceTimer := Some(BlinkOnMs);
      }
    }

    /** `blink`: ignored while a blink is in progress; otherwise step 0 (stop) of a new blink. */
    method Blink()
      requires Valid()
      modifies this`blinkInProgress, this`blinkStep, this`advanceTimer, this`commands, this`blinkOrigin
      ensures Valid()
      ensures old(blinkInProgress) ==>
                blinkInProgress && blinkStep == old(blinkStep) && advanceTimer == old(advanceTimer) &&
                commands == old(commands)
      ensures !old(blinkInProgress) ==>
                blinkInProgress && blinkStep == 0 && advanceTimer == Some(BlinkOffMs) &&
                commands == old(commands) + [Stop] && blinkOrigin == |old(commands)|
    {
      if blinkInProgress {
        return;
      }
      blinkInProgress := true;
      blinkStep := 0;
      blinkOrigin := |commands|;
      DoBlinkStep();
    }

    /**
     * `_advance_step`, when the pending single-shot timer fires: the next step, which issues the
     * next command or, after the fourth, ends the blink with the camera started.
     */
    method AdvanceStep()
      requires Valid() && advanceTimer.Some?
      modifies this`blinkInProgress, this`blinkStep, this`advanceTimer, this`commands
      ensures Valid() && blinkStep == old(blinkStep) + 1
      ensures blinkStep < BlinkCount * 2 ==>
                blinkInProgress && commands == old(commands) + [StepCommand(blinkStep, cameraIndex).value]
      ensures blinkStep == BlinkCount * 2 ==>
                !blinkInProgress && advanceTimer == None && commands == old(commands) &&
                |commands| - blinkOrigin == BlinkCount * 2 && commands[|commands| - 1].Start?
    {
      blinkStep := blinkStep + 1;
      DoBlinkStep();
    }

    /** `_on_repeat`: blink again only while slouching. */
    method OnRepeat()
      requires Valid()
      modifies this`blinkInProgress, this`blinkStep, this`advanceTimer, this`commands, this`blinkOrigin
      ensures Valid()
      ensures !isSlouching ==>
                blinkInProgress == old(blinkInProgress) && blinkStep == old(blinkStep) &&
                advanceTimer == old(advanceTimer) && commands == old(commands)
      ensures isSlouching && !old(blinkInProgress) ==>
                blinkInProgress && blinkStep == 0 && commands == old(commands) + [Stop]
      ensures isSlouching && old(blinkInProgress) ==> blinkStep == old(blinkStep) && commands == old(commands)
    {
      if isSlouching {
        Blink();
      }
    }

    /** `on_slouching_started`: set the flag, blink, and start the repeat timer. */
    method OnSlouchingStarted()
      requires Valid()
      modifies this`isSlouching, this`repeatTimer, this`blinkInProgress, this`blinkStep, this`advanceTimer,
               this`commands, this`blinkOrigin
      ensures Valid() && isSlouching && repeatTimer == Some(RepeatIntervalS * 1000)
      ensures old(blinkInProgress) ==> blinkStep == old(blinkStep) && commands == old(commands)
      ensures !old(blinkInProgress) ==> blinkInProgress && blinkStep == 0 && commands == old(commands) + [Stop]
    {
      isSlouching := true;
      Blink();
      repeatTimer := Some(RepeatIntervalS * 1000);
    }

    /** `on_slouching_stopped`: clear the flag and stop repeating; a blink in progress runs to its end. */
    method OnSlouchingStopped()
      requires Valid()
      modifies this`isSlouching, this`repeatTimer
      ensures Valid() && !isSlouching && repeatTimer == None
    {
      isSlouching := false;
      repeatTimer := None;
    }

    /** `set_camera_index`: only the index changes; the starts of later steps use it. */
    method SetCameraIndex(index: int)
      requires Valid()
      modifies this`cameraIndex
      ensures Valid() && cameraIndex == index
    {
      cameraIndex := index;
    }
  }
}
