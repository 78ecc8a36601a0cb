/**
 * The sample smoother and the frame split of `PoseDetector` (postured/pose_detector.py): each
 * detected nose Y enters a FIFO window of the last five samples and the window's mean is emitted;
 * a frame without a pose emits a no-detection signal and leaves the window alone.
 */
module Smoothing {
  import opened Stats

  /** `SMOOTHING_WINDOW`. */
  const SmoothingWindow: nat := 5
  /** `FRAME_INTERVAL_MS`: the timestamp step of each processed frame. */
  const FrameIntervalMs: nat := 100

  /** The last `n` values of `s`, in order: what a `deque(maxlen=n)` fed with `s` holds. */
  function LastN(s: seq<real>, n: nat): (w: seq<real>)
    ensures |w| == if |s| <= n then |s| else n
    ensures w == s[|s| - |w|..]
  {
    if |s| <= n then s else s[|s| - n..]
  }

  /**
   * Appending to a full window drops its oldest value; appending to a short one keeps all. So the
   * window after one more append is the window of the whole history with that value appended.
   */
  lemma {:induction false} AppendEvictsOldest(s: seq<real>, x: real, n: nat)
    requires n > 0
    ensures |LastN(s, n)| < n ==> LastN(s + [x], n) == LastN(s, n) + [x]
    ensures |LastN(s, n)| == n ==> LastN(s + [x], n) == LastN(s, n)[1..] + [x]
    ensures LastN(s + [x], n) == LastN(LastN(s, n) + [x], n)
  {
    var w := LastN(s, n);
    if |s| < n {
      assert w == s;
    } else {
      assert (s + [x])[|s| + 1 - n..] == s[|s| - n..][1..] + [x];
    }
  }

  /** The mean of the window lies between its smallest and its largest sample. */
  lemma SmoothedWithinWindow(fed: seq<real>)
    requires |fed| > 0
    ensures 0 < |LastN(fed, SmoothingWindow)| <= SmoothingWindow
    ensures SeqMin(LastN(fed, SmoothingWindow)) <= Mean(LastN(fed, SmoothingWindow)) <= SeqMax(LastN(fed, SmoothingWindow))
  {
    MeanBetweenMinAndMax(LastN(fed, SmoothingWindow));
  }

  /** The first value fed is returned as it is. */
  lemma FirstValueReturnsItself(x: real)
    ensures Mean(LastN([x], SmoothingWindow)) == x
  {
    ConstantStats([x], x);
  }

  /** The values of the smoothing examples: two samples, and one outlier in a steady window. */
  lemma SmoothingExamples()
    ensures Mean(LastN([0.4, 0.6], SmoothingWindow)) == 0.5
    ensures LastN([0.5, 0.5, 0.5, 0.5, 0.5, 1.0], SmoothingWindow) == [0.5, 0.5, 0.5, 0.5, 1.0]
    ensures Mean([0.5, 0.5, 0.5, 0.5, 1.0]) == 0.6
    ensures Mean(LastN([0.5], SmoothingWindow)) == 0.5
  {
    assert [0.4, 0.6][..1] == [0.4];
    assert Sum([0.4]) == 0.4;
    assert Sum([0.5]) == 0.5;
    assert [0.5, 0.5, 0.5, 0.5, 1.0][..4] == [0.5, 0.5, 0.5, 0.5];
    assert [0.5, 0.5, 0.5, 0.5][..3] == [0.5, 0.5, 0.5];
    assert [0.5, 0.5, 0.5][..2] == [0.5, 0.5];
    assert [0.5, 0.5][..1] == [0.5];
  }

  /** `sum(self.nose_history)`. */
  method WindowSum(s: seq<real>) returns (total: real)
    ensures total == Sum(s)
  {
    total := 0.0;
    var i := 0;
    while i < |s|
      invariant 0 <= i <= |s|
      invariant total == Sum(s[..i])
    {
      assert s[..i + 1][..i] == s[..i];
      total := total + s[i];
      i := i + 1;
    }
    assert s[..i] == s;
  }

  /** What `_process_frame` gets from the camera read and the landmarker. */
  datatype Frame = ReadFailed | NoPose | Pose(noseY: real)

  /** The signals the detector emits. */
  datatype PoseEvent = PoseDetected(noseY: real) | NoDetection

  class PoseDetector {
    /** `nose_history`. */
    var noseHistory: seq<real>
    var frameTimestamp: int
    /** Whether `capture` and `landmarker` are both set, i.e. `start` succeeded. */
    var running: bool
    var events: seq<PoseEvent>
    /** Every raw value ever smoothed, oldest first. */
    ghost var fed: seq<real>

    ghost predicate Valid()
      reads this
    {
      noseHistory == LastN(fed, SmoothingWindow)
    }

    constructor (running: bool)
      ensures Valid() && fed == [] && noseHistory == [] && frameTimestamp == 0
      ensures this.running == running && events == []
    {
      noseHistory := [];
      frameTimestamp := 0;
      this.running := running;
      events := [];
      fed := [];
    }

    /** `_smooth`: append with eviction, then the mean of the window. */
    method Smooth(rawY: real) returns (y: real)
      requires Valid()
      modifies this`noseHistory, this`fed
      ensures Valid() && fed == old(fed) + [rawY]
      ensures 0 < |noseHistory| <= SmoothingWindow && noseHistory[|noseHistory| - 1] == rawY
      ensures y == Mean(LastN(fed, SmoothingWindow))
    {
      AppendEvictsOldest(fed, rawY, SmoothingWindow);
      if |noseHistory| == SmoothingWindow {
        noseHistory := noseHistory[1..] + [rawY];
      } else {
        noseHistory := noseHistory + [rawY];
      }
      fed := fed + [rawY];
      var total := WindowSum(noseHistory);
      y := total / (|noseHistory| as real);
    }

    /** `_process_frame`: nothing unless running and the read succeeded; otherwise one signal. */
    method ProcessFrame(frame: Frame)
      requires Valid()
      modifies this`noseHistory, this`fed, this`frameTimestamp, this`events
      ensures Valid()
      ensures !running || frame.ReadFailed? ==>
                fed == old(fed) && frameTimestamp == old(frameTimestamp) && events == old(events)
      ensures running && frame.NoPose? ==>
                fed == old(fed) && noseHistory == old(noseHistory) &&
                frameTimestamp == old(frameTimestamp) + FrameIntervalMs && events == old(events) + [NoDetection]
      ensures running && frame.Pose? ==>
                fed == old(fed) + [frame.noseY] && frameTimestamp == old(frameTimestamp) + FrameIntervalMs &&
                events == old(events) + [PoseDetected(Mean(LastN(fed, SmoothingWindow)))]
    {
      if !running {
        return;
      }
      if frame.ReadFailed? {
        return;
      }
      frameTimestamp := frameTimestamp + FrameIntervalMs;
      if frame.Pose? {
        var y := Smooth(frame.noseY);
        events := events + [PoseDetected(y)];
      } else {
        events := events + [NoDetection];
      }
    }
  }
}
