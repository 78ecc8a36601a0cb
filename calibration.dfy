/**
 * The step sequencer of `CalibrationWindow` (postured/calibration.py): the user looks at four
 * corners in turn, each key press captures the current nose Y, and the fourth capture reports the
 * minimum, maximum and mean of the captured values. Escape cancels without values.
 */
module Calibration {
  import opened Stats

  /** `CORNERS`, in the order the user is asked to look at them. */
  const Corners: seq<string> := ["TOP-LEFT", "TOP-RIGHT", "BOTTOM-RIGHT", "BOTTOM-LEFT"]

  /** The initial `current_nose_y`, before any pose arrives. */
  const InitialNoseY: real := 0.5

  /** The signals of the window: `calibration_complete(min_y, max_y, avg_y)` and `calibration_cancelled`. */
  datatype CalibrationEvent = Completed(minY: real, maxY: real, avgY: real) | Cancelled

  /** The values `_complete` reports for the captured values. */
  function Summary(values: seq<real>): (r: CalibrationEvent)
    requires |values| > 0
    ensures r.Completed?
    ensures r.minY in values && r.maxY in values
    ensures forall i :: 0 <= i < |values| ==> r.minY <= values[i] <= r.maxY
    ensures r.avgY == Mean(values)
  {
    Completed(SeqMin(values), SeqMax(values), Mean(values))
  }

  /** The reported mean lies between the reported minimum and maximum. */
  lemma SummaryOrdered(values: seq<real>)
    requires |values| > 0
    ensures Summary(values).minY <= Summary(values).avgY <= Summary(values).maxY
  {
    MeanBetweenMinAndMax(values);
  }

  /** Identical captures report that value three times. */
  lemma SummaryOfIdenticalValues(values: seq<real>, v: real)
    requires |values| > 0 && forall i :: 0 <= i < |values| ==> values[i] == v
    ensures Summary(values) == Completed(v, v, v)
  {
    ConstantStats(values, v);
  }

  /** The summary of four distinct captures. */
  lemma SummaryOfDistinctCaptures()
    ensures Summary([0.3, 0.5, 0.7, 0.4]) == Completed(0.3, 0.7, 0.475)
  {
    var a := [0.3, 0.5, 0.7, 0.4];
    assert a[..3] == [0.3, 0.5, 0.7];
    assert [0.3, 0.5, 0.7][..2] == [0.3, 0.5];
    assert [0.3, 0.5][..1] == [0.3];
    assert Sum([0.3]) == 0.3;
    assert Sum([0.3, 0.5]) == 0.8;
    assert Sum([0.3, 0.5, 0.7]) == 1.5;
    assert Sum(a) == 1.9;
    assert SeqMin([0.3, 0.5]) == 0.3 && SeqMax([0.3, 0.5]) == 0.5;
    assert SeqMin([0.3, 0.5, 0.7]) == 0.3 && SeqMax([0.3, 0.5, 0.7]) == 0.7;
  }

  /** The summary of two alternating extremes. */
  lemma SummaryOfAlternatingCaptures()
    ensures Summary([0.1, 0.9, 0.1, 0.9]) == Completed(0.1, 0.9, 0.5)
  {
    var b := [0.1, 0.9, 0.1, 0.9];
    assert b[..3] == [0.1, 0.9, 0.1];
    assert [0.1, 0.9, 0.1][..2] == [0.1, 0.9];
    assert [0.1, 0.9][..1] == [0.1];
    assert Sum([0.1]) == 0.1;
    assert Sum([0.1, 0.9]) == 1.0;
    assert Sum([0.1, 0.9, 0.1]) == 1.1;
    assert Sum(b) == 2.0;
    assert SeqMin([0.1, 0.9]) == 0.1 && SeqMax([0.1, 0.9]) == 0.9;
    assert SeqMin([0.1, 0.9, 0.1]) == 0.1 && SeqMax([0.1, 0.9, 0.1]) == 0.9;
  }

  /** The corners are the four screen corners, clockwise from the top left. */
  lemma CornersOrder()
    ensures |Corners| == 4
    ensures Corners[0] == "TOP-LEFT" && Corners[1] == "TOP-RIGHT"
    ensures Corners[2] == "BOTTOM-RIGHT" && Corners[3] == "BOTTOM-LEFT"
  {
  }

  /** The keys `keyPressEvent` tells apart. */
  datatype Key = Space | Escape | OtherKey

  class CalibrationWindow {
    var currentStep: nat
    var capturedValues: seq<real>
    var currentNoseY: real
    /** Whether the animation timer runs and the window is shown. */
    var active: bool
    var events: seq<CalibrationEvent>

    /** One value has been captured per step taken. */
    ghost predicate Valid()
      reads this
    {
      |capturedValues| == currentStep
    }

    constructor ()
      ensures Valid() && currentStep == 0 && capturedValues == [] && currentNoseY == InitialNoseY
      ensures !active && events == []
    {
      currentStep := 0;
      capturedValues := [];
      currentNoseY := InitialNoseY;
      active := false;
      events := [];
    }

    /** `start`: back to the first corner with nothing captured. */
    method Start()
      modifies this`currentStep, this`capturedValues, this`active
      ensures Valid() && currentStep == 0 && capturedValues == [] && active
    {
      currentStep := 0;
      capturedValues := [];
      active := true;
    }

    /** `update_nose_y`: only the latest nose Y changes. */
    method UpdateNoseY(y: real)
      modifies this`currentNoseY
      ensures currentNoseY == y
    {
      currentNoseY := y;
    }

    /** `keyPressEvent`: Space captures, Escape cancels, any other key does nothing. */
    method KeyPress(key: Key)
      requires Valid()
      modifies this`capturedValues, this`currentStep, this`active, this`events
      ensures Valid()
      ensures key.Space? ==> capturedValues == old(capturedValues) + [currentNoseY] && currentStep == old(currentStep) + 1
      ensures key.Space? && currentStep >= |Corners| ==> events == old(events) + [Summary(capturedValues)] && !active
      ensures key.Space? && currentStep < |Corners| ==> events == old(events) && active == old(active)
      ensures key.Escape? ==>
                capturedValues == old(capturedValues) && currentStep == old(currentStep) &&
                !active && events == old(events) + [Cancelled]
      ensures key.OtherKey? ==>
                capturedValues == old(capturedValues) && currentStep == old(currentStep) &&
                active == old(active) && events == old(events)
    {
      if key.Space? {
        CapturePosition();
      } else if key.Escape? {
        Cancel();
      }
    }

    /** `_capture_position`: record the current nose Y; from the fourth capture on, complete. */
    method CapturePosition()
      requires Valid()
      modifies this`capturedValues, this`currentStep, this`active, this`events
      ensures Valid()
      ensures capturedValues == old(capturedValues) + [currentNoseY] && currentStep == old(currentStep) + 1
      ensures currentStep >= |Corners| ==> events == old(events) + [Summary(capturedValues)] && !active
      ensures currentStep < |Corners| ==> events == old(events) && active == old(active)
    {
      capturedValues := capturedValues + [currentNoseY];
      currentStep := currentStep + 1;
      if currentStep >= |Corners| {
        Complete();
      }
    }

    /** `_complete`: stop, hide and report the summary of the captures. */
    method Complete()
      requires |capturedValues| > 0
      modifies this`active, this`events
      ensures !active && events == old(events) + [Summary(capturedValues)]
    {
      active := false;
      events := events + [Summary(capturedValues)];
    }

    /** `_cancel`: stop, hide and report the cancellation, with no values. */
    method Cancel()
      modifies this`active, this`events
      ensures !active && events == old(events) + [Cancelled]
    {
      active := false;
      events := events + [Cancelled];
    }
  }
}
