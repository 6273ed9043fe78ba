/** Sensors/MagnetSensor.cs: the trigger detector that watches the
    magnetometer for the Cardboard's magnet being pulled down and released.
    Thread, looper and handler plumbing is left out; a trigger posted to the
    listener is reported as a flag on the step's result. */
module Magnet {
  import opened Common

  const SEGMENT_SIZE: int := 20
  const NUM_SEGMENTS: int := 2
  const WINDOW_SIZE: int := 40
  /** Segment 0 must come within this distance of the baseline... */
  const T1: real := 30.0
  /** ...and segment 1 must stray beyond this one. */
  const T2: real := 130.0

  /** One magnetometer reading. */
  datatype Sample = Sample(x: real, y: real, z: real)

  /** The detector's state: the sample window, oldest first, and whether a
      trigger listener is registered. */
  datatype Detector = Detector(window: seq<Sample>, hasListener: bool)

  /** `new TriggerDetector(context)`: an empty window and no listener. */
  const NewDetector: Detector := Detector([], false)

  /** The result of feeding the detector: its new state and whether a trigger
      was posted to the listener. */
  datatype Step = Step(detector: Detector, triggered: bool)

  /** `setOnCardboardTriggerListener`: a null listener unregisters. */
  function SetListener(d: Detector, present: bool): (r: Detector)
    ensures r.hasListener == present && r.window == d.window
  {
    d.(hasListener := present)
  }

  /** Distance of a reading from the baseline reading. */
  function Offset(n: Numerics, p: Sample, baseline: Sample): real
  {
    var dx := p.x - baseline.x;
    var dy := p.y - baseline.y;
    var dz := p.z - baseline.z;
    n.sqrt(dx * dx + dy * dy + dz * dz)
  }

  /** `computeOffsets(start, baseline)`: the distances of the twenty readings
      from `start` on. */
  function Offsets(n: Numerics, window: seq<Sample>, start: int, baseline: Sample): (r: seq<real>)
    requires 0 <= start && start + SEGMENT_SIZE <= |window|
    ensures |r| == SEGMENT_SIZE
    ensures forall i :: 0 <= i < SEGMENT_SIZE ==> r[i] == Offset(n, window[start + i], baseline)
  {
    seq(SEGMENT_SIZE, i requires 0 <= i < SEGMENT_SIZE => Offset(n, window[start + i], baseline))
  }

  /** The least element, as a reference for the source's minimum loop. */
  function SeqMin(s: seq<real>): (m: real)
    requires |s| > 0
    ensures forall i :: 0 <= i < |s| ==> m <= s[i]
    ensures exists i :: 0 <= i < |s| && m == s[i]
    decreases |s|
  {
    if |s| == 1 then s[0]
    else
      var m := MinR(SeqMin(s[..|s| - 1]), s[|s| - 1]);
      assert forall i :: 0 <= i < |s| - 1 ==> s[..|s| - 1][i] == s[i];
      m
  }

  /** The greatest element, as a reference for the source's maximum loop. */
  function SeqMax(s: seq<real>): (m: real)
    requires |s| > 0
    ensures forall i :: 0 <= i < |s| ==> m >= s[i]
    ensures exists i :: 0 <= i < |s| && m == s[i]
    decreases |s|
  {
    if |s| == 1 then s[0]
    else
      var m := MaxR(SeqMax(s[..|s| - 1]), s[|s| - 1]);
      assert forall i :: 0 <= i < |s| - 1 ==> s[..|s| - 1][i] == s[i];
      m
  }

  /** The sum of all elements. */
  function Sum(s: seq<real>): real
    decreases |s|
  {
    if s == [] then 0.0 else Sum(s[..|s| - 1]) + s[|s| - 1]
  }

  /** `computeMinimum` as written: the running minimum starts at 1.0F/1.0F,
      that is 1, so the result never exceeds 1. */
  method ComputeMinimum(offsets: seq<real>) returns (min: real)
    ensures |offsets| == 0 ==> min == 1.0
    ensures |offsets| > 0 ==> min == MinR(1.0, SeqMin(offsets))
    ensures min <= 1.0
  {
    min := 1.0;
    var i := 0;
    while i < |offsets|
      invariant 0 <= i <= |offsets|
      invariant i == 0 ==> min == 1.0
      invariant i > 0 ==> min == MinR(1.0, SeqMin(offsets[..i]))
    {
      assert offsets[..i + 1][..i] == offsets[..i];
      min := MinR(offsets[i], min);
      i := i + 1;
    }
    assert offsets[..|offsets|] == offsets;
  }

  /** `computeMaximum`: the running maximum starts at 1.0F/-1.0F, that is -1,
      so the result is never below -1. */
  method ComputeMaximum(offsets: seq<real>) returns (max: real)
    ensures |offsets| == 0 ==> max == -1.0
    ensures |offsets| > 0 ==> max == MaxR(-1.0, SeqMax(offsets))
    ensures max >= -1.0
  {
    max := -1.0;
    var i := 0;
    while i < |offsets|
      invariant 0 <= i <= |offsets|
      invariant i == 0 ==> max == -1.0
      invariant i > 0 ==> max == MaxR(-1.0, SeqMax(offsets[..i]))
    {
      assert offsets[..i + 1][..i] == offsets[..i];
      max := MaxR(offsets[i], max);
      i := i + 1;
    }
    assert offsets[..|offsets|] == offsets;
  }

  /** `computeMean`: the running sum divided by the count. */
  method ComputeMean(offsets: seq<real>) returns (mean: real)
    ensures |offsets| > 0 ==> mean * |offsets| as real == Sum(offsets)
  {
    var sum := 0.0;
    var i := 0;
    while i < |offsets|
      invariant 0 <= i <= |offsets|
      invariant sum == Sum(offsets[..i])
    {
      assert offsets[..i + 1][..i] == offsets[..i];
      sum := sum + offsets[i];
      i := i + 1;
    }
    assert offsets[..|offsets|] == offsets;
    mean := FDiv(sum, |offsets| as real);
  }

  /** Readings never come closer than 0 to the baseline, so starting the
      maximum at -1 is harmless: it is the true maximum. */
  lemma MaximumStartIsHarmless(offsets: seq<real>)
    requires |offsets| > 0
    requires forall i :: 0 <= i < |offsets| ==> offsets[i] >= 0.0
    ensures MaxR(-1.0, SeqMax(offsets)) == SeqMax(offsets)
  {
  }

  /** The trigger rule as written: the first segment's minimum (started at 1)
      below T1 and the second segment's maximum (started at -1) above T2. */
  predicate FiresAsWritten(offsets0: seq<real>, offsets1: seq<real>)
    requires |offsets0| > 0 && |offsets1| > 0
  {
    MinR(1.0, SeqMin(offsets0)) < T1 && MaxR(-1.0, SeqMax(offsets1)) > T2
  }

  /** As written, the first segment plays no part: the rule fires iff the
      second segment strays beyond T2. */
  lemma AsWrittenIgnoresFirstSegment(offsets0: seq<real>, offsets1: seq<real>)
    requires |offsets0| > 0 && |offsets1| > 0
    ensures FiresAsWritten(offsets0, offsets1) <==> SeqMax(offsets1) > T2
  {
  }

  /** The trigger rule with a true minimum: some reading of the first segment
      within T1 of the baseline and some reading of the second beyond T2. */
  predicate Fires(offsets0: seq<real>, offsets1: seq<real>)
    requires |offsets0| > 0 && |offsets1| > 0
  {
    SeqMin(offsets0) < T1 && SeqMax(offsets1) > T2
  }

  /** `Fires` says what the thresholds mean, reading by reading. */
  lemma FiresMeansNearThenFar(offsets0: seq<real>, offsets1: seq<real>)
    requires |offsets0| > 0 && |offsets1| > 0
    ensures Fires(offsets0, offsets1) <==>
      (exists i :: 0 <= i < |offsets0| && offsets0[i] < T1) && (exists j :: 0 <= j < |offsets1| && offsets1[j] > T2)
  {
    if exists i :: 0 <= i < |offsets0| && offsets0[i] < T1 {
      var i :| 0 <= i < |offsets0| && offsets0[i] < T1;
      assert SeqMin(offsets0) <= offsets0[i];
    }
    if exists j :: 0 <= j < |offsets1| && offsets1[j] > T2 {
      var j :| 0 <= j < |offsets1| && offsets1[j] > T2;
      assert SeqMax(offsets1) >= offsets1[j];
    }
  }

  /** A magnet that never came near the baseline in the first segment still
      fires the rule as written. */
  lemma AsWrittenFiresWithoutApproach()
    ensures var far := seq(SEGMENT_SIZE, i => 50.0);
      var farther := seq(SEGMENT_SIZE, i => 200.0);
      FiresAsWritten(far, farther) && !Fires(far, farther)
  {
    var far := seq(SEGMENT_SIZE, i => 50.0);
    var farther := seq(SEGMENT_SIZE, i => 200.0);
    assert SeqMin(far) == far[0] by {
      var k :| 0 <= k < |far| && SeqMin(far) == far[k];
    }
    assert SeqMax(farther) >= farther[0];
  }

  /** `evaluateModel` with the minimum corrected: below a full window it
      decides nothing; otherwise the newest reading is the baseline and the
      two segments are the window's first forty readings. */
  predicate Evaluate(n: Numerics, window: seq<Sample>)
  {
    |window| >= WINDOW_SIZE &&
      var baseline := window[|window| - 1];
      Fires(Offsets(n, window, 0, baseline), Offsets(n, window, SEGMENT_SIZE, baseline))
  }

  /** `evaluateModel` as written. */
  predicate EvaluateAsWritten(n: Numerics, window: seq<Sample>)
  {
    |window| >= WINDOW_SIZE &&
      var baseline := window[|window| - 1];
      FiresAsWritten(Offsets(n, window, 0, baseline), Offsets(n, window, SEGMENT_SIZE, baseline))
  }

  /** `handleButtonPressed` (and `fakeTrigger`, which calls it): the window is
      emptied and a trigger is posted if a listener is registered. */
  function HandleButtonPressed(d: Detector): (r: Step)
    ensures r.detector.window == [] && r.detector.hasListener == d.hasListener
    ensures r.triggered <==> d.hasListener
  {
    Step(d.(window := []), d.hasListener)
  }

  /** The window after `addData` appends `s`: the oldest reading goes first
      once more than forty are held. */
  function Slide(window: seq<Sample>, s: Sample): (r: seq<Sample>)
    ensures |window| <= WINDOW_SIZE + 1 ==> |r| <= WINDOW_SIZE + 1
    ensures |window| <= WINDOW_SIZE ==> r == window + [s]
    ensures |window| > WINDOW_SIZE ==> r == window[1..] + [s]
  {
    (if |window| > WINDOW_SIZE then window[1..] else window) + [s]
  }

  /** `addData(values)`: slide the window, then evaluate it with the rule as
      written. */
  function AddData(n: Numerics, d: Detector, s: Sample): (r: Step)
    ensures EvaluateAsWritten(n, Slide(d.window, s)) ==> r == HandleButtonPressed(d)
    ensures !EvaluateAsWritten(n, Slide(d.window, s)) ==> r == Step(d.(window := Slide(d.window, s)), false)
  {
    var w := Slide(d.window, s);
    if EvaluateAsWritten(n, w) then HandleButtonPressed(d.(window := w)) else Step(d.(window := w), false)
  }

  /** `addData` with the minimum corrected. */
  function AddDataCorrected(n: Numerics, d: Detector, s: Sample): (r: Step)
    ensures Evaluate(n, Slide(d.window, s)) ==> r == HandleButtonPressed(d)
    ensures !Evaluate(n, Slide(d.window, s)) ==> r == Step(d.(window := Slide(d.window, s)), false)
  {
    var w := Slide(d.window, s);
    if Evaluate(n, w) then HandleButtonPressed(d.(window := w)) else Step(d.(window := w), false)
  }

  /** On a full window the rule as written looks at the second segment only:
      it fires exactly when that segment strays beyond T2. */
  lemma AsWrittenEvaluateIgnoresApproach(n: Numerics, window: seq<Sample>)
    ensures EvaluateAsWritten(n, window) <==>
      |window| >= WINDOW_SIZE && SeqMax(Offsets(n, window, SEGMENT_SIZE, window[|window| - 1])) > T2
  {
    if |window| >= WINDOW_SIZE {
      var baseline := window[|window| - 1];
      AsWrittenIgnoresFirstSegment(Offsets(n, window, 0, baseline), Offsets(n, window, SEGMENT_SIZE, baseline));
    }
  }

  /** The corrected rule fires only where the rule as written fires: it adds
      the approach the written rule forgot. */
  lemma CorrectedFiringIsStricter(n: Numerics, window: seq<Sample>)
    ensures Evaluate(n, window) ==> EvaluateAsWritten(n, window)
  {
  }

  /** The reading an all-zero sample stands for: none (some devices report
      zeros before the sensor settles). */
  predicate AllZero(s: Sample) { s.x == 0.0 && s.y == 0.0 && s.z == 0.0 }

  /** `OnSensorChanged(e)`: readings from other sensors and all-zero readings
      are ignored; the rest are added. */
  function OnSensorChanged(n: Numerics, d: Detector, fromMagnetometer: bool, s: Sample): (r: Step)
    ensures !fromMagnetometer || AllZero(s) ==> r == Step(d, false)
    ensures fromMagnetometer && !AllZero(s) ==> r == AddData(n, d, s)
  {
    if !fromMagnetometer || AllZero(s) then Step(d, false) else AddData(n, d, s)
  }

  /** The window never holds more than 41 readings, and grows by one reading
      (the new one, at the end) unless the trigger fired and emptied it. */
  lemma WindowStaysBounded(n: Numerics, d: Detector, fromMagnetometer: bool, s: Sample)
    requires |d.window| <= WINDOW_SIZE + 1
    ensures var r := OnSensorChanged(n, d, fromMagnetometer, s);
      && |r.detector.window| <= WINDOW_SIZE + 1
      && (fromMagnetometer && !AllZero(s) && !r.triggered && r.detector.window != [] ==>
            r.detector.window[|r.detector.window| - 1] == s)
  {
  }

  /** Nothing fires while fewer than forty readings are held after the new one. */
  lemma NoTriggerBeforeFullWindow(n: Numerics, d: Detector, s: Sample)
    requires |d.window| < WINDOW_SIZE - 1
    ensures AddData(n, d, s) == Step(d.(window := d.window + [s]), false)
  {
  }

  /** A step empties the window exactly when the rule as written fires on the
      slid window; it posts a trigger exactly when, in addition, a listener is
      registered. */
  lemma FiringEmptiesWindow(n: Numerics, d: Detector, s: Sample)
    ensures var r := AddData(n, d, s);
      && (r.detector.window == [] <==> EvaluateAsWritten(n, Slide(d.window, s)))
      && (r.triggered <==> EvaluateAsWritten(n, Slide(d.window, s)) && d.hasListener)
  {
  }
}
