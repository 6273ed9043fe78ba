/** Sensors/HeadTracker.cs: routes sensor samples to the orientation filter and
    reads back the predicted head view. The filter itself (OrientationEKF.cs)
    is not part of this model: it is represented by the calls it receives and,
    for prediction, by a function from a horizon in seconds to the head view it
    yields once turned into the head tracker's frame. */
module HeadTracking {
  import opened Common
  import opened HeadPose

  /** Nanoseconds to seconds. */
  const NS2S: real := 0.000000001
  /** One frame at 30 Hz, the literal the source adds to every horizon. */
  const FRAME_PREDICTION_SECONDS: real := 0.03333333333333333

  datatype SensorType = Accelerometer | Gyroscope | MagneticField | OtherSensor

  datatype SensorEvent = SensorEvent(sensor: SensorType, values: seq<real>, timestamp: int)

  /** A call into the orientation filter. */
  datatype FilterCall =
    | Reset
    | ProcessAcc(acc: seq<real>, timestamp: int)
    | ProcessGyro(gyro: seq<real>, timestamp: int)
    | ProcessMag(mag: seq<real>, timestamp: int)

  datatype Tracker = Tracker(
    tracking: bool,
    alignedToNorth: bool,
    lastGyroEventTimeNanos: int,
    filterCalls: seq<FilterCall>)

  /** `new HeadTracker(context)`: not tracking, not aligned to north, no
      gyroscope sample yet, and a fresh filter. */
  const NewTracker: Tracker := Tracker(false, false, 0, [])

  /** `setAlignedToNorth`. */
  function SetAlignedToNorth(t: Tracker, flag: bool): (r: Tracker)
    ensures r.alignedToNorth == flag && r.(alignedToNorth := t.alignedToNorth) == t
  {
    t.(alignedToNorth := flag)
  }

  /** The device-to-filter axis change: (v0, v1, v2) becomes (-v1, v0, v2). */
  function Remap(v: seq<real>): (r: seq<real>)
    requires |v| >= 3
    ensures |r| == 3
  {
    [-v[1], v[0], v[2]]
  }

  /** The remap is a quarter turn about the z axis: it keeps the vector's
      length, two of them negate x and y, and four of them give the sample back. */
  lemma RemapIsQuarterTurn(v: seq<real>)
    requires |v| == 3
    ensures var r := Remap(v);
      r[0] * r[0] + r[1] * r[1] + r[2] * r[2] == v[0] * v[0] + v[1] * v[1] + v[2] * v[2]
    ensures Remap(Remap(v)) == [-v[0], -v[1], v[2]]
    ensures Remap(Remap(Remap(Remap(v)))) == v
  {
  }

  /** `processSensorEvent(e)` at time `now`: the sample is remapped first (so an
      event with fewer than three values faults whatever its sensor), then an
      accelerometer sample goes to `processAcc`, a gyroscope sample to
      `processGyro` and restamps the last-gyroscope clock, a magnetometer
      sample to `processMag` only when aligned to north, and anything else is
      dropped. */
  function ProcessSensorEvent(t: Tracker, e: SensorEvent, now: int): (r: Result<Tracker>)
    ensures r.Err? <==> |e.values| < 3
    ensures r.Err? ==> r.error == IndexOutOfRange
    ensures r.Ok? ==> r.value.tracking == t.tracking && r.value.alignedToNorth == t.alignedToNorth
    ensures r.Ok? ==> (r.value.lastGyroEventTimeNanos != t.lastGyroEventTimeNanos ==> e.sensor == Gyroscope)
    ensures r.Ok? && e.sensor == Gyroscope ==> r.value.lastGyroEventTimeNanos == now
    ensures r.Ok? ==>
      (r.value.filterCalls == t.filterCalls
       || (|r.value.filterCalls| == |t.filterCalls| + 1 && r.value.filterCalls[..|t.filterCalls|] == t.filterCalls))
  {
    if |e.values| < 3 then Err(IndexOutOfRange)
    else
      var v := Remap(e.values);
      match e.sensor
      case Accelerometer => Ok(t.(filterCalls := t.filterCalls + [ProcessAcc(v, e.timestamp)]))
      case Gyroscope => Ok(t.(lastGyroEventTimeNanos := now, filterCalls := t.filterCalls + [ProcessGyro(v, e.timestamp)]))
      case MagneticField =>
        if t.alignedToNorth then Ok(t.(filterCalls := t.filterCalls + [ProcessMag(v, e.timestamp)])) else Ok(t)
      case OtherSensor => Ok(t)
  }

  /** The filter receives exactly the samples routed to it, each remapped: the
      accelerometer and gyroscope always, the magnetometer iff aligned to
      north, other sensors never. */
  lemma FilterSeesRemappedSamples(t: Tracker, e: SensorEvent, now: int)
    requires |e.values| >= 3
    ensures var r := ProcessSensorEvent(t, e, now).value;
      && (e.sensor == Accelerometer ==> r.filterCalls == t.filterCalls + [ProcessAcc(Remap(e.values), e.timestamp)])
      && (e.sensor == Gyroscope ==> r.filterCalls == t.filterCalls + [ProcessGyro(Remap(e.values), e.timestamp)])
      && (e.sensor == MagneticField && t.alignedToNorth ==> r.filterCalls == t.filterCalls + [ProcessMag(Remap(e.values), e.timestamp)])
      && (e.sensor == MagneticField && !t.alignedToNorth ==> r == t)
      && (e.sensor == OtherSensor ==> r == t)
  {
  }

  /** `startTracking`: nothing while already tracking; otherwise the filter is
      reset and tracking begins (registering the sensor listener on its own
      thread is not modelled). */
  function StartTracking(t: Tracker): (r: Tracker)
    ensures r.tracking
    ensures t.tracking ==> r == t
    ensures !t.tracking ==> r == t.(tracking := true, filterCalls := t.filterCalls + [Reset])
  {
    if t.tracking then t else t.(tracking := true, filterCalls := t.filterCalls + [Reset])
  }

  /** `stopTracking`: nothing while not tracking; otherwise tracking ends. */
  function StopTracking(t: Tracker): (r: Tracker)
    ensures !r.tracking
    ensures !t.tracking ==> r == t
    ensures t.tracking ==> r == t.(tracking := false)
  {
    if !t.tracking then t else t.(tracking := false)
  }

  /** Starting twice resets the filter once; a start undone by a stop leaves
      everything but the filter as it was. */
  lemma StartStopGuards(t: Tracker)
    ensures StartTracking(StartTracking(t)) == StartTracking(t)
    ensures StopTracking(StopTracking(t)) == StopTracking(t)
    ensures !t.tracking ==> StopTracking(StartTracking(t)).(filterCalls := t.filterCalls) == t
    ensures |StartTracking(t).filterCalls| <= |t.filterCalls| + 1
  {
  }

  /** How far ahead the head view is predicted: the time since the last
      gyroscope sample plus one frame. */
  function PredictionHorizon(now: int, lastGyroEventTimeNanos: int): (seconds: real)
    ensures now >= lastGyroEventTimeNanos ==> seconds >= FRAME_PREDICTION_SECONDS
    ensures (seconds - FRAME_PREDICTION_SECONDS) * 1000000000.0 == (now - lastGyroEventTimeNanos) as real
  {
    (now - lastGyroEventTimeNanos) as real * NS2S + FRAME_PREDICTION_SECONDS
  }

  /** The horizon grows with the time since the last gyroscope sample. */
  lemma HorizonMonotone(now1: int, now2: int, last: int)
    requires now1 <= now2
    ensures PredictionHorizon(now1, last) <= PredictionHorizon(now2, last)
  {
  }

  /** `getLastHeadView(headView, offset)` as the source writes it. The copy loop
      runs once per element of the caller's array into a sixteen-slot scratch
      array, so a longer array faults on the seventeenth copy; an offset that
      slips past the guard (a negative one, or one whose sum with 16 wraps) is
      refused by `Matrix.multiplyMM`, taken to check its result offset and
      room as Android's does. */
  function GetLastHeadViewAsWritten(t: Tracker, predict: real -> Matrix4, now: int, out: seq<real>, offset: int): (r: Result<seq<real>>)
    requires IsInt32(offset) && |out| <= INT_MAX
    ensures r.Ok? <==> |out| == 16 && offset == 0
    ensures r.Ok? ==> r.value == predict(PredictionHorizon(now, t.lastGyroEventTimeNanos))
  {
    if Wrap32(offset + 16) > |out| then Err(IllegalArgument)
    else if |out| > 16 then Err(IndexOutOfRange)
    else if offset < 0 || offset + 16 > |out| then Err(IllegalArgument)
    else Ok(predict(PredictionHorizon(now, t.lastGyroEventTimeNanos)))
  }

  /** A destination with room for the matrix past offset 16 is refused. */
  lemma AsWrittenHeadViewRejectsRoomyArray(t: Tracker, predict: real -> Matrix4, now: int)
    ensures var out := seq(32, i => 0.0);
      GetLastHeadViewAsWritten(t, predict, now, out, 16) == Err(IndexOutOfRange)
  {
  }

  /** `getLastHeadView` with the copy loop bounded by the scratch array's
      sixteen entries: the predicted view is written at `offset` whenever the
      caller's array has room for it. */
  function GetLastHeadView(t: Tracker, predict: real -> Matrix4, now: int, out: seq<real>, offset: int): (r: Result<seq<real>>)
    requires IsInt32(offset) && |out| <= INT_MAX
    ensures r.Ok? <==> 0 <= offset && offset + 16 <= |out|
    ensures offset + 16 > |out| && IsInt32(offset + 16) ==> r == Err(IllegalArgument)
    ensures r.Ok? ==> WritesAt(out, offset, predict(PredictionHorizon(now, t.lastGyroEventTimeNanos)), r.value)
  {
    var m := predict(PredictionHorizon(now, t.lastGyroEventTimeNanos));
    if Wrap32(offset + 16) > |out| then Err(IllegalArgument)
    else if offset < 0 || offset + 16 > |out| then Err(IllegalArgument)
    else Ok(out[..offset] + m + out[offset + 16..])
  }

  /** Where the source succeeds the corrected read agrees with it. */
  lemma HeadViewReadsAgree(t: Tracker, predict: real -> Matrix4, now: int, out: seq<real>, offset: int)
    requires IsInt32(offset) && |out| <= INT_MAX
    requires GetLastHeadViewAsWritten(t, predict, now, out, offset).Ok?
    ensures GetLastHeadView(t, predict, now, out, offset) == GetLastHeadViewAsWritten(t, predict, now, out, offset)
  {
    assert out[..0] + predict(PredictionHorizon(now, t.lastGyroEventTimeNanos)) + out[16..]
      == predict(PredictionHorizon(now, t.lastGyroEventTimeNanos));
  }
}
