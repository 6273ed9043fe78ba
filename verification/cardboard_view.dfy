/** CardboardView.cs on the UI thread: the view's own copy of the display and
    rendering settings, the setters that change it and queue the same change
    for the renderer helper, and the lifecycle calls. The GL thread's event
    queue is the FIFO `queue`, run in order by `RunQueue`; the latch that
    `OnDetachedFromWindow` waits on is represented by running the queue up to
    and including the shutdown. */
module CardboardViews {
  import opened Common
  import opened DistortionRendering
  import opened RenderHelper
  import Screen
  import Device
  import HeadPose
  import HeadTracking

  const DEFAULT_Z_NEAR: real := 0.1
  const DEFAULT_Z_FAR: real := 100.0

  /** The renderer handed to `SetRenderer`: none, a plain renderer, or a stereo
      renderer (wrapped in a stereo helper). */
  datatype RendererKind = NoRenderer | PlainRenderer | StereoRenderer

  /** The view: its settings, whether the GL surface has been given its
      renderer, the helper (none for a null renderer), the GL thread's queue,
      whether a device-parameters observer is set and the parameters it was
      told about, and the head tracker. */
  datatype View = View(
    settings: Settings,
    rendererSet: bool,
    helper: Option<Helper>,
    queue: seq<Command>,
    hasObserver: bool,
    observed: seq<Device.DeviceParams>,
    tracker: HeadTracking.Tracker)

  /** `new CardboardView(context)`: a display built from the default display's
      metrics with a default viewer (HeadMountedDisplay.cs is not part of this
      model; its display constructor is taken to do exactly that), VR mode and
      distortion correction on at scale 1, the default clipping planes, and a
      new head tracker. */
  function NewView(d: Screen.DisplayMetrics): (v: View)
    ensures v.settings.hmd.screen == Screen.FromDisplay(d) && v.settings.hmd.cardboard == Device.NewDeviceParams()
    ensures v.settings.vrMode && v.settings.distortionCorrectionEnabled && v.settings.distortionCorrectionScale == 1.0
    ensures v.settings.zNear == 0.1 && v.settings.zFar == 100.0
    ensures !v.rendererSet && v.helper.None? && v.queue == [] && !v.hasObserver && v.observed == []
    ensures v.tracker == HeadTracking.NewTracker
  {
    var hmd := HeadMountedDisplay(Screen.FromDisplay(d), Device.NewDeviceParams());
    View(Settings(hmd, true, true, 1.0, DEFAULT_Z_NEAR, DEFAULT_Z_FAR), false, None, [], false, [], HeadTracking.NewTracker)
  }

  /** The view is consistent with its helper: a helper exists only once a
      renderer was set; without a helper nothing is queued; with one, the
      helper keeps its invariants and, once the queue has run, holds exactly
      the view's settings. */
  predicate Consistent(v: View)
  {
    && (!v.rendererSet ==> v.helper.None?)
    && (v.helper.None? ==> v.queue == [])
    && (v.helper.Some? ==> Good(v.helper.value) && FoldSettings(SettingsOf(v.helper.value), v.queue) == v.settings)
  }

  lemma NewViewIsConsistent(d: Screen.DisplayMetrics)
    ensures Consistent(NewView(d))
  {
  }

  /** `SetRenderer(renderer)`. The GL surface accepts a renderer once, so a
      second call is the caller's error. A null renderer leaves no helper;
      otherwise a helper is built from the view's current settings (wrapped
      for a stereo renderer), whose compositor starts at scale 1 whatever the
      view's scale. */
  function SetRenderer(n: Numerics, v: View, renderer: RendererKind): (r: View)
    requires !v.rendererSet
    ensures r.rendererSet && r.queue == v.queue && r.settings == v.settings
    ensures r.helper.None? <==> renderer == NoRenderer
    ensures r.helper.Some? ==> SettingsOf(r.helper.value) == v.settings && r.helper.value.projectionChanged
    ensures r.helper.Some? ==> (r.helper.value.stereoVrMode.Some? <==> renderer == StereoRenderer)
    ensures r.helper.Some? ==> r.helper.value.compositor.resolutionScale == 1.0
  {
    var helper := if renderer == NoRenderer then None else Some(NewHelperAsWritten(n, v.settings, renderer == StereoRenderer));
    v.(rendererSet := true, helper := helper)
  }

  lemma SetRendererKeepsConsistent(n: Numerics, v: View, renderer: RendererKind)
    requires !v.rendererSet && Consistent(v)
    ensures Consistent(SetRenderer(n, v, renderer))
  {
    if renderer != NoRenderer {
      NewHelperIsGood(n, v.settings, renderer == StereoRenderer);
    }
  }

  /** A helper built while the view's scale is not 1 samples the render
      texture at the wrong scale, until the next scale change reaches the GL
      thread: that change brings the two scales together. */
  lemma {:induction false} RescaleAfterSetRendererAgrees(n: Numerics, v: View, renderer: RendererKind, scale: real)
    requires !v.rendererSet && Consistent(v) && renderer != NoRenderer
    ensures var w := SetRenderer(n, v, renderer);
      && (ScaleAgrees(w.helper.value) <==> v.settings.distortionCorrectionScale == 1.0)
      && ScaleAgrees(RunQueue(SetDistortionCorrectionScale(w, scale)).view.helper.value)
  {
    var w := SetRenderer(n, v, renderer);
    var c := RenderHelper.SetDistortionCorrectionScale(scale);
    assert SetDistortionCorrectionScale(w, scale).queue == [c];
    ApplyKeepsScaleAgreement(w.helper.value, c);
    assert Drain(w.helper.value, [c]).helper == Apply(w.helper.value, c).helper;
  }

  /** A change made to the view's settings and, when there is a helper, queued
      for it. */
  function Change(v: View, c: Command): (r: View)
    ensures r.settings == UpdateSettings(v.settings, c)
    ensures v.helper.Some? ==> r.queue == v.queue + [c]
    ensures v.helper.None? ==> r.queue == v.queue
    ensures r.(settings := v.settings, queue := v.queue) == v
  {
    v.(settings := UpdateSettings(v.settings, c), queue := if v.helper.Some? then v.queue + [c] else v.queue)
  }

  /** Every change keeps the view consistent with its helper. */
  lemma ChangeKeepsConsistent(v: View, c: Command)
    requires Consistent(v)
    ensures Consistent(Change(v, c))
  {
    if v.helper.Some? {
      FoldSettingsSnoc(SettingsOf(v.helper.value), v.queue, c);
    }
  }

  /** `SetVRModeEnabled`. */
  function SetVRModeEnabled(v: View, enabled: bool): (r: View)
    ensures r.settings.vrMode == enabled
    ensures r == Change(v, SetVrMode(enabled))
  {
    Change(v, SetVrMode(enabled))
  }

  /** `SetAlignedToNorth`: forwarded to the head tracker. */
  function SetAlignedToNorth(v: View, flag: bool): (r: View)
    ensures r.tracker.alignedToNorth == flag && r.(tracker := v.tracker) == v
  {
    v.(tracker := HeadTracking.SetAlignedToNorth(v.tracker, flag))
  }

  /** `SetCardboardDeviceParamsObserver`. */
  function SetObserver(v: View, present: bool): (r: View)
    ensures r.hasObserver == present && r.(hasObserver := v.hasObserver) == v
  {
    v.(hasObserver := present)
  }

  /** `UpdateCardboardDeviceParams(params)`: nothing for null parameters or
      parameters `equals` to the current ones; otherwise the observer is told,
      the view takes them, and a copy is queued for the helper. */
  function UpdateCardboardDeviceParams(v: View, p: Option<Device.DeviceParams>): (r: View)
    ensures p.None? || Device.Equals(p.value, Instance(v.settings.hmd.cardboard)) ==> r == v
    ensures p.Some? && !Device.Equals(p.value, Instance(v.settings.hmd.cardboard)) ==>
      (&& r.settings.hmd.cardboard == p.value
       && r.observed == (if v.hasObserver then v.observed + [p.value] else v.observed)
       && r == Change(v.(observed := r.observed), SetCardboard(p.value)))
  {
    if p.None? || Device.Equals(p.value, Instance(v.settings.hmd.cardboard)) then v
    else
      var observed := if v.hasObserver then v.observed + [p.value] else v.observed;
      Change(v.(observed := observed), SetCardboard(Device.Copy(p.value)))
  }

  /** Passing the same parameters twice acts once. */
  lemma UpdateCardboardIsIdempotent(v: View, p: Option<Device.DeviceParams>)
    ensures UpdateCardboardDeviceParams(UpdateCardboardDeviceParams(v, p), p) == UpdateCardboardDeviceParams(v, p)
  {
    if p.Some? {
      Device.EqualsIgnoresOnlyTagContents(p.value, p.value);
    }
  }

  /** `UpdateScreenParams(params)`: nothing for null parameters or parameters
      `equals` to the current ones; otherwise the view takes them and a copy is
      queued for the helper. */
  function UpdateScreenParams(v: View, s: Option<Screen.ScreenParams>): (r: View)
    ensures s.None? || Screen.Equals(s.value, Instance(v.settings.hmd.screen)) ==> r == v
    ensures s.Some? && !Screen.Equals(s.value, Instance(v.settings.hmd.screen)) ==>
      r.settings.hmd.screen == s.value && r == Change(v, SetScreen(s.value))
  {
    if s.None? || Screen.Equals(s.value, Instance(v.settings.hmd.screen)) then v
    else
      var copy := Screen.Copy(s.value);
      Screen.EqualsIsValueEquality(s.value, copy);
      Change(v, SetScreen(copy))
  }

  lemma UpdateScreenIsIdempotent(v: View, s: Option<Screen.ScreenParams>)
    ensures UpdateScreenParams(UpdateScreenParams(v, s), s) == UpdateScreenParams(v, s)
  {
    if s.Some? {
      Screen.EqualsIsValueEquality(s.value, s.value);
    }
  }

  /** `SetInterpupillaryDistance`. */
  function SetInterpupillaryDistance(v: View, d: real): (r: View)
    ensures r.settings.hmd.cardboard.interpupillaryDistance == d
    ensures r == Change(v, RenderHelper.SetInterpupillaryDistance(d))
  {
    Change(v, RenderHelper.SetInterpupillaryDistance(d))
  }

  /** `SetFovY`. */
  function SetFovY(v: View, fovY: real): (r: View)
    ensures r.settings.hmd.cardboard.fovY == fovY
    ensures r == Change(v, SetFov(fovY))
  {
    Change(v, SetFov(fovY))
  }

  /** `SetZPlanes`. */
  function SetZPlanes(v: View, zNear: real, zFar: real): (r: View)
    ensures r.settings.zNear == zNear && r.settings.zFar == zFar
    ensures r == Change(v, RenderHelper.SetZPlanes(zNear, zFar))
  {
    Change(v, RenderHelper.SetZPlanes(zNear, zFar))
  }

  /** `SetDistortionCorrectionEnabled`. */
  function SetDistortionCorrectionEnabled(v: View, enabled: bool): (r: View)
    ensures r.settings.distortionCorrectionEnabled == enabled
    ensures r == Change(v, RenderHelper.SetDistortionCorrectionEnabled(enabled))
  {
    Change(v, RenderHelper.SetDistortionCorrectionEnabled(enabled))
  }

  /** `SetDistortionCorrectionScale`. */
  function SetDistortionCorrectionScale(v: View, scale: real): (r: View)
    ensures r.settings.distortionCorrectionScale == scale
    ensures r == Change(v, RenderHelper.SetDistortionCorrectionScale(scale))
  {
    Change(v, RenderHelper.SetDistortionCorrectionScale(scale))
  }

  /** The mode and device setters keep the view consistent with its helper. */
  lemma SettersKeepConsistent(v: View, e: bool, p: Option<Device.DeviceParams>, s: Option<Screen.ScreenParams>)
    requires Consistent(v)
    ensures Consistent(SetVRModeEnabled(v, e))
    ensures Consistent(UpdateCardboardDeviceParams(v, p))
    ensures Consistent(UpdateScreenParams(v, s))
  {
    ChangeKeepsConsistent(v, SetVrMode(e));
    if p.Some? {
      ChangeKeepsConsistent(v.(observed := v.observed + [p.value]), SetCardboard(p.value));
      ChangeKeepsConsistent(v, SetCardboard(p.value));
    }
    if s.Some? {
      ChangeKeepsConsistent(v, SetScreen(s.value));
    }
  }

  /** The rendering parameter setters keep the view consistent with its helper. */
  lemma ParameterSettersKeepConsistent(v: View, e: bool, x: real, y: real)
    requires Consistent(v)
    ensures Consistent(SetInterpupillaryDistance(v, x))
    ensures Consistent(SetFovY(v, x))
    ensures Consistent(SetZPlanes(v, x, y))
    ensures Consistent(SetDistortionCorrectionEnabled(v, e))
    ensures Consistent(SetDistortionCorrectionScale(v, x))
  {
    ChangeKeepsConsistent(v, RenderHelper.SetInterpupillaryDistance(x));
    ChangeKeepsConsistent(v, SetFov(x));
    ChangeKeepsConsistent(v, RenderHelper.SetZPlanes(x, y));
    ChangeKeepsConsistent(v, RenderHelper.SetDistortionCorrectionEnabled(e));
    ChangeKeepsConsistent(v, RenderHelper.SetDistortionCorrectionScale(x));
  }

  /** `OnResume`: without a helper nothing happens; otherwise tracking starts. */
  function OnResume(v: View): (r: View)
    ensures v.helper.None? ==> r == v
    ensures v.helper.Some? ==> r == v.(tracker := HeadTracking.StartTracking(v.tracker)) && r.tracker.tracking
  {
    if v.helper.None? then v else v.(tracker := HeadTracking.StartTracking(v.tracker))
  }

  /** `OnPause`: without a helper nothing happens; otherwise tracking stops. */
  function OnPause(v: View): (r: View)
    ensures v.helper.None? ==> r == v
    ensures v.helper.Some? ==> r == v.(tracker := HeadTracking.StopTracking(v.tracker)) && !r.tracker.tracking
  {
    if v.helper.None? then v else v.(tracker := HeadTracking.StopTracking(v.tracker))
  }

  /** The view and the calls the renderer received. */
  datatype ViewStep = ViewStep(view: View, calls: seq<RendererCall>)

  /** The GL thread runs every queued change, in order. */
  function RunQueue(v: View): (r: ViewStep)
    ensures r.view.queue == [] && r.view.settings == v.settings
    ensures v.helper.None? ==> r == ViewStep(v.(queue := []), [])
    ensures v.helper.Some? ==> r.view.helper == Some(Drain(v.helper.value, v.queue).helper)
  {
    match v.helper
    case None => ViewStep(v.(queue := []), [])
    case Some(h) =>
      var s := Drain(h, v.queue);
      ViewStep(v.(helper := Some(s.helper), queue := []), s.calls)
  }

  /** Once the queue has run, a consistent view's helper holds the view's
      settings, and its next frame fails exactly when a pending monocular
      projection divides by a screen height of 0. */
  lemma RunQueueSyncsHelper(n: Numerics, v: View, predict: real -> HeadPose.Matrix4, now: int,
                            gl: GlState, drawn: GlState, framebuffer: int)
    requires Consistent(v) && v.helper.Some?
    ensures var w := RunQueue(v).view;
      && Consistent(w)
      && SettingsOf(w.helper.value) == v.settings
      && var h := w.helper.value;
         (OnDrawFrame(n, h, v.tracker, predict, now, gl, drawn, framebuffer).Err? <==>
          !h.shuttingDown && !h.invalidSurfaceSize && h.projectionChanged
          && !v.settings.vrMode && v.settings.hmd.screen.height == 0)
  {
    DrainFollowsSettings(v.helper.value, v.queue);
    var w := RunQueue(v).view;
    FrameKeepsGood(n, w.helper.value, v.tracker, predict, now, gl, drawn, framebuffer);
  }

  /** `OnDetachedFromWindow`: with a helper, a shutdown is queued and the view
      waits until the GL thread has run it. */
  function OnDetachedFromWindow(v: View): (r: ViewStep)
    ensures v.helper.None? ==> r == ViewStep(v, [])
    ensures v.helper.Some? ==> r == RunQueue(Change(v, Shutdown))
  {
    if v.helper.None? then ViewStep(v, []) else RunQueue(Change(v, Shutdown))
  }

  /** After detaching, the helper is shutting down, the renderer's last call
      was the shutdown, and from then on frames, surface changes and surface
      creations do nothing, whatever is queued later. */
  lemma DetachSilencesRenderer(n: Numerics, v: View, later: seq<Command>, t: HeadTracking.Tracker,
                               predict: real -> HeadPose.Matrix4, now: int, gl: GlState, drawn: GlState,
                               framebuffer: int, width: int, height: int)
    requires v.helper.Some?
    ensures var r := OnDetachedFromWindow(v);
      && r.view.helper.Some? && r.view.helper.value.shuttingDown
      && |r.calls| > 0 && r.calls[|r.calls| - 1] == RendererShutdown
    ensures var h := Drain(OnDetachedFromWindow(v).view.helper.value, later).helper;
      && h.shuttingDown
      && OnDrawFrame(n, h, t, predict, now, gl, drawn, framebuffer) == Ok(Frame(h, gl, [], []))
      && OnSurfaceChanged(h, width, height) == Step(h, [])
      && OnSurfaceCreated(h).calls == []
  {
    var h := v.helper.value;
    DrainAppend(h, v.queue, [Shutdown]);
    var x := Drain(h, v.queue);
    assert Drain(x.helper, [Shutdown]) == Step(x.helper.(shuttingDown := true), [RendererShutdown]);
    DrainFollowsSettings(OnDetachedFromWindow(v).view.helper.value, later);
  }
}
