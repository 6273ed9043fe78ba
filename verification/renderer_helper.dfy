/** The renderer helpers of CardboardView.cs. `RendererHelper` is the GL-thread
    half of the view: it keeps its own copy of the display and the rendering
    settings, applies the changes the view queues for it, turns the tracker's
    head view into per-eye views, recomputes the projections when a setting
    changed, and drives the application's renderer and the distortion
    compositor once per frame. `StereoRendererHelper` splits each of its calls
    into the per-eye calls of a stereo renderer. Calls into the application are
    recorded, in order, as values. */
module RenderHelper {
  import opened Common
  import opened Viewports
  import opened Eyes
  import opened HeadPose
  import opened DistortionRendering
  import Screen
  import Device
  import HeadTracking

  /** A call the helper makes into the application's renderer. */
  datatype RendererCall =
    | DrawFrame(head: HeadTransform, first: EyeParams, second: Option<EyeParams>)
    | FinishFrame(viewport: Viewport)
    | SurfaceChanged(width: int, height: int)
    | SurfaceCreated
    | RendererShutdown

  /** The settings the view hands to its helper: the display and the five
      rendering switches. */
  datatype Settings = Settings(
    hmd: HeadMountedDisplay,
    vrMode: bool,
    distortionCorrectionEnabled: bool,
    distortionCorrectionScale: real,
    zNear: real,
    zFar: real)

  /** The helper's state. `stereoVrMode` is the VR flag of the stereo helper
      wrapped around a stereo renderer (none for a plain renderer); the
      compositor is the view's distortion renderer, which every new helper
      replaces. */
  datatype Helper = Helper(
    hmd: HeadMountedDisplay,
    head: HeadTransform,
    monocular: EyeParams,
    left: EyeParams,
    right: EyeParams,
    stereoVrMode: Option<bool>,
    shuttingDown: bool,
    vrMode: bool,
    distortionCorrectionEnabled: bool,
    distortionCorrectionScale: real,
    zNear: real,
    zFar: real,
    projectionChanged: bool,
    invalidSurfaceSize: bool,
    compositor: Compositor)

  function SettingsOf(h: Helper): Settings
  {
    Settings(h.hmd, h.vrMode, h.distortionCorrectionEnabled, h.distortionCorrectionScale, h.zNear, h.zFar)
  }

  /** The two eyes' fields of view. */
  datatype EyeFovs = EyeFovs(left: FieldOfView, right: FieldOfView)

  /** The half-angle the lens itself admits. */
  function IdealFovAngle(n: Numerics, cdp: Device.DeviceParams): real
  {
    n.atan2Deg(cdp.lensDiameter / 2.0, cdp.eyeToLensDistance)
  }

  /** The angle under which the eye sees, through the lens, a screen point
      `d` metres from the lens axis. */
  function LensAngle(n: Numerics, cdp: Device.DeviceParams, d: real): real
  {
    n.atan2Deg(n.distort(cdp.distortion, d), EyeToScreenDistance(cdp))
  }

  /** The four distances from the left lens axis to the screen edges: outer,
      inner, bottom and top. */
  function OuterDistance(hmd: HeadMountedDisplay): real
  {
    (Screen.WidthMeters(hmd.screen) - hmd.cardboard.interpupillaryDistance) / 2.0
  }

  function InnerDistance(hmd: HeadMountedDisplay): real
  {
    hmd.cardboard.interpupillaryDistance / 2.0
  }

  function BottomDistance(hmd: HeadMountedDisplay): real
  {
    hmd.cardboard.verticalDistanceToLensCenter - hmd.screen.borderSizeMeters
  }

  function TopDistance(hmd: HeadMountedDisplay): real
  {
    Screen.HeightMeters(hmd.screen) + hmd.screen.borderSizeMeters - hmd.cardboard.verticalDistanceToLensCenter
  }

  /** `UpdateFieldOfView`: every side of each eye's field of view is the angle
      the lens shows of the screen edge on that side, capped by the lens's own
      half-angle; the right eye is the left eye mirrored, its outer side on the
      right. */
  function UpdateFieldOfView(n: Numerics, hmd: HeadMountedDisplay): (r: EyeFovs)
    ensures r.right == FieldOfView(r.left.right, r.left.left, r.left.bottom, r.left.top)
    ensures var ideal := IdealFovAngle(n, hmd.cardboard);
      r.left.left <= ideal && r.left.right <= ideal && r.left.bottom <= ideal && r.left.top <= ideal
    ensures var ideal := IdealFovAngle(n, hmd.cardboard);
      && r.left.left in {ideal, LensAngle(n, hmd.cardboard, OuterDistance(hmd))}
      && r.left.right in {ideal, LensAngle(n, hmd.cardboard, InnerDistance(hmd))}
      && r.left.bottom in {ideal, LensAngle(n, hmd.cardboard, BottomDistance(hmd))}
      && r.left.top in {ideal, LensAngle(n, hmd.cardboard, TopDistance(hmd))}
  {
    var cdp := hmd.cardboard;
    var ideal := IdealFovAngle(n, cdp);
    var outer := MinR(LensAngle(n, cdp, OuterDistance(hmd)), ideal);
    var inner := MinR(LensAngle(n, cdp, InnerDistance(hmd)), ideal);
    var bottom := MinR(LensAngle(n, cdp, BottomDistance(hmd)), ideal);
    var top := MinR(LensAngle(n, cdp, TopDistance(hmd)), ideal);
    EyeFovs(FieldOfView(outer, inner, bottom, top), FieldOfView(inner, outer, bottom, top))
  }

  /** The eye-to-screen distance at which the visible viewport fills the
      viewer's vertical field of view. */
  function UndistortedEyeToScreen(n: Numerics, cdp: Device.DeviceParams): real
  {
    FDiv(cdp.visibleViewportSize / 2.0, n.tanDeg(cdp.fovY / 2.0))
  }

  /** The fields of view without distortion correction: the angles of the
      screen edges seen straight from that distance, the right eye mirroring
      the left. */
  function UndistortedFovs(n: Numerics, hmd: HeadMountedDisplay): (r: EyeFovs)
    ensures r.right == FieldOfView(r.left.right, r.left.left, r.left.bottom, r.left.top)
    ensures var d := UndistortedEyeToScreen(n, hmd.cardboard);
      && r.left.left == n.atan2Deg(Screen.WidthMeters(hmd.screen) / 2.0 - InnerDistance(hmd), d)
      && r.left.right == n.atan2Deg(InnerDistance(hmd), d)
  {
    var d := UndistortedEyeToScreen(n, hmd.cardboard);
    var halfIpd := hmd.cardboard.interpupillaryDistance * 0.5;
    var left := FieldOfView(
      n.atan2Deg(Screen.WidthMeters(hmd.screen) / 2.0 - halfIpd, d),
      n.atan2Deg(halfIpd, d),
      n.atan2Deg(BottomDistance(hmd), d),
      n.atan2Deg(hmd.screen.borderSizeMeters + Screen.HeightMeters(hmd.screen) - hmd.cardboard.verticalDistanceToLensCenter, d));
    EyeFovs(left, FieldOfView(left.right, left.left, left.bottom, left.top))
  }

  /** The monocular aspect ratio as the source computes it: the pixel width and
      height are C# ints, so the quotient is an integer division (and a zero
      height throws). */
  function MonoAspectAsWritten(width: int, height: int): (r: Result<Aspect>)
    ensures r.Err? <==> height == 0
    ensures r.Ok? ==> r.value.Finite? && r.value.ratio.Floor as real == r.value.ratio
  {
    if height == 0 then Err(DivideByZero) else Ok(Finite(CsDiv(width, height) as real))
  }

  /** The aspect ratio as a float quotient: a zero height gives the IEEE
      non-finite value. */
  function MonoAspect(width: int, height: int): (r: Aspect)
    ensures r.NonFinite? <==> height == 0
    ensures r.Finite? ==> r.ratio * height as real == width as real
  {
    if height == 0 then NonFinite else Finite(width as real / height as real)
  }

  /** A 1920 x 1080 screen is given aspect 1 instead of 16/9. */
  lemma AsWrittenAspectTruncates()
    ensures MonoAspectAsWritten(1920, 1080) == Ok(Finite(1.0))
    ensures MonoAspect(1920, 1080) == Finite(16.0 / 9.0)
  {
  }

  /** `new RendererHelper(view, renderer)` as the source writes it: copies of
      the view's display and settings, fresh head transform and eyes, the
      eyes' fields of view computed, and a new compositor at its default
      resolution scale 1, whatever scale the view had. */
  function NewHelperAsWritten(n: Numerics, s: Settings, stereo: bool): (h: Helper)
    ensures SettingsOf(h) == s && h.projectionChanged && !h.shuttingDown && !h.invalidSurfaceSize
    ensures h.compositor == NewCompositor
  {
    var fovs := UpdateFieldOfView(n, s.hmd);
    Helper(s.hmd, NewHeadTransform(),
      NewEyeParams(MONOCULAR), NewEyeParams(LEFT).(fov := fovs.left), NewEyeParams(RIGHT).(fov := fovs.right),
      if stereo then Some(s.vrMode) else None,
      false, s.vrMode, s.distortionCorrectionEnabled, s.distortionCorrectionScale, s.zNear, s.zFar,
      true, false, NewCompositor)
  }

  /** The compositor samples the render texture at the scale the eyes are
      drawn into it. */
  predicate ScaleAgrees(h: Helper)
  {
    h.compositor.resolutionScale == h.distortionCorrectionScale
  }

  /** A helper with a view scale of one half and a compositor at scale 1. */
  lemma AsWrittenHelperMisscales(n: Numerics, s: Settings, stereo: bool)
    requires s.distortionCorrectionScale == 0.5
    ensures !ScaleAgrees(NewHelperAsWritten(n, s, stereo))
  {
  }

  /** The constructor with the compositor given the view's scale. */
  function NewHelper(n: Numerics, s: Settings, stereo: bool): (h: Helper)
    ensures SettingsOf(h) == s && h.projectionChanged && !h.shuttingDown && !h.invalidSurfaceSize
    ensures h.compositor.projection.None? && h.compositor.resolutionScale == s.distortionCorrectionScale
    ensures stereo <==> h.stereoVrMode.Some?
  {
    NewHelperAsWritten(n, s, stereo).(compositor := SetResolutionScale(NewCompositor, s.distortionCorrectionScale))
  }

  /** In VR mode with distortion correction and no pending projection change,
      the compositor has a projection to draw with. */
  predicate CompositorReady(h: Helper)
  {
    h.vrMode && h.distortionCorrectionEnabled && !h.projectionChanged ==> h.compositor.projection.Some?
  }

  /** The stereo helper's VR flag follows the helper's. */
  predicate StereoAgrees(h: Helper)
  {
    h.stereoVrMode.Some? ==> h.stereoVrMode.value == h.vrMode
  }

  /** The invariants every reachable helper keeps. The scale agreement is not
      one of them: the constructor as written breaks it. */
  predicate Good(h: Helper)
  {
    CompositorReady(h) && StereoAgrees(h)
  }

  /** Both constructors give a good helper; only the corrected one also gives
      the compositor the view's scale. */
  lemma NewHelperIsGood(n: Numerics, s: Settings, stereo: bool)
    ensures Good(NewHelperAsWritten(n, s, stereo))
    ensures Good(NewHelper(n, s, stereo)) && ScaleAgrees(NewHelper(n, s, stereo))
  {
  }

  /** A helper after a call, with the calls it made into the renderer. */
  datatype Step = Step(helper: Helper, calls: seq<RendererCall>)

  /** `onSurfaceChanged(gl, width, height)`: nothing while shutting down;
      otherwise rendering is disabled exactly when the surface does not have
      the screen's size, and the renderer hears of the new size. */
  function OnSurfaceChanged(h: Helper, width: int, height: int): (r: Step)
    ensures h.shuttingDown ==> r == Step(h, [])
    ensures !h.shuttingDown ==> r.calls == [SurfaceChanged(width, height)]
    ensures !h.shuttingDown ==>
      (r.helper.invalidSurfaceSize <==> width != h.hmd.screen.width || height != h.hmd.screen.height)
    ensures r.helper.(invalidSurfaceSize := h.invalidSurfaceSize) == h
  {
    if h.shuttingDown then Step(h, [])
    else
      var invalid := width != h.hmd.screen.width || height != h.hmd.screen.height;
      Step(h.(invalidSurfaceSize := invalid), [SurfaceChanged(width, height)])
  }

  /** `onSurfaceCreated`: forwarded unless shutting down. */
  function OnSurfaceCreated(h: Helper): (r: Step)
    ensures r.helper == h
    ensures r.calls == [] <==> h.shuttingDown
  {
    if h.shuttingDown then Step(h, []) else Step(h, [SurfaceCreated])
  }

  /** A change the view queues for the GL thread. */
  datatype Command =
    | SetCardboard(cardboard: Device.DeviceParams)
    | SetScreen(screen: Screen.ScreenParams)
    | SetInterpupillaryDistance(distance: real)
    | SetFov(fovY: real)
    | SetZPlanes(zNear: real, zFar: real)
    | SetDistortionCorrectionEnabled(enabled: bool)
    | SetDistortionCorrectionScale(scale: real)
    | SetVrMode(enabled: bool)
    | Shutdown

  /** What a command means for the settings: the view makes the same change to
      its own copy when it queues the command. */
  function UpdateSettings(s: Settings, c: Command): Settings
  {
    match c
    case SetCardboard(p) => s.(hmd := s.hmd.(cardboard := p))
    case SetScreen(screen) => s.(hmd := s.hmd.(screen := screen))
    case SetInterpupillaryDistance(d) => s.(hmd := s.hmd.(cardboard := Device.SetInterpupillaryDistance(s.hmd.cardboard, d)))
    case SetFov(f) => s.(hmd := s.hmd.(cardboard := Device.SetFovY(s.hmd.cardboard, f)))
    case SetZPlanes(zNear, zFar) => s.(zNear := zNear, zFar := zFar)
    case SetDistortionCorrectionEnabled(e) => s.(distortionCorrectionEnabled := e)
    case SetDistortionCorrectionScale(scale) => s.(distortionCorrectionScale := scale)
    case SetVrMode(e) => s.(vrMode := e)
    case Shutdown => s
  }

  /** A queued command run on the GL thread. Every change that alters the
      picture marks the projection as changed; the resolution scale goes
      straight to the compositor; switching the VR mode (and only switching
      it) also tells the stereo helper and re-announces the screen size;
      shutting down tells the renderer. */
  function Apply(h: Helper, c: Command): (r: Step)
    ensures SettingsOf(r.helper) == UpdateSettings(SettingsOf(h), c)
    ensures r.helper.shuttingDown <==> h.shuttingDown || c == Shutdown
    ensures c.SetDistortionCorrectionScale? ==> r.helper.compositor == SetResolutionScale(h.compositor, c.scale)
    ensures !c.SetDistortionCorrectionScale? ==> r.helper.compositor == h.compositor
    ensures (c.SetVrMode? && c.enabled == h.vrMode) || c.Shutdown? || c.SetDistortionCorrectionScale?
      || r.helper.projectionChanged
    ensures c.SetVrMode? && c.enabled == h.vrMode ==> r == Step(h, [])
  {
    match c
    case SetCardboard(p) => Step(h.(hmd := h.hmd.(cardboard := p), projectionChanged := true), [])
    case SetScreen(screen) => Step(h.(hmd := h.hmd.(screen := screen), projectionChanged := true), [])
    case SetInterpupillaryDistance(d) =>
      Step(h.(hmd := h.hmd.(cardboard := Device.SetInterpupillaryDistance(h.hmd.cardboard, d)), projectionChanged := true), [])
    case SetFov(f) =>
      Step(h.(hmd := h.hmd.(cardboard := Device.SetFovY(h.hmd.cardboard, f)), projectionChanged := true), [])
    case SetZPlanes(zNear, zFar) => Step(h.(zNear := zNear, zFar := zFar, projectionChanged := true), [])
    case SetDistortionCorrectionEnabled(e) => Step(h.(distortionCorrectionEnabled := e, projectionChanged := true), [])
    case SetDistortionCorrectionScale(scale) =>
      Step(h.(distortionCorrectionScale := scale, compositor := SetResolutionScale(h.compositor, scale)), [])
    case SetVrMode(e) =>
      if h.vrMode == e then Step(h, [])
      else
        var h1 := h.(vrMode := e, stereoVrMode := if h.stereoVrMode.Some? then Some(e) else None, projectionChanged := true);
        OnSurfaceChanged(h1, h1.hmd.screen.width, h1.hmd.screen.height)
    case Shutdown => Step(h.(shuttingDown := true), [RendererShutdown])
  }

  /** Every command keeps the helper's invariants. */
  lemma ApplyKeepsGood(h: Helper, c: Command)
    requires Good(h)
    ensures Good(Apply(h, c).helper)
  {
  }

  /** The scale commands are the only ones that touch either scale: an
      agreement is kept by every command, and a scale command restores it. */
  lemma ApplyKeepsScaleAgreement(h: Helper, c: Command)
    ensures ScaleAgrees(h) || c.SetDistortionCorrectionScale? ==> ScaleAgrees(Apply(h, c).helper)
    ensures !c.SetDistortionCorrectionScale? ==>
      Apply(h, c).helper.compositor.resolutionScale == h.compositor.resolutionScale
      && Apply(h, c).helper.distortionCorrectionScale == h.distortionCorrectionScale
  {
  }

  /** Switching the VR mode on a live helper re-enables rendering (the screen
      size is announced as the surface size) and tells the renderer that
      size. */
  lemma VrSwitchRevalidatesSurface(h: Helper, e: bool)
    requires !h.shuttingDown && h.vrMode != e
    ensures var r := Apply(h, SetVrMode(e));
      && r.helper.vrMode == e && r.helper.projectionChanged && !r.helper.invalidSurfaceSize
      && r.calls == [SurfaceChanged(h.hmd.screen.width, h.hmd.screen.height)]
  {
  }

  /** The queue run in order. */
  function Drain(h: Helper, q: seq<Command>): (r: Step)
    decreases |q|
  {
    if q == [] then Step(h, [])
    else
      var first := Apply(h, q[0]);
      var rest := Drain(first.helper, q[1..]);
      Step(rest.helper, first.calls + rest.calls)
  }

  /** Running two queues one after the other is running their concatenation. */
  lemma {:induction false} DrainAppend(h: Helper, a: seq<Command>, b: seq<Command>)
    ensures var x := Drain(h, a);
      var y := Drain(x.helper, b);
      Drain(h, a + b) == Step(y.helper, x.calls + y.calls)
    decreases |a|
  {
    if a == [] {
      assert a + b == b;
    } else {
      var first := Apply(h, a[0]);
      var ab := a + b;
      assert ab[0] == a[0] && ab[1..] == a[1..] + b;
      DrainAppend(first.helper, a[1..], b);
      var x' := Drain(first.helper, a[1..]);
      var y := Drain(x'.helper, b);
      assert first.calls + (x'.calls + y.calls) == (first.calls + x'.calls) + y.calls;
    }
  }

  /** Draining folds the settings changes of the whole queue, keeps the
      invariants and the scale agreement, and never clears the shutdown
      flag. */
  lemma {:induction false} DrainFollowsSettings(h: Helper, q: seq<Command>)
    ensures SettingsOf(Drain(h, q).helper) == FoldSettings(SettingsOf(h), q)
    ensures Good(h) ==> Good(Drain(h, q).helper)
    ensures ScaleAgrees(h) ==> ScaleAgrees(Drain(h, q).helper)
    ensures h.shuttingDown ==> Drain(h, q).helper.shuttingDown
    decreases |q|
  {
    if q != [] {
      if Good(h) { ApplyKeepsGood(h, q[0]); }
      ApplyKeepsScaleAgreement(h, q[0]);
      DrainFollowsSettings(Apply(h, q[0]).helper, q[1..]);
    }
  }

  function FoldSettings(s: Settings, q: seq<Command>): Settings
    decreases |q|
  {
    if q == [] then s else FoldSettings(UpdateSettings(s, q[0]), q[1..])
  }

  /** The settings after a queue with one more command at its end. */
  lemma {:induction false} FoldSettingsSnoc(s: Settings, q: seq<Command>, c: Command)
    ensures FoldSettings(s, q + [c]) == UpdateSettings(FoldSettings(s, q), c)
    decreases |q|
  {
    if q == [] {
      assert q + [c] == [c];
    } else {
      assert (q + [c])[0] == q[0];
      assert (q + [c])[1..] == q[1..] + [c];
      FoldSettingsSnoc(UpdateSettings(s, q[0]), q[1..], c);
    }
  }

  /** The head view the helper reads at the start of a frame: the tracker
      writes its prediction into the helper's sixteen-entry head view at
      offset 0, which always succeeds, also under the source's loop bound. */
  function ReadHeadView(t: HeadTracking.Tracker, predict: real -> Matrix4, now: int): Matrix4
  {
    predict(HeadTracking.PredictionHorizon(now, t.lastGyroEventTimeNanos))
  }

  lemma HeadViewReadSucceeds(t: HeadTracking.Tracker, predict: real -> Matrix4, now: int, current: Matrix4)
    ensures HeadTracking.GetLastHeadView(t, predict, now, current, 0) == Ok(ReadHeadView(t, predict, now))
    ensures HeadTracking.GetLastHeadViewAsWritten(t, predict, now, current, 0) == Ok(ReadHeadView(t, predict, now))
  {
    var m := ReadHeadView(t, predict, now);
    assert current[..0] + m + current[16..] == m;
  }

  /** The eye views of a frame: in VR mode each eye sees the head view shifted
      sideways by half the interpupillary distance (the left eye by +ipd/2, the
      right by -ipd/2); otherwise the single eye sees the head view itself. */
  function UpdateEyeViews(h: Helper, headView: Matrix4): (r: Helper)
    ensures r.head == HeadTransform(headView)
    ensures h.vrMode ==> r.monocular == h.monocular
    ensures h.vrMode ==>
      (&& r.left.transform.eyeView.Translated? && r.right.transform.eyeView.Translated?
       && r.left.transform.eyeView.m == headView && r.right.transform.eyeView.m == headView
       && r.left.transform.eyeView.dx - r.right.transform.eyeView.dx == h.hmd.cardboard.interpupillaryDistance
       && r.left.transform.eyeView.dx + r.right.transform.eyeView.dx == 0.0)
    ensures !h.vrMode ==> r.monocular.transform.eyeView == HeadView(headView)
    ensures !h.vrMode ==> r.left == h.left && r.right == h.right
    ensures r.(head := h.head, monocular := h.monocular, left := h.left, right := h.right) == h
  {
    var halfIpd := h.hmd.cardboard.interpupillaryDistance * 0.5;
    if h.vrMode then
      h.(head := HeadTransform(headView),
         left := h.left.(transform := h.left.transform.(eyeView := Translated(halfIpd, headView))),
         right := h.right.(transform := h.right.transform.(eyeView := Translated(-halfIpd, headView))))
    else
      h.(head := HeadTransform(headView),
         monocular := h.monocular.(transform := h.monocular.transform.(eyeView := HeadView(headView))))
  }

  /** A pending projection change without VR divides the screen's pixel
      width by its pixel height as ints: on a screen of height 0 it throws. */
  predicate MonoAspectFails(h: Helper)
  {
    h.projectionChanged && !h.vrMode && h.hmd.screen.height == 0
  }

  /** The projection block of `onDrawFrame`, run when a setting changed: the
      single eye gets the whole screen; then without VR it gets a symmetric
      perspective with the integer aspect ratio (the division throws on a
      screen of height 0), in VR with distortion correction the fields of
      view are recomputed and handed to the compositor, and in VR without it
      the eyes get the undistorted fields of view and the two halves of the
      screen. */
  function UpdateProjection(n: Numerics, h: Helper, framebuffer: int): (r: Result<Helper>)
    ensures r.Err? <==> MonoAspectFails(h)
    ensures r.Err? ==> r.error == DivideByZero
    ensures !h.projectionChanged ==> r == Ok(h)
    ensures r.Ok? ==>
      && !r.value.projectionChanged
      && (h.projectionChanged ==> r.value.monocular.viewport == Viewport(0, 0, h.hmd.screen.width, h.hmd.screen.height))
      && r.value.hmd == h.hmd && r.value.head == h.head && SettingsOf(r.value) == SettingsOf(h)
      && r.value.shuttingDown == h.shuttingDown && r.value.invalidSurfaceSize == h.invalidSurfaceSize
      && r.value.stereoVrMode == h.stereoVrMode
      && r.value.compositor.resolutionScale == h.compositor.resolutionScale
      && (h.vrMode && h.distortionCorrectionEnabled && h.projectionChanged ==>
            && r.value.compositor.projection.Some? && r.value.compositor.projection.value.hmd == h.hmd
            && r.value.compositor.projection.value.leftFov == UpdateFieldOfView(n, h.hmd).left
            && r.value.compositor.projection.value.rightFov == UpdateFieldOfView(n, h.hmd).right)
      && (!(h.vrMode && h.distortionCorrectionEnabled && h.projectionChanged) ==> r.value.compositor == h.compositor)
      && r.value.left.transform.eyeView == h.left.transform.eyeView
      && r.value.right.transform.eyeView == h.right.transform.eyeView
      && r.value.monocular.transform.eyeView == h.monocular.transform.eyeView
  {
    if !h.projectionChanged then Ok(h)
    else
      var screen := h.hmd.screen;
      var cdp := h.hmd.cardboard;
      var mono := h.monocular.(viewport := SetViewport(h.monocular.viewport, 0, 0, screen.width, screen.height));
      if !h.vrMode then
        match MonoAspectAsWritten(screen.width, screen.height)
        case Err(e) => Err(e)
        case Ok(aspect) =>
          Ok(h.(monocular := mono.(transform := mono.transform.(perspective := Symmetric(cdp.fovY, aspect, h.zNear, h.zFar))),
                projectionChanged := false))
      else if h.distortionCorrectionEnabled then
        var fovs := UpdateFieldOfView(n, h.hmd);
        var pc := OnProjectionChanged(n, h.compositor, h.hmd, h.left.(fov := fovs.left), h.right.(fov := fovs.right),
                                      h.zNear, h.zFar, framebuffer);
        Ok(h.(monocular := mono, left := pc.left, right := pc.right, compositor := pc.compositor, projectionChanged := false))
      else
        var fovs := UndistortedFovs(n, h.hmd);
        var half := CsDiv(screen.width, 2);
        var left := h.left.(fov := fovs.left, viewport := SetViewport(h.left.viewport, 0, 0, half, screen.height),
                            transform := h.left.transform.(perspective := OffAxis(fovs.left, h.zNear, h.zFar)));
        var right := h.right.(fov := fovs.right, viewport := SetViewport(h.right.viewport, half, 0, half, screen.height),
                              transform := h.right.transform.(perspective := OffAxis(fovs.right, h.zNear, h.zFar)));
        Ok(h.(monocular := mono, left := left, right := right, projectionChanged := false))
  }

  /** What a drawn frame leaves: the helper, the GL state, the renderer calls
      and the compositor's mesh passes. */
  datatype Frame = Frame(helper: Helper, gl: GlState, calls: seq<RendererCall>, passes: seq<MeshPass>)

  /** The eye as the renderer sees it during a scaled draw. */
  function ScaledEye(e: EyeParams, scale: real): (r: EyeParams)
    ensures r.(viewport := e.viewport) == e
    ensures scale == 1.0 ==> r == e
  {
    e.(viewport := Scaled(e.viewport, scale))
  }

  /** The drawing half of `onDrawFrame`. Without VR the single eye is drawn;
      in VR without distortion correction both eyes are drawn straight to the
      screen; with it the draw is wrapped in the compositor's
      `beforeDrawFrame` and `afterDrawFrame`, and for a scale other than 1
      the eyes are drawn into their viewports shrunk by the scale, which are
      put back afterwards. The frame ends with the single eye's viewport.
      `drawn` is the GL state the application's drawing leaves. */
  function Draw(h: Helper, gl: GlState, drawn: GlState): (r: Result<Frame>)
    ensures r.Err? <==> h.vrMode && h.distortionCorrectionEnabled && h.compositor.projection.None?
    ensures r.Ok? ==> |r.value.calls| == 2 && r.value.calls[1] == FinishFrame(h.monocular.viewport)
    ensures r.Ok? ==> r.value.helper.(compositor := h.compositor) == h
  {
    var finish := FinishFrame(h.monocular.viewport);
    if !h.vrMode then Ok(Frame(h, drawn.(framebuffer := gl.framebuffer), [DrawFrame(h.head, h.monocular, None), finish], []))
    else if !h.distortionCorrectionEnabled then
      Ok(Frame(h, drawn.(framebuffer := gl.framebuffer), [DrawFrame(h.head, h.left, Some(h.right)), finish], []))
    else
      var (c1, gl1) := BeforeDrawFrame(h.compositor, gl);
      var scale := h.distortionCorrectionScale;
      var draw :=
        if scale == 1.0 then DrawFrame(h.head, h.left, Some(h.right))
        else DrawFrame(h.head, ScaledEye(h.left, scale), Some(ScaledEye(h.right, scale)));
      match AfterDrawFrame(c1, drawn.(framebuffer := gl1.framebuffer))
      case Err(e) => Err(e)
      case Ok(end) => Ok(Frame(h.(compositor := c1), end.gl, [draw, finish], end.passes))
  }

  /** `onDrawFrame(gl)`: nothing while shutting down or while the surface has
      the wrong size; otherwise the head view is read, the eye views and (if
      needed) the projections are updated, and the frame is drawn. A pending
      monocular projection on a screen of height 0 throws before anything is
      drawn. */
  function OnDrawFrame(n: Numerics, h: Helper, t: HeadTracking.Tracker, predict: real -> Matrix4, now: int,
                       gl: GlState, drawn: GlState, framebuffer: int): (r: Result<Frame>)
    ensures h.shuttingDown || h.invalidSurfaceSize ==> r == Ok(Frame(h, gl, [], []))
    ensures !h.shuttingDown && !h.invalidSurfaceSize && MonoAspectFails(h) ==> r == Err(DivideByZero)
    ensures CompositorReady(h) && !MonoAspectFails(h) ==> r.Ok?
    ensures r.Ok? && !h.shuttingDown && !h.invalidSurfaceSize ==>
      && !r.value.helper.projectionChanged
      && |r.value.calls| == 2
      && r.value.calls[0].DrawFrame? && r.value.calls[0].head == HeadTransform(ReadHeadView(t, predict, now))
      && r.value.calls[1] == FinishFrame(r.value.helper.monocular.viewport)
  {
    if h.shuttingDown || h.invalidSurfaceSize then Ok(Frame(h, gl, [], []))
    else
      var h1 := UpdateEyeViews(h, ReadHeadView(t, predict, now));
      match UpdateProjection(n, h1, framebuffer)
      case Err(e) => Err(e)
      case Ok(h2) => Draw(h2, gl, drawn)
  }

  /** From a good helper a frame fails exactly when a pending monocular
      projection divides by a screen height of 0; a drawn frame keeps the
      helper's invariants, so the compositor is ready for the next one. */
  lemma FrameKeepsGood(n: Numerics, h: Helper, t: HeadTracking.Tracker, predict: real -> Matrix4, now: int,
                       gl: GlState, drawn: GlState, framebuffer: int)
    requires Good(h)
    ensures var r := OnDrawFrame(n, h, t, predict, now, gl, drawn, framebuffer);
      && (r.Err? <==> !h.shuttingDown && !h.invalidSurfaceSize && MonoAspectFails(h))
      && (r.Ok? ==> Good(r.value.helper))
  {
  }

  /** What the renderer is asked to draw. Without VR: the single eye, looking
      along the head view. In VR: the left eye then the right one, each looking
      along the head view shifted by half the interpupillary distance, drawn
      into its own viewport scaled by the correction scale when distortion
      correction is on, and put back afterwards. */
  lemma FrameDrawsTheEyes(n: Numerics, h: Helper, t: HeadTracking.Tracker, predict: real -> Matrix4, now: int,
                          gl: GlState, drawn: GlState, framebuffer: int)
    requires !h.shuttingDown && !h.invalidSurfaceSize
    ensures var f := OnDrawFrame(n, h, t, predict, now, gl, drawn, framebuffer);
      f.Ok? ==>
      var r := f.value;
      var head := ReadHeadView(t, predict, now);
      var halfIpd := h.hmd.cardboard.interpupillaryDistance * 0.5;
      var draw := r.calls[0];
      && (!h.vrMode ==> draw.second.None? && draw.first == r.helper.monocular
                        && draw.first.transform.eyeView == HeadView(head))
      && (h.vrMode ==> draw.second.Some?
                       && draw.first.transform.eyeView == Translated(halfIpd, head)
                       && draw.second.value.transform.eyeView == Translated(-halfIpd, head))
      && (h.vrMode && !h.distortionCorrectionEnabled ==> draw.first == r.helper.left && draw.second.value == r.helper.right)
      && (h.vrMode && h.distortionCorrectionEnabled ==>
            && draw.first == ScaledEye(r.helper.left, h.distortionCorrectionScale)
            && draw.second.value == ScaledEye(r.helper.right, h.distortionCorrectionScale))
  {
    var h1 := UpdateEyeViews(h, ReadHeadView(t, predict, now));
    var h2 := UpdateProjection(n, h1, framebuffer);
    assert h2.Ok? ==> h2.value.left.transform.eyeView == h1.left.transform.eyeView;
  }

  /** With distortion correction in VR the compositor samples the render
      texture at its own resolution scale, which is the scale the eyes were
      drawn with exactly when the two scales agree; it draws the left mesh then
      the right one, and gives back the framebuffer that was bound. */
  lemma CompositorSamplesWhatWasDrawn(n: Numerics, h: Helper, t: HeadTracking.Tracker, predict: real -> Matrix4, now: int,
                                      gl: GlState, drawn: GlState, framebuffer: int)
    requires !h.shuttingDown && !h.invalidSurfaceSize
    requires h.vrMode && h.distortionCorrectionEnabled
    ensures var f := OnDrawFrame(n, h, t, predict, now, gl, drawn, framebuffer);
      f.Ok? ==>
      var r := f.value;
      && |r.passes| == 2
      && r.passes[0].textureCoordScale == r.passes[1].textureCoordScale == h.compositor.resolutionScale
      && (r.passes[0].textureCoordScale == h.distortionCorrectionScale <==> ScaleAgrees(h))
      && r.passes[0].mesh == r.helper.compositor.projection.value.leftMesh
      && r.passes[1].mesh == r.helper.compositor.projection.value.rightMesh
      && r.gl.framebuffer == gl.framebuffer
  {
  }

  /** A pending change is applied by the next drawn frame: the single eye
      covers the screen; without VR it gets the symmetric perspective of the
      viewer's vertical field of view and the integer quotient of the screen's
      pixel width by its pixel height; in VR without distortion correction the
      eyes get mirrored fields of view and the two halves of the screen; in VR
      with it the compositor is rebuilt for the helper's display. Without a
      pending change the eyes keep their projections. */
  lemma FrameAppliesPendingProjection(n: Numerics, h: Helper, t: HeadTracking.Tracker, predict: real -> Matrix4, now: int,
                                      gl: GlState, drawn: GlState, framebuffer: int)
    requires !h.shuttingDown && !h.invalidSurfaceSize
    ensures var f := OnDrawFrame(n, h, t, predict, now, gl, drawn, framebuffer);
      f.Ok? ==>
      var r := f.value.helper;
      var screen := h.hmd.screen;
      var half := CsDiv(screen.width, 2);
      && (h.projectionChanged ==> r.monocular.viewport == Viewport(0, 0, screen.width, screen.height))
      && (h.projectionChanged && !h.vrMode ==>
            r.monocular.transform.perspective ==
              Symmetric(h.hmd.cardboard.fovY, Finite(CsDiv(screen.width, screen.height) as real), h.zNear, h.zFar))
      && (h.projectionChanged && h.vrMode && !h.distortionCorrectionEnabled ==>
            && r.right.fov == FieldOfView(r.left.fov.right, r.left.fov.left, r.left.fov.bottom, r.left.fov.top)
            && r.left.viewport == Viewport(0, 0, half, screen.height)
            && r.right.viewport == Viewport(half, 0, half, screen.height))
      && (h.projectionChanged && h.vrMode && h.distortionCorrectionEnabled ==>
            r.compositor.projection.value.hmd == h.hmd)
      && (!h.projectionChanged ==>
            && r.left.fov == h.left.fov && r.left.viewport == h.left.viewport
            && r.left.transform.perspective == h.left.transform.perspective
            && r.right.fov == h.right.fov && r.right.viewport == h.right.viewport
            && r.right.transform.perspective == h.right.transform.perspective)
  {
  }

  /** A call a stereo renderer receives. */
  datatype StereoCall =
    | NewFrame(head: HeadTransform)
    | DrawEye(viewport: Viewport, transform: EyeTransform)
    | StereoFinishFrame(viewport: Viewport)
    | StereoSurfaceChanged(width: int, height: int)
    | StereoSurfaceCreated
    | StereoRendererShutdown

  /** `StereoRendererHelper`: a frame becomes a new-frame call and one draw per
      eye, each in its own viewport and scissor; in VR mode the renderer is told
      of half the surface's width. */
  function ToStereo(vrMode: bool, c: RendererCall): (r: seq<StereoCall>)
    ensures c.DrawFrame? ==>
      (|r| == (if c.second.Some? then 3 else 2) && r[0] == NewFrame(c.head)
       && r[1] == DrawEye(c.first.viewport, c.first.transform))
    ensures c.DrawFrame? && c.second.Some? ==> r[2] == DrawEye(c.second.value.viewport, c.second.value.transform)
    ensures !c.DrawFrame? ==> |r| == 1
    ensures c.SurfaceChanged? ==>
      (&& r[0].StereoSurfaceChanged? && r[0].height == c.height
       && (vrMode ==> 0 <= c.width - 2 * r[0].width <= 1 || 0 <= 2 * r[0].width - c.width <= 1)
       && (!vrMode ==> r[0].width == c.width))
  {
    match c
    case DrawFrame(head, first, second) =>
      [NewFrame(head), DrawEye(first.viewport, first.transform)]
      + (if second.Some? then [DrawEye(second.value.viewport, second.value.transform)] else [])
    case FinishFrame(vp) => [StereoFinishFrame(vp)]
    case SurfaceChanged(w, ht) => [StereoSurfaceChanged(if vrMode then CsDiv(w, 2) else w, ht)]
    case SurfaceCreated => [StereoSurfaceCreated]
    case RendererShutdown => [StereoRendererShutdown]
  }

  /** A drawn frame of a stereo renderer has two eyes in VR mode and one
      otherwise. */
  lemma StereoEyesFollowVrMode(n: Numerics, h: Helper, t: HeadTracking.Tracker, predict: real -> Matrix4, now: int,
                               gl: GlState, drawn: GlState, framebuffer: int)
    requires h.stereoVrMode.Some? && !h.shuttingDown && !h.invalidSurfaceSize
    ensures var f := OnDrawFrame(n, h, t, predict, now, gl, drawn, framebuffer);
      f.Ok? ==>
      var r := f.value;
      |ToStereo(r.helper.stereoVrMode.value, r.calls[0])| == (if h.vrMode then 3 else 2)
  {
    FrameDrawsTheEyes(n, h, t, predict, now, gl, drawn, framebuffer);
  }
}
