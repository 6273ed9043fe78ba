/** DistortionRenderer.cs outside the mesh: the per-eye layout of the shared
    render texture, the conversion of that layout to pixels, and the state the
    compositor keeps between `beforeDrawFrame` and `afterDrawFrame`. GL is
    represented by the handful of values the compositor reads and writes. */
module DistortionRendering {
  import opened Common
  import opened Viewports
  import opened Eyes
  import Screen
  import Device
  import Mesh

  /** HeadMountedDisplay.cs is not part of this model: a display is its screen
      and its viewer, and its copy constructor is taken to copy both. */
  datatype HeadMountedDisplay = HeadMountedDisplay(screen: Screen.ScreenParams, cardboard: Device.DeviceParams)

  /** One eye's rectangle in the render texture, in metres, with the point
      straight ahead of the eye. */
  datatype EyeViewport = EyeViewport(x: real, y: real, width: real, height: real, eyeX: real, eyeY: real)

  /** Eye to lens plus lens to screen. */
  function EyeToScreenDistance(cdp: Device.DeviceParams): real
  {
    cdp.eyeToLensDistance + cdp.screenToLensDistance
  }

  /** The distance on the screen plane that an angle of `deg` degrees from the
      optical axis spans. */
  function SideMeters(n: Numerics, cdp: Device.DeviceParams, deg: real): real
  {
    n.tanDeg(deg) * EyeToScreenDistance(cdp)
  }

  /** The metre half of `initViewportForEye`: the rectangle starts at
      `xOffsetM` on the bottom edge, and the eye sees each of its four edges
      under the angle its field of view gives for that side. */
  function EyeViewportFor(n: Numerics, cdp: Device.DeviceParams, fov: FieldOfView, xOffsetM: real): (vp: EyeViewport)
    ensures vp.x == xOffsetM && vp.y == 0.0
    ensures vp.eyeX - vp.x == SideMeters(n, cdp, fov.left)
    ensures vp.x + vp.width - vp.eyeX == SideMeters(n, cdp, fov.right)
    ensures vp.eyeY - vp.y == SideMeters(n, cdp, fov.bottom)
    ensures vp.y + vp.height - vp.eyeY == SideMeters(n, cdp, fov.top)
  {
    var leftM := SideMeters(n, cdp, fov.left);
    var rightM := SideMeters(n, cdp, fov.right);
    var bottomM := SideMeters(n, cdp, fov.bottom);
    var topM := SideMeters(n, cdp, fov.top);
    EyeViewport(xOffsetM, 0.0, leftM + rightM, bottomM + topM, leftM + xOffsetM, bottomM)
  }

  /** When the four angles have non-negative tangents the eye looks at a point
      inside its own rectangle. */
  lemma EyeInsideItsViewport(n: Numerics, cdp: Device.DeviceParams, fov: FieldOfView, xOffsetM: real)
    requires EyeToScreenDistance(cdp) >= 0.0
    requires n.tanDeg(fov.left) >= 0.0 && n.tanDeg(fov.right) >= 0.0
    requires n.tanDeg(fov.bottom) >= 0.0 && n.tanDeg(fov.top) >= 0.0
    ensures var vp := EyeViewportFor(n, cdp, fov, xOffsetM);
      vp.x <= vp.eyeX <= vp.x + vp.width && vp.y <= vp.eyeY <= vp.y + vp.height
  {
    var d := EyeToScreenDistance(cdp);
    assert SideMeters(n, cdp, fov.left) >= 0.0 by { assert n.tanDeg(fov.left) * d >= 0.0; }
    assert SideMeters(n, cdp, fov.right) >= 0.0 by { assert n.tanDeg(fov.right) * d >= 0.0; }
    assert SideMeters(n, cdp, fov.bottom) >= 0.0 by { assert n.tanDeg(fov.bottom) * d >= 0.0; }
    assert SideMeters(n, cdp, fov.top) >= 0.0 by { assert n.tanDeg(fov.top) * d >= 0.0; }
  }

  /** Horizontal pixel density: `screen.getWidth() / screen.getWidthMeters()`. */
  function XPxPerM(s: Screen.ScreenParams): real
  {
    FDiv(s.width as real, Screen.WidthMeters(s))
  }

  /** Vertical pixel density: `screen.getHeight() / screen.getHeightMeters()`. */
  function YPxPerM(s: Screen.ScreenParams): real
  {
    FDiv(s.height as real, Screen.HeightMeters(s))
  }

  /** A screen whose pixel counts are ints and whose pixels have a size. */
  predicate ProperScreen(s: Screen.ScreenParams)
  {
    0 < s.width <= INT_MAX && 0 < s.height <= INT_MAX
    && s.xMetersPerPixel != 0.0 && s.yMetersPerPixel != 0.0
  }

  /** A length in metres as a whole number of pixels at the given density,
      rounded to nearest as `Math.round` does. */
  function ToPixels(meters: real, pxPerM: real): int
  {
    RoundToInt(meters * pxPerM)
  }

  /** The pixel half of `initViewportForEye` as the source writes it: every
      field, the vertical ones included, is converted with the horizontal
      density. */
  function PixelViewportAsWritten(s: Screen.ScreenParams, vp: EyeViewport): (r: Viewport)
    ensures r.y == ToPixels(vp.y, XPxPerM(s)) && r.height == ToPixels(vp.height, XPxPerM(s))
  {
    var xPxPerM := XPxPerM(s);
    Viewport(ToPixels(vp.x, xPxPerM), ToPixels(vp.y, xPxPerM),
             ToPixels(vp.width, xPxPerM), ToPixels(vp.height, xPxPerM))
  }

  /** On a screen whose two pixel sizes differ, a rectangle covering the whole
      screen in metres comes out with the wrong pixel height. */
  lemma AsWrittenViewportMisreadsHeight()
    ensures var s := Screen.ScreenParams(2, 2, 1.0, 0.5, 0.003);
      var whole := EyeViewport(0.0, 0.0, Screen.WidthMeters(s), Screen.HeightMeters(s), 0.0, 0.0);
      PixelViewportAsWritten(s, whole).height == 1 != s.height
  {
    var s := Screen.ScreenParams(2, 2, 1.0, 0.5, 0.003);
    assert XPxPerM(s) == 1.0;
  }

  /** Rounds each metre field to pixels with its own axis's density: x and
      width horizontally, as the source does, and y and height vertically, so
      that the two versions agree exactly on screens with square pixels. */
  function PixelViewport(s: Screen.ScreenParams, vp: EyeViewport): (r: Viewport)
    ensures r.x == PixelViewportAsWritten(s, vp).x && r.width == PixelViewportAsWritten(s, vp).width
    ensures r.y == ToPixels(vp.y, YPxPerM(s)) && r.height == ToPixels(vp.height, YPxPerM(s))
    ensures YPxPerM(s) == XPxPerM(s) ==> r == PixelViewportAsWritten(s, vp)
  {
    var xPxPerM := XPxPerM(s);
    var yPxPerM := YPxPerM(s);
    Viewport(ToPixels(vp.x, xPxPerM), ToPixels(vp.y, yPxPerM),
             ToPixels(vp.width, xPxPerM), ToPixels(vp.height, yPxPerM))
  }

  /** A length that is a whole number of pixels converts to exactly that
      number. */
  lemma ToPixelsExact(meters: real, pxPerM: real, n: int)
    requires IsInt32(n) && meters * pxPerM == n as real
    ensures ToPixels(meters, pxPerM) == n
  {
    assert (n as real + 0.5).Floor == n;
  }

  /** A metre rectangle covering the whole screen is the whole screen in pixels. */
  lemma WholeScreenInPixels(s: Screen.ScreenParams)
    requires ProperScreen(s)
    ensures var whole := EyeViewport(0.0, 0.0, Screen.WidthMeters(s), Screen.HeightMeters(s), 0.0, 0.0);
      PixelViewport(s, whole) == Viewport(0, 0, s.width, s.height)
  {
    var wM := Screen.WidthMeters(s);
    var hM := Screen.HeightMeters(s);
    assert wM != 0.0 && hM != 0.0;
    assert wM * XPxPerM(s) == s.width as real;
    assert hM * YPxPerM(s) == s.height as real;
    ToPixelsExact(0.0, XPxPerM(s), 0);
    ToPixelsExact(0.0, YPxPerM(s), 0);
    ToPixelsExact(wM, XPxPerM(s), s.width);
    ToPixelsExact(hM, YPxPerM(s), s.height);
  }

  /** What the compositor derives from a projection change. */
  datatype Projection = Projection(
    hmd: HeadMountedDisplay,
    leftFov: FieldOfView, rightFov: FieldOfView,
    leftMesh: Mesh.MeshInputs, rightMesh: Mesh.MeshInputs,
    textureWidthPx: int, textureHeightPx: int)

  /** The compositor's own state: the texture-coordinate scale, the last
      projection (none before the first change), the framebuffer it renders
      the eyes into and the one it found bound before the frame. */
  datatype Compositor = Compositor(
    resolutionScale: real,
    projection: Option<Projection>,
    framebuffer: int,
    savedFramebuffer: int)

  /** `new DistortionRenderer()`: scale 1, no framebuffer yet (-1), and a zeroed
      buffer for the saved framebuffer. */
  const NewCompositor: Compositor := Compositor(1.0, None, -1, 0)

  /** `setResolutionScale`. */
  function SetResolutionScale(c: Compositor, scale: real): (r: Compositor)
    ensures r.resolutionScale == scale && r.(resolutionScale := c.resolutionScale) == c
  {
    c.(resolutionScale := scale)
  }

  /** The arguments of `createDistortionMesh` for one eye. */
  function MeshFor(hmd: HeadMountedDisplay, vp: EyeViewport, textureWidthM: real, textureHeightM: real,
                   xEyeOffsetMScreen: real, yEyeOffsetMScreen: real): Mesh.MeshInputs
  {
    Mesh.MeshInputs(hmd.cardboard.distortion,
      Screen.WidthMeters(hmd.screen), Screen.HeightMeters(hmd.screen),
      xEyeOffsetMScreen, yEyeOffsetMScreen, textureWidthM, textureHeightM,
      vp.eyeX, vp.eyeY, vp.x, vp.y, vp.width, vp.height)
  }

  /** The result of `onProjectionChanged`: the compositor and the two eyes,
      whose viewports and perspectives it rewrites. */
  datatype ProjectionChange = ProjectionChange(compositor: Compositor, left: EyeParams, right: EyeParams)

  /** `onProjectionChanged(hmd, leftEye, rightEye, zNear, zFar)`. `framebuffer`
      is the name GL hands out for the new render target. */
  function OnProjectionChanged(n: Numerics, c: Compositor, hmd: HeadMountedDisplay, left: EyeParams, right: EyeParams,
                               zNear: real, zFar: real, framebuffer: int): (r: ProjectionChange)
    ensures r.compositor.projection.Some?
    ensures r.compositor.resolutionScale == c.resolutionScale
    ensures r.compositor.framebuffer == framebuffer && r.compositor.savedFramebuffer == c.savedFramebuffer
    ensures r.compositor.projection.value.hmd == hmd
    ensures r.compositor.projection.value.leftFov == left.fov && r.compositor.projection.value.rightFov == right.fov
    ensures r.left.eye == left.eye && r.left.fov == left.fov && r.left.transform.eyeView == left.transform.eyeView
    ensures r.right.eye == right.eye && r.right.fov == right.fov && r.right.transform.eyeView == right.transform.eyeView
    ensures r.left.transform.perspective == OffAxis(left.fov, zNear, zFar)
    ensures r.right.transform.perspective == OffAxis(right.fov, zNear, zFar)
  {
    var screen := hmd.screen;
    var cdp := hmd.cardboard;
    var leftVp := EyeViewportFor(n, cdp, left.fov, 0.0);
    var rightVp := EyeViewportFor(n, cdp, right.fov, leftVp.width);
    var left' := left.(viewport := PixelViewportAsWritten(screen, leftVp),
                       transform := left.transform.(perspective := OffAxis(left.fov, zNear, zFar)));
    var right' := right.(viewport := PixelViewportAsWritten(screen, rightVp),
                         transform := right.transform.(perspective := OffAxis(right.fov, zNear, zFar)));
    var textureWidthM := leftVp.width + rightVp.width;
    var textureHeightM := MaxR(leftVp.height, rightVp.height);
    var textureWidthPx := RoundToInt(textureWidthM * XPxPerM(screen));
    var textureHeightPx := RoundToInt(textureHeightM * YPxPerM(screen));
    var xEyeOffsetMScreen := Screen.WidthMeters(screen) / 2.0 - cdp.interpupillaryDistance / 2.0;
    var yEyeOffsetMScreen := cdp.verticalDistanceToLensCenter - screen.borderSizeMeters;
    var leftMesh := MeshFor(hmd, leftVp, textureWidthM, textureHeightM, xEyeOffsetMScreen, yEyeOffsetMScreen);
    var rightMesh := MeshFor(hmd, rightVp, textureWidthM, textureHeightM,
                             Screen.WidthMeters(screen) - xEyeOffsetMScreen, yEyeOffsetMScreen);
    var p := Projection(hmd, left.fov, right.fov, leftMesh, rightMesh, textureWidthPx, textureHeightPx);
    ProjectionChange(c.(projection := Some(p), framebuffer := framebuffer), left', right')
  }

  /** The two eyes share one render texture side by side: the left eye's
      rectangle starts at its left edge, the right eye's starts where the left
      one ends, together they span the texture's width, and each fits in its
      height. Both meshes see the same screen and texture. */
  lemma EyesTileTheTexture(n: Numerics, c: Compositor, hmd: HeadMountedDisplay, left: EyeParams, right: EyeParams,
                           zNear: real, zFar: real, framebuffer: int)
    ensures var p := OnProjectionChanged(n, c, hmd, left, right, zNear, zFar, framebuffer).compositor.projection.value;
      && p.leftMesh.viewportXMTexture == 0.0
      && p.rightMesh.viewportXMTexture == p.leftMesh.viewportWidthMTexture
      && p.rightMesh.viewportXMTexture + p.rightMesh.viewportWidthMTexture == p.leftMesh.textureWidthM
      && p.leftMesh.viewportYMTexture == 0.0 && p.rightMesh.viewportYMTexture == 0.0
      && p.leftMesh.viewportHeightMTexture <= p.leftMesh.textureHeightM
      && p.rightMesh.viewportHeightMTexture <= p.rightMesh.textureHeightM
      && p.leftMesh.textureWidthM == p.rightMesh.textureWidthM
      && p.leftMesh.textureHeightM == p.rightMesh.textureHeightM
      && p.leftMesh.screenWidthM == p.rightMesh.screenWidthM == Screen.WidthMeters(hmd.screen)
      && p.leftMesh.screenHeightM == p.rightMesh.screenHeightM == Screen.HeightMeters(hmd.screen)
  {
  }

  /** The lens centres sit symmetrically on the screen: the left one
      `ipd / 2` left of the middle, the right one as far from the right edge as
      the left one is from the left edge, both at the lens height above the
      border. */
  lemma LensCentresMirror(n: Numerics, c: Compositor, hmd: HeadMountedDisplay, left: EyeParams, right: EyeParams,
                          zNear: real, zFar: real, framebuffer: int)
    ensures var p := OnProjectionChanged(n, c, hmd, left, right, zNear, zFar, framebuffer).compositor.projection.value;
      var widthM := Screen.WidthMeters(hmd.screen);
      && p.leftMesh.xEyeOffsetMScreen + p.rightMesh.xEyeOffsetMScreen == widthM
      && widthM / 2.0 - p.leftMesh.xEyeOffsetMScreen == hmd.cardboard.interpupillaryDistance / 2.0
      && p.rightMesh.xEyeOffsetMScreen - widthM / 2.0 == hmd.cardboard.interpupillaryDistance / 2.0
      && p.leftMesh.yEyeOffsetMScreen == p.rightMesh.yEyeOffsetMScreen
      && p.leftMesh.yEyeOffsetMScreen + hmd.screen.borderSizeMeters == hmd.cardboard.verticalDistanceToLensCenter
  {
  }

  /** Each eye's pixel viewport is its metre rectangle in the texture, converted
      as the source does with the horizontal density throughout, and each mesh
      samples the texture at the point its eye looks at. */
  lemma EyeViewportsMatchMeshes(n: Numerics, c: Compositor, hmd: HeadMountedDisplay, left: EyeParams, right: EyeParams,
                                zNear: real, zFar: real, framebuffer: int)
    ensures var r := OnProjectionChanged(n, c, hmd, left, right, zNear, zFar, framebuffer);
      var p := r.compositor.projection.value;
      && r.left.viewport == PixelViewportAsWritten(hmd.screen, EyeViewport(p.leftMesh.viewportXMTexture, p.leftMesh.viewportYMTexture,
           p.leftMesh.viewportWidthMTexture, p.leftMesh.viewportHeightMTexture, p.leftMesh.xEyeOffsetMTexture, p.leftMesh.yEyeOffsetMTexture))
      && r.right.viewport == PixelViewportAsWritten(hmd.screen, EyeViewport(p.rightMesh.viewportXMTexture, p.rightMesh.viewportYMTexture,
           p.rightMesh.viewportWidthMTexture, p.rightMesh.viewportHeightMTexture, p.rightMesh.xEyeOffsetMTexture, p.rightMesh.yEyeOffsetMTexture))
      && p.leftMesh.xEyeOffsetMTexture - p.leftMesh.viewportXMTexture == SideMeters(n, hmd.cardboard, left.fov.left)
      && p.rightMesh.xEyeOffsetMTexture - p.rightMesh.viewportXMTexture == SideMeters(n, hmd.cardboard, right.fov.left)
  {
  }

  /** The GL state the compositor touches. */
  datatype GlState = GlState(framebuffer: int, viewport: Viewport, cullFace: bool, scissorTest: bool)

  /** `beforeDrawFrame`: remembers the bound framebuffer and binds its own, so
      the application's eyes are drawn into the render texture. */
  function BeforeDrawFrame(c: Compositor, gl: GlState): (r: (Compositor, GlState))
    ensures r.0.savedFramebuffer == gl.framebuffer && r.1.framebuffer == c.framebuffer
    ensures r.0.(savedFramebuffer := c.savedFramebuffer) == c && r.1.(framebuffer := gl.framebuffer) == gl
  {
    (c.(savedFramebuffer := gl.framebuffer), gl.(framebuffer := c.framebuffer))
  }

  /** One textured draw of a distortion mesh: the scissor it is clipped to, the
      mesh, and the texture-coordinate scale it samples with. */
  datatype MeshPass = MeshPass(scissor: Viewport, mesh: Mesh.MeshInputs, textureCoordScale: real)

  datatype FrameEnd = FrameEnd(passes: seq<MeshPass>, gl: GlState)

  /** `afterDrawFrame`: binds the saved framebuffer, sets the viewport to the
      whole screen before reading it back, draws the left mesh into the left
      half of the screen and the right mesh into the right half, and re-enables
      face culling and the scissor test if they were on. Before any projection
      change the display it reads is still null. */
  function AfterDrawFrame(c: Compositor, gl: GlState): (r: Result<FrameEnd>)
    ensures c.projection.None? <==> r == Err(NullReference)
    ensures r.Ok? ==> |r.value.passes| == 2
    ensures r.Ok? ==>
      r.value.passes[0].mesh == c.projection.value.leftMesh && r.value.passes[1].mesh == c.projection.value.rightMesh
    ensures r.Ok? ==> forall i :: 0 <= i < 2 ==> r.value.passes[i].textureCoordScale == c.resolutionScale
    ensures r.Ok? ==> r.value.gl.framebuffer == c.savedFramebuffer
    ensures r.Ok? ==> r.value.gl.cullFace == gl.cullFace && r.value.gl.scissorTest == gl.scissorTest
  {
    match c.projection
    case None => Err(NullReference)
    case Some(p) =>
      var w := p.hmd.screen.width;
      var h := p.hmd.screen.height;
      var fullScreen := Viewport(0, 0, w, h);
      var leftHalf := Viewport(0, 0, CsDiv(w, 2), h);
      var rightHalf := Viewport(CsDiv(w, 2), 0, CsDiv(w, 2), h);
      var passes := [MeshPass(leftHalf, p.leftMesh, c.resolutionScale), MeshPass(rightHalf, p.rightMesh, c.resolutionScale)];
      Ok(FrameEnd(passes, GlState(c.savedFramebuffer, fullScreen, gl.cullFace, gl.scissorTest)))
  }

  /** A frame wrapped in `beforeDrawFrame` and `afterDrawFrame` hands back the
      framebuffer that was bound before it and the culling and scissor switches
      that held at its end; the viewport comes back as the whole screen, because
      it is read after being reset. The two scissor rectangles are the screen's
      halves: they abut, share the screen's height, and leave at most the last
      pixel column of an odd-width screen uncovered. */
  lemma FrameRestoresGlState(c: Compositor, before: GlState, drawn: GlState)
    requires c.projection.Some? && c.projection.value.hmd.screen.width >= 0
    ensures var (c', gl') := BeforeDrawFrame(c, before);
      var r := AfterDrawFrame(c', drawn.(framebuffer := gl'.framebuffer));
      var screen := c.projection.value.hmd.screen;
      && r.Ok?
      && r.value.gl.framebuffer == before.framebuffer
      && r.value.gl.viewport == Viewport(0, 0, screen.width, screen.height)
      && r.value.gl.cullFace == drawn.cullFace && r.value.gl.scissorTest == drawn.scissorTest
      && r.value.passes[0].scissor.x == 0
      && r.value.passes[1].scissor.x == r.value.passes[0].scissor.x + r.value.passes[0].scissor.width
      && r.value.passes[0].scissor.width == r.value.passes[1].scissor.width
      && 0 <= screen.width - (r.value.passes[1].scissor.x + r.value.passes[1].scissor.width) <= 1
      && r.value.passes[0].scissor.height == r.value.passes[1].scissor.height == screen.height
  {
  }
}
