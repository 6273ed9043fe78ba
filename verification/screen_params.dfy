/** ScreenParams.cs: the physical display, normalised to landscape. */
module Screen {
  import opened Common

  const METERS_PER_INCH: real := 0.0254
  const DEFAULT_BORDER_SIZE_METERS: real := 0.003

  datatype ScreenParams = ScreenParams(
    width: int, height: int,
    xMetersPerPixel: real, yMetersPerPixel: real,
    borderSizeMeters: real)

  /** The `DisplayMetrics` the display constructor reads (from `GetRealMetrics`,
      or `GetMetrics` where that is missing). */
  datatype DisplayMetrics = DisplayMetrics(widthPixels: int, heightPixels: int, xdpi: real, ydpi: real)

  /** One display axis: its pixel count and the metres one of its pixels spans. */
  datatype Axis = Axis(pixels: int, metersPerPixel: real)

  function Axes(s: ScreenParams): set<Axis>
  {
    {Axis(s.width, s.xMetersPerPixel), Axis(s.height, s.yMetersPerPixel)}
  }

  function DisplayAxes(d: DisplayMetrics): set<Axis>
  {
    {Axis(d.widthPixels, FDiv(METERS_PER_INCH, d.xdpi)), Axis(d.heightPixels, FDiv(METERS_PER_INCH, d.ydpi))}
  }

  /** `new ScreenParams(display)`: metres per pixel from the dpi, the default
      border, and a swap of both the pixel counts and their scales when the
      display reports portrait. */
  function FromDisplay(d: DisplayMetrics): (s: ScreenParams)
    ensures s.width >= s.height
    ensures s.borderSizeMeters == DEFAULT_BORDER_SIZE_METERS
    ensures Axes(s) == DisplayAxes(d)
    ensures d.heightPixels <= d.widthPixels ==>
      s.width == d.widthPixels && s.xMetersPerPixel == FDiv(METERS_PER_INCH, d.xdpi)
    ensures d.heightPixels > d.widthPixels ==>
      s.width == d.heightPixels && s.xMetersPerPixel == FDiv(METERS_PER_INCH, d.ydpi)
  {
    var xMpp := FDiv(METERS_PER_INCH, d.xdpi);
    var yMpp := FDiv(METERS_PER_INCH, d.ydpi);
    if d.heightPixels > d.widthPixels then
      ScreenParams(d.heightPixels, d.widthPixels, yMpp, xMpp, DEFAULT_BORDER_SIZE_METERS)
    else
      ScreenParams(d.widthPixels, d.heightPixels, xMpp, yMpp, DEFAULT_BORDER_SIZE_METERS)
  }

  /** `getWidthMeters`: the pixel width times its pixel size. */
  function WidthMeters(s: ScreenParams): real
  {
    s.width as real * s.xMetersPerPixel
  }

  /** `getHeightMeters`: the pixel height times its pixel size. */
  function HeightMeters(s: ScreenParams): real
  {
    s.height as real * s.yMetersPerPixel
  }

  /** After normalisation the screen's metre width is the physical length of
      the display's longer side, measured with that side's own dpi. */
  lemma FromDisplayMeters(d: DisplayMetrics)
    ensures d.heightPixels > d.widthPixels ==>
      WidthMeters(FromDisplay(d)) == d.heightPixels as real * FDiv(METERS_PER_INCH, d.ydpi)
      && HeightMeters(FromDisplay(d)) == d.widthPixels as real * FDiv(METERS_PER_INCH, d.xdpi)
    ensures d.heightPixels <= d.widthPixels ==>
      WidthMeters(FromDisplay(d)) == d.widthPixels as real * FDiv(METERS_PER_INCH, d.xdpi)
      && HeightMeters(FromDisplay(d)) == d.heightPixels as real * FDiv(METERS_PER_INCH, d.ydpi)
  {
  }

  /** `equals(Object)`: false for null and other classes, true for the
      receiver itself, otherwise all five fields compared. */
  function Equals(s: ScreenParams, other: ObjectArg<ScreenParams>): bool
  {
    match other
    case Null => false
    case SameInstance => true
    case OtherType => false
    case Instance(o) =>
      s.width == o.width && s.height == o.height
      && s.xMetersPerPixel == o.xMetersPerPixel && s.yMetersPerPixel == o.yMetersPerPixel
      && s.borderSizeMeters == o.borderSizeMeters
  }

  /** Field-wise `equals` on another instance is exactly value equality. */
  lemma EqualsIsValueEquality(s: ScreenParams, o: ScreenParams)
    ensures Equals(s, Instance(o)) <==> s == o
  {
  }

  /** `new ScreenParams(param)`: a field-by-field copy, `equals` to its source. */
  function Copy(s: ScreenParams): (r: ScreenParams)
    ensures Equals(s, Instance(r)) && Equals(r, Instance(s))
  {
    ScreenParams(s.width, s.height, s.xMetersPerPixel, s.yMetersPerPixel, s.borderSizeMeters)
  }

  /** `setWidth`: only the pixel width changes; orientation is not re-normalised. */
  function SetWidth(s: ScreenParams, width: int): (r: ScreenParams)
    ensures r.width == width
    ensures r.height == s.height && r.xMetersPerPixel == s.xMetersPerPixel
    ensures r.yMetersPerPixel == s.yMetersPerPixel && r.borderSizeMeters == s.borderSizeMeters
  {
    s.(width := width)
  }

  /** `setHeight`: only the pixel height changes; orientation is not re-normalised. */
  function SetHeight(s: ScreenParams, height: int): (r: ScreenParams)
    ensures r.height == height
    ensures r.width == s.width && r.xMetersPerPixel == s.xMetersPerPixel
    ensures r.yMetersPerPixel == s.yMetersPerPixel && r.borderSizeMeters == s.borderSizeMeters
  {
    s.(height := height)
  }

  /** `setBorderSizeMeters`: only the border changes. */
  function SetBorderSizeMeters(s: ScreenParams, border: real): (r: ScreenParams)
    ensures r.borderSizeMeters == border
    ensures r.width == s.width && r.height == s.height
    ensures r.xMetersPerPixel == s.xMetersPerPixel && r.yMetersPerPixel == s.yMetersPerPixel
  {
    s.(borderSizeMeters := border)
  }

  /** The setters do not keep the landscape invariant the constructor establishes. */
  lemma SetHeightCanLeaveLandscape(s: ScreenParams)
    requires s.width >= s.height
    ensures SetHeight(s, s.width + 1).width < SetHeight(s, s.width + 1).height
  {
  }
}
