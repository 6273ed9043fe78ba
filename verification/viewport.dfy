/** Viewport.cs: a pixel rectangle with C# int fields. */
module Viewports {
  import opened Common

  datatype Viewport = Viewport(x: int, y: int, width: int, height: int)

  /** `new Viewport()`: every field holds the C# default 0. */
  const NewViewport: Viewport := Viewport(0, 0, 0, 0)

  /** `setViewport(x, y, width, height)` replaces all four fields. */
  function SetViewport(v: Viewport, x: int, y: int, width: int, height: int): (r: Viewport)
    ensures r.x == x && r.y == y && r.width == width && r.height == height
  {
    v.(x := x, y := y, width := width, height := height)
  }

  /** `getAsArray(array, offset)`: writes [x, y, width, height] at `offset`. */
  function GetAsArray(v: Viewport, arr: seq<int>, offset: int): (r: Result<seq<int>>)
    requires IsInt32(offset) && |arr| <= INT_MAX
    ensures r.Ok? <==> 0 <= offset && offset + 4 <= |arr|
    ensures offset + 4 > |arr| && IsInt32(offset + 4) ==> r == Err(IllegalArgument)
    ensures r.Ok? ==> WritesAt(arr, offset, [v.x, v.y, v.width, v.height], r.value)
  {
    StoreAll(arr, offset, [v.x, v.y, v.width, v.height])
  }

  /** `setViewport(a, b, c, d)` then `getAsArray` reads back [a, b, c, d]
      whatever the viewport held before. */
  lemma SetThenGetAsArray(v: Viewport, a: int, b: int, c: int, d: int, arr: seq<int>, offset: int)
    requires IsInt32(offset) && |arr| <= INT_MAX
    requires 0 <= offset && offset + 4 <= |arr|
    ensures GetAsArray(SetViewport(v, a, b, c, d), arr, offset).Ok?
    ensures GetAsArray(SetViewport(v, a, b, c, d), arr, offset).value[offset..offset + 4] == [a, b, c, d]
  {
  }

  /** `n` is `x` with its fraction dropped toward zero. */
  predicate TowardZero(n: int, x: real)
  {
    (x >= 0.0 ==> n as real <= x < n as real + 1.0) && (x < 0.0 ==> n as real - 1.0 < x <= n as real)
  }

  /** A shrinking factor keeps a non-negative field between 0 and itself. */
  lemma ShrinkStaysWithin(f: int, scale: real)
    ensures 0 <= f && 0.0 <= scale <= 1.0 ==> 0 <= TruncToInt(f as real * scale) <= f
  {
    if 0 <= f && 0.0 <= scale <= 1.0 {
      assert 0.0 <= f as real * scale <= f as real * 1.0;
    }
  }

  /** Each field multiplied by `scale` and cast back with C#'s `(int)`: every
      field is its scaled value truncated toward zero, so a scale between 0
      and 1 never grows a non-negative field and never makes it negative. */
  function Scaled(v: Viewport, scale: real): (r: Viewport)
    ensures scale == 1.0 ==> r == v
    ensures TowardZero(r.x, v.x as real * scale) && TowardZero(r.y, v.y as real * scale)
    ensures TowardZero(r.width, v.width as real * scale) && TowardZero(r.height, v.height as real * scale)
    ensures 0.0 <= scale <= 1.0 ==>
      (0 <= v.x ==> 0 <= r.x <= v.x) && (0 <= v.y ==> 0 <= r.y <= v.y)
      && (0 <= v.width ==> 0 <= r.width <= v.width) && (0 <= v.height ==> 0 <= r.height <= v.height)
  {
    ShrinkStaysWithin(v.x, scale);
    ShrinkStaysWithin(v.y, scale);
    ShrinkStaysWithin(v.width, scale);
    ShrinkStaysWithin(v.height, scale);

    Viewport(TruncToInt(v.x as real * scale), TruncToInt(v.y as real * scale),
             TruncToInt(v.width as real * scale), TruncToInt(v.height as real * scale))
  }
}
