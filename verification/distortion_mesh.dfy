/** DistortionRenderer.DistortionMesh: the 40 x 40 grid of vertices that warps
    the rendered eye texture through the inverse lens distortion, and the
    triangle strip that walks it. */
module Mesh {
  import opened Common

  const ROWS: int := 40
  const COLS: int := 40
  const COMPONENTS_PER_VERT: int := 5
  const VERTEX_COUNT: int := 1600
  /** 40 * 40 vertices of five floats each. */
  const VERTEX_DATA_LENGTH: int := 8000
  /** 39 rows of 40 index pairs, plus one bridge index before every row but the first. */
  const N_INDICES: int := 3158
  const VIGNETTE_SIZE_M_SCREEN: real := 0.002

  /** `clamp(val, min, max)`: `Math.Max(min, Math.Min(max, val))`. */
  function Clamp(val: real, min: real, max: real): (r: real)
    ensures min <= max ==> min <= r <= max
    ensures min <= val <= max ==> r == val
    ensures val <= min ==> r == min
    ensures min <= max <= val ==> r == max
    ensures max < min ==> r == min
  {
    MaxR(min, MinR(max, val))
  }

  /** The arguments of the mesh constructor, all in metres. */
  datatype MeshInputs = MeshInputs(
    distortion: Distortion,
    screenWidthM: real, screenHeightM: real,
    xEyeOffsetMScreen: real, yEyeOffsetMScreen: real,
    textureWidthM: real, textureHeightM: real,
    xEyeOffsetMTexture: real, yEyeOffsetMTexture: real,
    viewportXMTexture: real, viewportYMTexture: real,
    viewportWidthMTexture: real, viewportHeightMTexture: real)

  /** One vertex: screen position in normalised device coordinates, vignette
      weight, texture coordinates. */
  datatype Vertex = Vertex(x: real, y: real, vignette: real, u: real, v: real)

  /** Texture coordinate of grid column `col`: the eye's viewport spread over 39 steps. */
  function UTexture(m: MeshInputs, col: int): real
  {
    (col as real / 39.0) * FDiv(m.viewportWidthMTexture, m.textureWidthM)
      + FDiv(m.viewportXMTexture, m.textureWidthM)
  }

  function VTexture(m: MeshInputs, row: int): real
  {
    (row as real / 39.0) * FDiv(m.viewportHeightMTexture, m.textureHeightM)
      + FDiv(m.viewportYMTexture, m.textureHeightM)
  }

  function XTexture(m: MeshInputs, col: int): real { UTexture(m, col) * m.textureWidthM }

  function YTexture(m: MeshInputs, row: int): real { VTexture(m, row) * m.textureHeightM }

  /** The texture-to-screen scale: distortInverse(r) / r away from the lens
      centre, 1 at the centre. */
  function TextureToScreen(n: Numerics, m: MeshInputs, row: int, col: int): real
  {
    var xEye := XTexture(m, col) - m.xEyeOffsetMTexture;
    var yEye := YTexture(m, row) - m.yEyeOffsetMTexture;
    var rTexture := n.sqrt(xEye * xEye + yEye * yEye);
    if rTexture > 0.0 then FDiv(n.distortInverse(m.distortion, rTexture), rTexture) else 1.0
  }

  /** The 2 mm screen vignette measured in texture metres. */
  function VignetteSize(n: Numerics, m: MeshInputs, row: int, col: int): real
  {
    FDiv(VIGNETTE_SIZE_M_SCREEN, TextureToScreen(n, m, row, col))
  }

  /** How far `v` lies outside [lo, hi]: `v - clamp(v, lo, hi)`. */
  function Overshoot(v: real, lo: real, hi: real): (d: real)
    ensures lo <= v <= hi ==> d == 0.0
    ensures lo <= hi && v < lo ==> d == v - lo
    ensures lo <= hi && hi < v ==> d == v - hi
  {
    v - Clamp(v, lo, hi)
  }

  /** Euclidean length, through the platform square root. */
  function Hypot(n: Numerics, dx: real, dy: real): real
  {
    n.sqrt(dx * dx + dy * dy)
  }

  /** Distance from the texture point to the viewport shrunk by `size` on every side. */
  function DistanceToTrimmedViewport(n: Numerics, m: MeshInputs, row: int, col: int, size: real): real
  {
    Hypot(n,
      Overshoot(XTexture(m, col), m.viewportXMTexture + size, m.viewportXMTexture + m.viewportWidthMTexture - size),
      Overshoot(YTexture(m, row), m.viewportYMTexture + size, m.viewportYMTexture + m.viewportHeightMTexture - size))
  }

  /** The vignette weight: 1 - clamp(distance / size, 0, 1). It lies in [0, 1],
      is 1 where the distance is 0, and 0 from one vignette size outwards. */
  function Vignette(distance: real, size: real): (w: real)
    ensures 0.0 <= w <= 1.0
    ensures distance == 0.0 ==> w == 1.0
    ensures size > 0.0 && distance >= size ==> w == 0.0
    ensures size > 0.0 && 0.0 <= distance <= size ==> w * size == size - distance
  {
    1.0 - Clamp(FDiv(distance, size), 0.0, 1.0)
  }

  /** The screen point, in metres, that texture point (row, col) is drawn at. */
  function XScreen(n: Numerics, m: MeshInputs, row: int, col: int): real
  {
    (XTexture(m, col) - m.xEyeOffsetMTexture) * TextureToScreen(n, m, row, col) + m.xEyeOffsetMScreen
  }

  function YScreen(n: Numerics, m: MeshInputs, row: int, col: int): real
  {
    (YTexture(m, row) - m.yEyeOffsetMTexture) * TextureToScreen(n, m, row, col) + m.yEyeOffsetMScreen
  }

  /** A screen coordinate in metres, in [0, size], mapped to [-1, 1]. */
  function ToClip(a: real, size: real): real
  {
    2.0 * FDiv(a, size) - 1.0
  }

  /** The five floats the constructor computes for grid point (row, col). */
  function VertexAt(n: Numerics, m: MeshInputs, row: int, col: int): Vertex
  {
    var size := VignetteSize(n, m, row, col);
    Vertex(ToClip(XScreen(n, m, row, col), m.screenWidthM), ToClip(YScreen(n, m, row, col), m.screenHeightM),
           Vignette(DistanceToTrimmedViewport(n, m, row, col, size), size),
           UTexture(m, col), VTexture(m, row))
  }

  /** Where vertex (row, col) starts in the vertex array. */
  function VertexSlot(row: int, col: int): int { 200 * row + 5 * col }

  /** The vertex loop: row-major, five floats per vertex. */
  method BuildVertexData(n: Numerics, m: MeshInputs) returns (data: seq<real>)
    ensures |data| == VERTEX_DATA_LENGTH
    ensures forall row, col :: 0 <= row < ROWS && 0 <= col < COLS ==>
      var k := VertexSlot(row, col);
      var vx := VertexAt(n, m, row, col);
      data[k] == vx.x && data[k + 1] == vx.y && data[k + 2] == vx.vignette
      && data[k + 3] == vx.u && data[k + 4] == vx.v
  {
    data := [];
    var row := 0;
    while row < ROWS
      invariant 0 <= row <= ROWS
      invariant |data| == 200 * row
      invariant forall r, c :: 0 <= r < row && 0 <= c < COLS ==>
        var k := VertexSlot(r, c);
        var vx := VertexAt(n, m, r, c);
        data[k] == vx.x && data[k + 1] == vx.y && data[k + 2] == vx.vignette
        && data[k + 3] == vx.u && data[k + 4] == vx.v
    {
      var col := 0;
      while col < COLS
        invariant 0 <= col <= COLS
        invariant |data| == 200 * row + 5 * col
        invariant forall r, c :: (0 <= r < row && 0 <= c < COLS) || (r == row && 0 <= c < col) ==>
          var k := VertexSlot(r, c);
          var vx := VertexAt(n, m, r, c);
          data[k] == vx.x && data[k + 1] == vx.y && data[k + 2] == vx.vignette
          && data[k + 3] == vx.u && data[k + 4] == vx.v
      {
        var vx := VertexAt(n, m, row, col);
        data := data + [vx.x, vx.y, vx.vignette, vx.u, vx.v];
        col := col + 1;
      }
      row := row + 1;
    }
  }

  /** Every vertex's vignette weight lies in [0, 1]. */
  lemma VignetteInUnitRange(n: Numerics, m: MeshInputs, row: int, col: int)
    ensures 0.0 <= VertexAt(n, m, row, col).vignette <= 1.0
  {
  }

  /** A texture point inside the viewport shrunk by the vignette size is drawn
      at full brightness. */
  lemma FullBrightnessInsideTrimmedViewport(n: Numerics, m: MeshInputs, row: int, col: int)
    requires SqrtLaws(n)
    requires m.viewportXMTexture + VignetteSize(n, m, row, col) <= XTexture(m, col)
               <= m.viewportXMTexture + m.viewportWidthMTexture - VignetteSize(n, m, row, col)
    requires m.viewportYMTexture + VignetteSize(n, m, row, col) <= YTexture(m, row)
               <= m.viewportYMTexture + m.viewportHeightMTexture - VignetteSize(n, m, row, col)
    ensures VertexAt(n, m, row, col).vignette == 1.0
  {
    var size := VignetteSize(n, m, row, col);
    assert Hypot(n, 0.0, 0.0) == n.sqrt(0.0);
    assert DistanceToTrimmedViewport(n, m, row, col, size) == 0.0;
  }

  /** The lens centre in the texture is drawn at the eye's offset on the screen,
      whatever the distortion. */
  lemma LensCentreMapsToScreenOffset(n: Numerics, m: MeshInputs, row: int, col: int)
    requires XTexture(m, col) == m.xEyeOffsetMTexture && YTexture(m, row) == m.yEyeOffsetMTexture
    ensures XScreen(n, m, row, col) == m.xEyeOffsetMScreen
    ensures YScreen(n, m, row, col) == m.yEyeOffsetMScreen
  {
  }

  /** Rescaling a coordinate from [0, size] to [-1, 1] and back. */
  lemma Normalised(a: real, size: real)
    requires size != 0.0
    ensures (ToClip(a, size) + 1.0) * size == 2.0 * a
  {
    var q := FDiv(a, size);
    assert q * size == a;
    assert (2.0 * q) * size == 2.0 * (q * size);
  }

  /** The vertex position is the screen point rescaled from [0, width] x
      [0, height] metres to [-1, 1] x [-1, 1]. */
  lemma PositionIsNormalisedScreenPoint(n: Numerics, m: MeshInputs, row: int, col: int)
    requires m.screenWidthM != 0.0 && m.screenHeightM != 0.0
    ensures (VertexAt(n, m, row, col).x + 1.0) * m.screenWidthM == 2.0 * XScreen(n, m, row, col)
    ensures (VertexAt(n, m, row, col).y + 1.0) * m.screenHeightM == 2.0 * YScreen(n, m, row, col)
  {
    Normalised(XScreen(n, m, row, col), m.screenWidthM);
    Normalised(YScreen(n, m, row, col), m.screenHeightM);
  }

  /** The grid's first and last columns (rows) sit on the edges of the eye's
      viewport in the texture. */
  lemma {:induction false} GridSpansViewport(m: MeshInputs)
    requires m.textureWidthM != 0.0 && m.textureHeightM != 0.0
    ensures XTexture(m, 0) == m.viewportXMTexture
    ensures XTexture(m, COLS - 1) == m.viewportXMTexture + m.viewportWidthMTexture
    ensures YTexture(m, 0) == m.viewportYMTexture
    ensures YTexture(m, ROWS - 1) == m.viewportYMTexture + m.viewportHeightMTexture
  {
    var w := FDiv(m.viewportWidthMTexture, m.textureWidthM);
    var x := FDiv(m.viewportXMTexture, m.textureWidthM);
    assert UTexture(m, 39) == w + x;
    assert (w + x) * m.textureWidthM == w * m.textureWidthM + x * m.textureWidthM;
    var h := FDiv(m.viewportHeightMTexture, m.textureHeightM);
    var y := FDiv(m.viewportYMTexture, m.textureHeightM);
    assert VTexture(m, 39) == h + y;
    assert (h + y) * m.textureHeightM == h * m.textureHeightM + y * m.textureHeightM;
  }

  /** Texture coordinates stay inside [0, 1] when the eye's viewport lies inside
      the texture. */
  lemma TextureCoordinatesInUnitRange(m: MeshInputs, col: int)
    requires 0 <= col < COLS
    requires m.textureWidthM > 0.0 && 0.0 <= m.viewportXMTexture && 0.0 <= m.viewportWidthMTexture
    requires m.viewportXMTexture + m.viewportWidthMTexture <= m.textureWidthM
    ensures 0.0 <= UTexture(m, col) <= 1.0
  {
    var t := col as real / 39.0;
    var tw := m.textureWidthM;
    var w := FDiv(m.viewportWidthMTexture, tw);
    var x := FDiv(m.viewportXMTexture, tw);
    assert w * tw == m.viewportWidthMTexture && x * tw == m.viewportXMTexture;
    assert 0.0 <= w && 0.0 <= x;
    assert (1.0 - (w + x)) * tw == tw - (m.viewportWidthMTexture + m.viewportXMTexture);
    assert w + x <= 1.0;
    assert 0.0 <= t <= 1.0;
    assert 0.0 <= t * w <= w by { assert (1.0 - t) * w >= 0.0; }
  }

  // ---- The index buffer ----

  /** The vertex the strip pairs with the one below it at (row, col): rows are
      walked left to right when even and right to left when odd. */
  function StripVertex(row: int, col: int): int
  {
    if row % 2 == 0 then 40 * row + col else 40 * row + 39 - col
  }

  /** Where the pair for (row, col) starts in the index array: 81 entries per
      row, the first of which (for rows after the first) is the bridge. */
  function PairSlot(row: int, col: int): int { 81 * row + 2 * col }

  function BridgeSlot(row: int): int { 81 * row - 1 }

  function GridVertex(row: int, col: int): int { 40 * row + col }

  /** The shape of the first `rows` rows of the index array: every pair is a
      strip vertex and the one under it, every bridge repeats the index before
      it, and every index names one of the 1600 vertices. */
  predicate PrefixLayout(idx: seq<int>, rows: int)
  {
    && 0 <= rows <= ROWS - 1
    && |idx| == (if rows == 0 then 0 else BridgeSlot(rows))
    && (forall r, c {:trigger PairSlot(r, c)} :: 0 <= r < rows && 0 <= c < COLS ==>
          idx[PairSlot(r, c)] == StripVertex(r, c) && idx[PairSlot(r, c) + 1] == StripVertex(r, c) + COLS)
    && (forall r :: 0 < r < rows ==> idx[BridgeSlot(r)] == idx[BridgeSlot(r) - 1])
    && (forall k :: 0 <= k < |idx| ==> 0 <= idx[k] < VERTEX_COUNT)
  }

  /** The whole index array: all 39 rows, 3158 indices. */
  predicate StripLayout(idx: seq<int>)
  {
    |idx| == N_INDICES && PrefixLayout(idx, ROWS - 1)
  }

  /** The index loop, walking the grid as one boustrophedon triangle strip. */
  method BuildIndexData() returns (idx: seq<int>)
    ensures StripLayout(idx)
    ensures |idx| == N_INDICES
    ensures forall row, col {:trigger PairSlot(row, col)} :: 0 <= row < ROWS - 1 && 0 <= col < COLS ==>
      idx[PairSlot(row, col)] == StripVertex(row, col) && idx[PairSlot(row, col) + 1] == StripVertex(row, col) + COLS
    ensures forall row :: 0 < row < ROWS - 1 ==> idx[BridgeSlot(row)] == idx[BridgeSlot(row) - 1]
    ensures forall k :: 0 <= k < |idx| ==> 0 <= idx[k] < VERTEX_COUNT
  {
    idx := [];
    var vertexOffset := 0;
    var row := 0;
    while row < ROWS - 1
      invariant 0 <= row <= ROWS - 1
      invariant PrefixLayout(idx, row)
      invariant vertexOffset == StripVertex(row, 0)
    {
      idx, vertexOffset := AppendRow(idx, row, vertexOffset);
      row := row + 1;
    }
    assert PrefixLayout(idx, ROWS - 1);
  }

  /** One pass of the outer index loop: the bridge (after the first row), the
      row's 40 pairs, and the step down to the next row. */
  method AppendRow(prefix: seq<int>, row: int, start: int) returns (idx: seq<int>, vertexOffset: int)
    requires 0 <= row < ROWS - 1
    requires PrefixLayout(prefix, row)
    requires start == StripVertex(row, 0)
    ensures PrefixLayout(idx, row + 1)
    ensures vertexOffset == StripVertex(row + 1, 0)
  {
    var bridge := if row > 0 then [prefix[|prefix| - 1]] else [];
    var pairs;
    pairs, vertexOffset := RowPairs(row, start);
    idx := prefix + bridge + pairs;
    vertexOffset := vertexOffset + COLS;
    RowExtendsLayout(prefix, bridge, pairs, row);
    StripTurnsDown(row);
  }

  /** The last vertex of a row, stepped down one row, is where the next row's
      walk begins. */
  lemma StripTurnsDown(row: int)
    requires 0 <= row
    ensures StripVertex(row, COLS - 1) + COLS == StripVertex(row + 1, 0)
  {
  }

  /** The bookkeeping of one outer pass: a layout of `row` rows, extended by the
      bridge and then by the row's pairs, is a layout of `row + 1` rows. */
  lemma {:induction false} RowExtendsLayout(prefix: seq<int>, bridge: seq<int>, pairs: seq<int>, row: int)
    requires 0 <= row < ROWS - 1
    requires PrefixLayout(prefix, row)
    requires bridge == if row > 0 then [prefix[|prefix| - 1]] else []
    requires |pairs| == 2 * COLS
    requires forall c :: 0 <= c < COLS ==> pairs[2 * c] == StripVertex(row, c) && pairs[2 * c + 1] == StripVertex(row, c) + COLS
    requires forall k :: 0 <= k < |pairs| ==> 0 <= pairs[k] < VERTEX_COUNT
    ensures PrefixLayout(prefix + bridge + pairs, row + 1)
  {
    var idx := prefix + bridge + pairs;
    assert |prefix + bridge| == PairSlot(row, 0);
    PairsExtend(prefix, bridge, pairs, row);
    BridgesExtend(prefix, bridge, pairs, row);
    RangeExtends(prefix, bridge, pairs, row);
  }

  lemma PairsExtend(prefix: seq<int>, bridge: seq<int>, pairs: seq<int>, row: int)
    requires 0 <= row < ROWS - 1
    requires PrefixLayout(prefix, row)
    requires |prefix + bridge| == PairSlot(row, 0)
    requires |pairs| == 2 * COLS
    requires forall c :: 0 <= c < COLS ==> pairs[2 * c] == StripVertex(row, c) && pairs[2 * c + 1] == StripVertex(row, c) + COLS
    ensures var idx := prefix + bridge + pairs;
      forall r, c {:trigger PairSlot(r, c)} :: 0 <= r < row + 1 && 0 <= c < COLS ==>
        idx[PairSlot(r, c)] == StripVertex(r, c) && idx[PairSlot(r, c) + 1] == StripVertex(r, c) + COLS
  {
    var idx := prefix + bridge + pairs;
    forall r, c | 0 <= r < row + 1 && 0 <= c < COLS
      ensures idx[PairSlot(r, c)] == StripVertex(r, c) && idx[PairSlot(r, c) + 1] == StripVertex(r, c) + COLS
    {
      var k := PairSlot(r, c);
      if r < row {
        assert k + 1 < |prefix|;
        assert prefix[k] == StripVertex(r, c) && prefix[k + 1] == StripVertex(r, c) + COLS;
        assert idx[k] == prefix[k] && idx[k + 1] == prefix[k + 1];
      } else {
        assert k == |prefix + bridge| + 2 * c;
        assert idx[k] == pairs[2 * c] && idx[k + 1] == pairs[2 * c + 1];
      }
    }
  }

  lemma BridgesExtend(prefix: seq<int>, bridge: seq<int>, pairs: seq<int>, row: int)
    requires 0 <= row < ROWS - 1
    requires PrefixLayout(prefix, row)
    requires bridge == if row > 0 then [prefix[|prefix| - 1]] else []
    requires |pairs| == 2 * COLS
    ensures var idx := prefix + bridge + pairs;
      forall r :: 0 < r < row + 1 ==> idx[BridgeSlot(r)] == idx[BridgeSlot(r) - 1]
  {
    var idx := prefix + bridge + pairs;
    forall r | 0 < r < row + 1
      ensures idx[BridgeSlot(r)] == idx[BridgeSlot(r) - 1]
    {
      if r == row {
        assert BridgeSlot(r) == |prefix|;
        assert idx[BridgeSlot(r)] == bridge[0];
      } else {
        assert BridgeSlot(r) < |prefix|;
        assert idx[BridgeSlot(r)] == prefix[BridgeSlot(r)];
      }
      assert idx[BridgeSlot(r) - 1] == prefix[BridgeSlot(r) - 1];
    }
  }

  lemma RangeExtends(prefix: seq<int>, bridge: seq<int>, pairs: seq<int>, row: int)
    requires 0 <= row < ROWS - 1
    requires PrefixLayout(prefix, row)
    requires bridge == if row > 0 then [prefix[|prefix| - 1]] else []
    requires forall k :: 0 <= k < |pairs| ==> 0 <= pairs[k] < VERTEX_COUNT
    ensures var idx := prefix + bridge + pairs;
      forall k :: 0 <= k < |idx| ==> 0 <= idx[k] < VERTEX_COUNT
  {
    var idx := prefix + bridge + pairs;
    forall k | 0 <= k < |idx|
      ensures 0 <= idx[k] < VERTEX_COUNT
    {
      if k < |prefix| {
        assert idx[k] == prefix[k];
      } else if k < |prefix + bridge| {
        assert idx[k] == prefix[|prefix| - 1];
      } else {
        assert idx[k] == pairs[k - |prefix + bridge|];
      }
    }
  }

  /** The inner loop of the index construction: the 40 index pairs of one row,
      walking `vertexOffset` one column at a time from `start`. */
  method RowPairs(row: int, start: int) returns (pairs: seq<int>, vertexOffset: int)
    requires 0 <= row < ROWS - 1
    requires start == StripVertex(row, 0)
    ensures |pairs| == 2 * COLS
    ensures forall c :: 0 <= c < COLS ==> pairs[2 * c] == StripVertex(row, c) && pairs[2 * c + 1] == StripVertex(row, c) + COLS
    ensures forall k :: 0 <= k < |pairs| ==> 0 <= pairs[k] < VERTEX_COUNT
    ensures vertexOffset == StripVertex(row, COLS - 1)
  {
    pairs := [];
    vertexOffset := start;
    var col := 0;
    while col < COLS
      invariant 0 <= col <= COLS
      invariant |pairs| == 2 * col
      invariant vertexOffset == StripVertex(row, if col == 0 then 0 else col - 1)
      invariant forall c :: 0 <= c < col ==> pairs[2 * c] == StripVertex(row, c) && pairs[2 * c + 1] == StripVertex(row, c) + COLS
      invariant forall k :: 0 <= k < |pairs| ==> 0 <= pairs[k] < VERTEX_COUNT
    {
      if col > 0 {
        if row % 2 == 0 {
          vertexOffset := vertexOffset + 1;
        } else {
          vertexOffset := vertexOffset - 1;
        }
      }
      pairs := pairs + [vertexOffset, vertexOffset + COLS];
      col := col + 1;
    }
  }

  /** Each bridge also equals the index after it, the first of the next row:
      the strip turns the corner through degenerate triangles only. */
  lemma {:induction false} BridgesAreDegenerate(idx: seq<int>, row: int)
    requires StripLayout(idx)
    requires 0 < row < ROWS - 1
    ensures idx[BridgeSlot(row) - 1] == idx[BridgeSlot(row)] == idx[BridgeSlot(row) + 1]
  {
    assert BridgeSlot(row) - 1 == PairSlot(row - 1, COLS - 1) + 1;
    assert BridgeSlot(row) + 1 == PairSlot(row, 0);
    assert StripVertex(row - 1, COLS - 1) + COLS == StripVertex(row, 0);
  }

  /** The strip covers the grid: every vertex of the first 39 rows, and the one
      under it, is named by the index array. */
  lemma {:induction false} StripCoversGrid(idx: seq<int>, row: int, col: int)
    requires StripLayout(idx)
    requires 0 <= row < ROWS - 1 && 0 <= col < COLS
    ensures GridVertex(row, col) in idx && GridVertex(row + 1, col) in idx
  {
    var c := if row % 2 == 0 then col else 39 - col;
    assert StripVertex(row, c) == GridVertex(row, col);
    assert idx[PairSlot(row, c)] == GridVertex(row, col);
    assert idx[PairSlot(row, c) + 1] == GridVertex(row + 1, col);
  }
}
