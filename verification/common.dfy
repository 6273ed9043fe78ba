/** Shared vocabulary: optional and fallible results, the C# `equals(Object)`
    argument, the C#/Java numeric conversions the toolkit relies on, and the
    floating-point and trigonometric functions that are kept uninterpreted. */
module Common {

  datatype Option<+T> = None | Some(value: T)

  /** The exceptions the modelled code can raise. */
  datatype Error =
    | IllegalArgument      // "Not enough space to write the result"
    | IndexOutOfRange      // an array store or load outside the array
    | IllegalState         // an invalid volume-keys mode
    | DivideByZero         // C# integer division by zero
    | NullReference        // a member used before the field holding it was set

  datatype Result<+T> = Ok(value: T) | Err(error: Error)

  /** What `equals(Object other)` can be handed: null, the receiver itself,
      an object of another class, or another instance of the receiver's class. */
  datatype ObjectArg<+T> = Null | SameInstance | OtherType | Instance(obj: T)

  const INT_MIN: int := -0x8000_0000
  const INT_MAX: int := 0x7fff_ffff

  predicate IsInt32(x: int) { INT_MIN <= x <= INT_MAX }

  /** 32-bit two's-complement wrap-around of a mathematical integer. */
  function Wrap32(x: int): (r: int)
    ensures IsInt32(r)
    ensures (r - x) % 0x1_0000_0000 == 0
    ensures IsInt32(x) ==> r == x
  {
    (x - INT_MIN) % 0x1_0000_0000 + INT_MIN
  }

  /** C# integer division, which truncates toward zero (Dafny's `/` is Euclidean). */
  function CsDiv(a: int, b: int): (r: int)
    requires b != 0
    ensures a >= 0 && b > 0 ==> r == a / b
    ensures a < 0 && b > 0 ==> r == -((-a) / b)
    ensures (a >= 0) == (b > 0) || a == 0 ==> r >= 0
  {
    if (a >= 0) == (b > 0) then (if a >= 0 then a / b else (-a) / (-b))
    else -(if a >= 0 then a / (-b) else (-a) / b)
  }

  /** C#'s `(int)x` on a float: truncation toward zero (the result of an
      out-of-range conversion is unspecified in C# and not modelled). */
  function TruncToInt(x: real): (r: int)
    ensures x >= 0.0 ==> r as real <= x < r as real + 1.0
    ensures x < 0.0 ==> r as real - 1.0 < x <= r as real
  {
    if x >= 0.0 then x.Floor else -((-x).Floor)
  }

  /** Java's `Math.round(float)`: floor(x + 0.5), saturated to the int range. */
  function RoundToInt(x: real): (r: int)
    ensures IsInt32(r)
    ensures IsInt32((x + 0.5).Floor) ==> r as real <= x + 0.5 < r as real + 1.0
  {
    var f := (x + 0.5).Floor;
    if f < INT_MIN then INT_MIN else if f > INT_MAX then INT_MAX else f
  }

  /** Float division. Only a non-zero divisor has a modelled quotient; IEEE
      infinities and NaN are outside the model and read as 0.0. */
  function FDiv(a: real, b: real): (r: real)
    ensures b != 0.0 ==> r * b == a
  {
    if b == 0.0 then 0.0 else a / b
  }

  function MinR(a: real, b: real): (r: real)
    ensures r <= a && r <= b && (r == a || r == b)
  {
    if a <= b then a else b
  }

  function MaxR(a: real, b: real): (r: real)
    ensures r >= a && r >= b && (r == a || r == b)
  {
    if a >= b then a else b
  }

  /** `res` is `out` with `vals` stored from `offset` on and nothing else changed. */
  ghost predicate WritesAt<T>(out: seq<T>, offset: int, vals: seq<T>, res: seq<T>)
  {
    && |res| == |out|
    && 0 <= offset && offset + |vals| <= |out|
    && res[offset..offset + |vals|] == vals
    && forall i :: 0 <= i < |out| && !(offset <= i < offset + |vals|) ==> res[i] == out[i]
  }

  /** The toolkit's bounds-checked array writer: `if (offset + n > out.Length)
      throw new IllegalArgumentException(...)` followed by the stores
      `out[offset + i] = vals[i]`. The guard is evaluated in 32-bit arithmetic,
      so an offset near the int maximum wraps past it and faults on the store. */
  function StoreAll<T>(out: seq<T>, offset: int, vals: seq<T>): (r: Result<seq<T>>)
    requires IsInt32(offset) && |out| <= INT_MAX && |vals| <= 16
    ensures r.Ok? <==> 0 <= offset && offset + |vals| <= |out|
    ensures offset + |vals| > |out| && IsInt32(offset + |vals|) ==> r == Err(IllegalArgument)
    ensures r.Ok? ==> WritesAt(out, offset, vals, r.value)
    ensures r.Ok? ==> forall i :: 0 <= i < |vals| ==> r.value[offset + i] == vals[i]
  {
    if Wrap32(offset + |vals|) > |out| then Err(IllegalArgument)
    else if offset < 0 || offset + |vals| > |out| then Err(IndexOutOfRange)
    else Ok(out[..offset] + vals + out[offset + |vals|..])
  }

  /** A viewer's radial lens distortion. Distortion.cs is not part of this model:
      a lens is either the default one or given by its coefficients, and a copy
      of a lens is the same value. */
  datatype Distortion = DefaultLens | Custom(coefficients: seq<real>)

  /** Sensor and geometry math the toolkit delegates to platform libraries and to
      the lens model, kept uninterpreted. */
  datatype Numerics = Numerics(
    sqrt: real -> real,               // (float)Math.Sqrt
    asin: real -> real,               // (float)Math.Asin, radians
    atan2: (real, real) -> real,      // (float)Math.Atan2(y, x), radians
    tanDeg: real -> real,             // (float)Math.Tan(Math.ToRadians(a))
    atan2Deg: (real, real) -> real,   // (float)Math.ToDegrees(Math.Atan2(y, x))
    distort: (Distortion, real) -> real,       // Distortion.distort(r)
    distortInverse: (Distortion, real) -> real // Distortion.distortInverse(r)
  )

  /** The two facts about the square root the model depends on. */
  ghost predicate SqrtLaws(n: Numerics)
  {
    n.sqrt(0.0) == 0.0 && forall x :: n.sqrt(x) >= 0.0
  }
}
