/** EyeParams.cs: one eye's render state, and the value types it owns
    (FieldOfView.cs and EyeTransform.cs are not part of this model; they are
    represented by the values the toolkit stores in them). */
module Eyes {
  import opened Common
  import opened Viewports

  /** `EyeParams.Eye` constants. */
  const MONOCULAR: int := 0
  const LEFT: int := 1
  const RIGHT: int := 2

  datatype Eye = Monocular | Left | Right

  function Code(e: Eye): int
  {
    match e
    case Monocular => MONOCULAR
    case Left => LEFT
    case Right => RIGHT
  }

  function FromCode(i: int): Option<Eye>
  {
    if i == MONOCULAR then Some(Monocular)
    else if i == LEFT then Some(Left)
    else if i == RIGHT then Some(Right)
    else None
  }

  /** The three constants are pairwise distinct: every eye has its own code and
      every code names at most one eye. */
  lemma CodeRoundTrip(e: Eye, i: int)
    ensures FromCode(Code(e)) == Some(e)
    ensures FromCode(i) == Some(e) <==> Code(e) == i
  {
  }

  /** Angles in degrees from the eye's optical axis to each frustum side. */
  datatype FieldOfView = FieldOfView(left: real, right: real, bottom: real, top: real)

  /** `new FieldOfView()`: four zero angles (the float defaults). */
  const NewFieldOfView: FieldOfView := FieldOfView(0.0, 0.0, 0.0, 0.0)

  /** The aspect ratio handed to the symmetric perspective: finite, or the IEEE
      infinity/NaN a zero screen height gives. */
  datatype Aspect = Finite(ratio: real) | NonFinite

  /** What the eye's perspective array was last filled with. */
  datatype Perspective =
    | NoPerspective
    | Symmetric(fovY: real, aspect: Aspect, zNear: real, zFar: real)   // Matrix.PerspectiveM
    | OffAxis(fov: FieldOfView, zNear: real, zFar: real)              // FieldOfView.toPerspectiveMatrix

  /** What the eye's view array was last filled with. */
  datatype EyeView =
    | NoEyeView
    | HeadView(m: seq<real>)                 // a copy of the head view
    | Translated(dx: real, m: seq<real>)     // translate(dx, 0, 0) * head view

  datatype EyeTransform = EyeTransform(eyeView: EyeView, perspective: Perspective)

  datatype EyeParams = EyeParams(eye: int, viewport: Viewport, fov: FieldOfView, transform: EyeTransform)

  /** `new EyeParams(eye)`: remembers the eye and owns a fresh zero viewport, a
      fresh field of view and an empty transform. */
  function NewEyeParams(eye: int): (r: EyeParams)
    ensures r.eye == eye
    ensures r.viewport == Viewport(0, 0, 0, 0)
    ensures r.fov == NewFieldOfView
    ensures r.transform.eyeView.NoEyeView? && r.transform.perspective.NoPerspective?
  {
    EyeParams(eye, NewViewport, NewFieldOfView, EyeTransform(NoEyeView, NoPerspective))
  }
}
