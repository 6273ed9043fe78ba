/** HeadTransform.cs: the predicted head pose as a 4x4 column-major GL matrix,
    and its bounds-checked accessors. */
module HeadPose {
  import opened Common

  type Matrix4 = m: seq<real> | |m| == 16 witness IdentityMatrix

  /** `Matrix.SetIdentityM`: ones at 0, 5, 10 and 15. */
  const IdentityMatrix: seq<real> :=
    [1.0, 0.0, 0.0, 0.0,  0.0, 1.0, 0.0, 0.0,  0.0, 0.0, 1.0, 0.0,  0.0, 0.0, 0.0, 1.0]

  datatype HeadTransform = HeadTransform(headView: Matrix4)

  /** `new HeadTransform()` holds the identity: entry k is 1 exactly on the
      diagonal, where k is a multiple of 5. */
  function NewHeadTransform(): (h: HeadTransform)
    ensures forall k :: 0 <= k < 16 ==> h.headView[k] == if k % 5 == 0 then 1.0 else 0.0
  {
    HeadTransform(IdentityMatrix)
  }

  /** `getHeadView(headView, offset)`: copies all sixteen entries to `offset`. */
  function GetHeadView(h: HeadTransform, out: seq<real>, offset: int): (r: Result<seq<real>>)
    requires IsInt32(offset) && |out| <= INT_MAX
    ensures r.Ok? <==> 0 <= offset && offset + 16 <= |out|
    ensures offset + 16 > |out| && IsInt32(offset + 16) ==> r == Err(IllegalArgument)
    ensures r.Ok? ==> WritesAt(out, offset, h.headView, r.value)
  {
    StoreAll(out, offset, h.headView)
  }

  /** `getTranslation`: the translation column, entries 12, 13, 14. */
  function GetTranslation(h: HeadTransform, out: seq<real>, offset: int): (r: Result<seq<real>>)
    requires IsInt32(offset) && |out| <= INT_MAX
    ensures r.Ok? <==> 0 <= offset && offset + 3 <= |out|
    ensures offset + 3 > |out| && IsInt32(offset + 3) ==> r == Err(IllegalArgument)
    ensures r.Ok? ==> WritesAt(out, offset, [h.headView[12], h.headView[13], h.headView[14]], r.value)
  {
    var m := h.headView;
    StoreAll(out, offset, [m[12], m[13], m[14]])
  }

  /** `getForwardVector`: the negated third row, entries 2, 6, 10. */
  function GetForwardVector(h: HeadTransform, out: seq<real>, offset: int): (r: Result<seq<real>>)
    requires IsInt32(offset) && |out| <= INT_MAX
    ensures r.Ok? <==> 0 <= offset && offset + 3 <= |out|
    ensures offset + 3 > |out| && IsInt32(offset + 3) ==> r == Err(IllegalArgument)
    ensures r.Ok? ==> WritesAt(out, offset, [-h.headView[2], -h.headView[6], -h.headView[10]], r.value)
  {
    var m := h.headView;
    StoreAll(out, offset, [-m[2], -m[6], -m[10]])
  }

  /** `getUpVector`: the second row, entries 1, 5, 9. */
  function GetUpVector(h: HeadTransform, out: seq<real>, offset: int): (r: Result<seq<real>>)
    requires IsInt32(offset) && |out| <= INT_MAX
    ensures r.Ok? <==> 0 <= offset && offset + 3 <= |out|
    ensures offset + 3 > |out| && IsInt32(offset + 3) ==> r == Err(IllegalArgument)
    ensures r.Ok? ==> WritesAt(out, offset, [h.headView[1], h.headView[5], h.headView[9]], r.value)
  {
    var m := h.headView;
    StoreAll(out, offset, [m[1], m[5], m[9]])
  }

  /** `getRightVector`: the first row, entries 0, 4, 8. */
  function GetRightVector(h: HeadTransform, out: seq<real>, offset: int): (r: Result<seq<real>>)
    requires IsInt32(offset) && |out| <= INT_MAX
    ensures r.Ok? <==> 0 <= offset && offset + 3 <= |out|
    ensures offset + 3 > |out| && IsInt32(offset + 3) ==> r == Err(IllegalArgument)
    ensures r.Ok? ==> WritesAt(out, offset, [h.headView[0], h.headView[4], h.headView[8]], r.value)
  {
    var m := h.headView;
    StoreAll(out, offset, [m[0], m[4], m[8]])
  }

  /** Which of the four extraction formulas `getQuaternion` uses. */
  datatype QuaternionBranch = WBranch | XBranch | YBranch | ZBranch

  function Trace(m: Matrix4): real { m[0] + m[5] + m[10] }

  function ChooseBranch(m: Matrix4): QuaternionBranch
  {
    if Trace(m) >= 0.0 then WBranch
    else if m[0] > m[5] && m[0] > m[10] then XBranch
    else if m[5] > m[10] then YBranch
    else ZBranch
  }

  /** The number whose square root the chosen branch takes. */
  function SqrtArgument(m: Matrix4): real
  {
    match ChooseBranch(m)
    case WBranch => Trace(m) + 1.0
    case XBranch => 1.0 + m[0] - m[5] - m[10]
    case YBranch => 1.0 + m[5] - m[0] - m[10]
    case ZBranch => 1.0 + m[10] - m[0] - m[5]
  }

  /** A non-negative trace takes the w formula; otherwise the branch follows the
      largest diagonal entry (m0, then m5, then m10). Either way the square root
      is taken of a number at least 1, so the formula's `0.5 / s` divides by a
      positive root whenever the root of a number >= 1 is positive. */
  lemma BranchFollowsLargestDiagonal(m: Matrix4)
    ensures ChooseBranch(m) == WBranch <==> Trace(m) >= 0.0
    ensures ChooseBranch(m) == XBranch ==> m[0] > m[5] && m[0] > m[10]
    ensures ChooseBranch(m) == YBranch ==> m[5] >= m[0] && m[5] > m[10]
    ensures ChooseBranch(m) == ZBranch ==> m[10] >= m[0] && m[10] >= m[5]
    ensures SqrtArgument(m) >= 1.0
  {
    if Trace(m) < 0.0 {
      var big := if ChooseBranch(m) == XBranch then m[0] else if ChooseBranch(m) == YBranch then m[5] else m[10];
      assert 3.0 * big >= Trace(m);
      assert SqrtArgument(m) == 1.0 + 2.0 * big - Trace(m);
    }
  }

  /** `getQuaternion`: writes [x, y, z, w] from the branch's formula. */
  function GetQuaternion(n: Numerics, h: HeadTransform, out: seq<real>, offset: int): (r: Result<seq<real>>)
    requires IsInt32(offset) && |out| <= INT_MAX
    ensures r.Ok? <==> 0 <= offset && offset + 4 <= |out|
    ensures offset + 4 > |out| && IsInt32(offset + 4) ==> r == Err(IllegalArgument)
    ensures r.Ok? ==> |r.value| == |out| && forall i :: 0 <= i < |out| && !(offset <= i < offset + 4) ==> r.value[i] == out[i]
    ensures r.Ok? && ChooseBranch(h.headView) == WBranch ==> r.value[offset + 3] == 0.5 * n.sqrt(SqrtArgument(h.headView))
    ensures r.Ok? && ChooseBranch(h.headView) == XBranch ==> r.value[offset] == 0.5 * n.sqrt(SqrtArgument(h.headView))
    ensures r.Ok? && ChooseBranch(h.headView) == YBranch ==> r.value[offset + 1] == 0.5 * n.sqrt(SqrtArgument(h.headView))
    ensures r.Ok? && ChooseBranch(h.headView) == ZBranch ==> r.value[offset + 2] == 0.5 * n.sqrt(SqrtArgument(h.headView))
  {
    var m := h.headView;
    var root := n.sqrt(SqrtArgument(m));
    var s := FDiv(0.5, root);
    var xyzw :=
      match ChooseBranch(m)
      case WBranch => [(m[9] - m[6]) * s, (m[2] - m[8]) * s, (m[4] - m[1]) * s, 0.5 * root]
      case XBranch => [root * 0.5, (m[4] + m[1]) * s, (m[2] + m[8]) * s, (m[9] - m[6]) * s]
      case YBranch => [(m[4] + m[1]) * s, root * 0.5, (m[9] + m[6]) * s, (m[2] - m[8]) * s]
      case ZBranch => [(m[2] + m[8]) * s, (m[9] + m[6]) * s, root * 0.5, (m[4] - m[1]) * s];
    StoreAll(out, offset, xyzw)
  }

  const GIMBAL_LOCK_EPSILON: real := 0.01

  /** sqrt(1 - m6^2), the cosine of the pitch whose sine is m6. */
  function CosPitch(n: Numerics, m: Matrix4): real
  {
    n.sqrt(1.0 - m[6] * m[6])
  }

  /** `getEulerAngles`: writes [-pitch, -yaw, -roll]; near gimbal lock
      (cos(pitch) below the epsilon) yaw is 0 and roll comes from the first column. */
  function GetEulerAngles(n: Numerics, h: HeadTransform, out: seq<real>, offset: int): (r: Result<seq<real>>)
    requires IsInt32(offset) && |out| <= INT_MAX
    ensures r.Ok? <==> 0 <= offset && offset + 3 <= |out|
    ensures offset + 3 > |out| && IsInt32(offset + 3) ==> r == Err(IllegalArgument)
    ensures r.Ok? ==> |r.value| == |out| && forall i :: 0 <= i < |out| && !(offset <= i < offset + 3) ==> r.value[i] == out[i]
    ensures r.Ok? ==> r.value[offset] == -n.asin(h.headView[6])
    ensures r.Ok? && CosPitch(n, h.headView) < GIMBAL_LOCK_EPSILON ==>
      r.value[offset + 1] == 0.0 && r.value[offset + 2] == -n.atan2(h.headView[1], h.headView[0])
    ensures r.Ok? && CosPitch(n, h.headView) >= GIMBAL_LOCK_EPSILON ==>
      r.value[offset + 1] == -n.atan2(-h.headView[2], h.headView[10]) && r.value[offset + 2] == -n.atan2(-h.headView[4], h.headView[5])
  {
    var m := h.headView;
    var pitch := n.asin(m[6]);
    var yawRoll :=
      if CosPitch(n, m) >= GIMBAL_LOCK_EPSILON then (n.atan2(-m[2], m[10]), n.atan2(-m[4], m[5]))
      else (0.0, n.atan2(m[1], m[0]));
    var angles := [-pitch, -yawRoll.0, -yawRoll.1];
    var r := StoreAll(out, offset, angles);
    assert r.Ok? ==> r.value[offset + 1] == angles[1] && r.value[offset + 2] == angles[2];
    r
  }
}
