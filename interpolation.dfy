/** Quaternion interpolation: slerp and nlerp, with their 180- and 360-degree wrappers. */
module Interpolation {
  import opened Libm
  import opened Vectors
  import opened Quaternions

  /** The two weights slerp_quatfl applies to a and b, after the long-path flip. */
  function SlerpWeights(lib: Libm, a: Quat, b: Quat, fact: real, r360: bool): (real, real)
  {
    var ct0 := DotQuat(a, b);
    var flip := r360 && ct0 < 1.0;
    var ct := if flip then -ct0 else ct0;
    var th := lib.acos(ct);
    var sth := lib.sin(th);
    var wa := if sth > 0.005 then lib.sin((1.0 - fact) * th) / sth else 1.0 - fact;
    var wb := if sth > 0.005 then lib.sin(fact * th) / sth else fact;
    (wa, if flip then -wb else wb)
  }

  /** Whether slerp_quatfl negates b's weight: the long path was asked for and
      the dot product is below 1. */
  predicate SlerpFlips(a: Quat, b: Quat, r360: bool)
  {
    r360 && DotQuat(a, b) < 1.0
  }

  /** slerp_quatfl: the weighted sum of a and b, not renormalised. Given only
      sin 0 = 0, it starts at a, and ends at b, or at -b when the long path
      flipped it. */
  function SlerpQuatFl(lib: Libm, a: Quat, b: Quat, fact: real, r360: bool): (r: Quat)
    ensures lib.sin(0.0) == 0.0 && fact == 0.0 ==> r == a
    ensures lib.sin(0.0) == 0.0 && fact == 1.0 && SlerpFlips(a, b, r360) ==> r == MulQuatF(b, -1.0)
    ensures lib.sin(0.0) == 0.0 && fact == 1.0 && !SlerpFlips(a, b, r360) ==> r == b
  {
    SlerpWeightsAtZero(lib, a, b, r360);
    SlerpWeightsAtOne(lib, a, b, r360);
    var w := SlerpWeights(lib, a, b, fact, r360);
    AddQuat(MulQuatF(a, w.0), MulQuatF(b, w.1))
  }

  /** At fact = 0 the weights are (1, 0), on both the trigonometric and the linear branch. */
  lemma SlerpWeightsAtZero(lib: Libm, a: Quat, b: Quat, r360: bool)
    ensures lib.sin(0.0) == 0.0 ==> SlerpWeights(lib, a, b, 0.0, r360) == (1.0, 0.0)
  {
    var ct0 := DotQuat(a, b);
    var th := lib.acos(if r360 && ct0 < 1.0 then -ct0 else ct0);
    var sth := lib.sin(th);
    assert (1.0 - 0.0) * th == th && 0.0 * th == 0.0;
    if sth > 0.005 {
      assert sth / sth == 1.0 && 0.0 / sth == 0.0;
    }
  }

  /** At fact = 1 the weights are (0, 1), or (0, -1) when b is flipped. */
  lemma SlerpWeightsAtOne(lib: Libm, a: Quat, b: Quat, r360: bool)
    ensures lib.sin(0.0) == 0.0 ==>
      SlerpWeights(lib, a, b, 1.0, r360) == (0.0, if SlerpFlips(a, b, r360) then -1.0 else 1.0)
  {
    var ct0 := DotQuat(a, b);
    var th := lib.acos(if r360 && ct0 < 1.0 then -ct0 else ct0);
    var sth := lib.sin(th);
    assert (1.0 - 1.0) * th == 0.0 && 1.0 * th == th;
    if sth > 0.005 {
      assert sth / sth == 1.0 && 0.0 / sth == 0.0;
    }
  }

  /** x*(1-f) + y*f is lerp_val(x, y, f); every value is a plain real. */
  lemma BlendIsLerp(x: real, y: real, f: real, lhs: real)
    requires lhs == x * (1.0 - f) + y * f
    ensures lhs == LerpVal(x, y, f)
  {
  }

  /** The same, for all four components of a quaternion blend. */
  lemma BlendIsLerpQuat(a: Quat, b: Quat, f: real, r: Quat)
    requires r == AddQuat(MulQuatF(a, 1.0 - f), MulQuatF(b, f))
    ensures r == Quat(LerpVal(a.x, b.x, f), LerpVal(a.y, b.y, f), LerpVal(a.z, b.z, f), LerpVal(a.w, b.w, f))
  {
    var sa, sb := MulQuatF(a, 1.0 - f), MulQuatF(b, f);
    assert r.x == sa.x + sb.x && r.y == sa.y + sb.y && r.z == sa.z + sb.z && r.w == sa.w + sb.w;
    BlendIsLerp(a.x, b.x, f, r.x);
    BlendIsLerp(a.y, b.y, f, r.y);
    BlendIsLerp(a.z, b.z, f, r.z);
    BlendIsLerp(a.w, b.w, f, r.w);
  }

  /** x*(1-f) + x*(-f) is x*(1-2f); every value is a plain real. */
  lemma SelfBlend(x: real, f: real, lhs: real)
    requires lhs == x * (1.0 - f) + x * -f
    ensures lhs == x * (1.0 - 2.0 * f)
  {
  }

  /** When sin(theta) is at most 0.005, the 180-degree slerp is the
      componentwise lerp_val of a and b. */
  lemma SlerpSmallAngleIsLerp(lib: Libm, a: Quat, b: Quat, fact: real)
    requires lib.sin(lib.acos(DotQuat(a, b))) <= 0.005
    ensures SlerpQuatFl(lib, a, b, fact, false)
         == Quat(LerpVal(a.x, b.x, fact), LerpVal(a.y, b.y, fact), LerpVal(a.z, b.z, fact), LerpVal(a.w, b.w, fact))
  {
    assert SlerpWeights(lib, a, b, fact, false) == (1.0 - fact, fact);
    BlendIsLerpQuat(a, b, fact, SlerpQuatFl(lib, a, b, fact, false));
  }

  /** slerp_quat180 */
  function SlerpQuat180(lib: Libm, a: Quat, b: Quat, fact: real): (r: Quat)
    ensures lib.sin(0.0) == 0.0 && fact == 0.0 ==> r == a
    ensures lib.sin(0.0) == 0.0 && fact == 1.0 ==> r == b
  {
    SlerpQuatFl(lib, a, b, fact, false)
  }

  /** slerp_quat360 */
  function SlerpQuat360(lib: Libm, a: Quat, b: Quat, fact: real): (r: Quat)
    ensures lib.sin(0.0) == 0.0 && fact == 0.0 ==> r == a
    ensures lib.sin(0.0) == 0.0 && fact == 1.0 && DotQuat(a, b) < 1.0 ==> r == MulQuatF(b, -1.0)
    ensures lib.sin(0.0) == 0.0 && fact == 1.0 && DotQuat(a, b) >= 1.0 ==> r == b
  {
    SlerpQuatFl(lib, a, b, fact, true)
  }

  /** The value nlerp_quatfl normalises: a at fact = 0, and b at fact = 1
      unless the long path replaced b. */
  function NlerpBlend(a: Quat, b: Quat, fact: real, r360: bool): (r: Quat)
    ensures fact == 0.0 ==> r == a
    ensures fact == 1.0 && !(r360 && DotQuat(a, b) < 0.0) ==> r == b
  {
    var tinv := 1.0 - fact;
    if r360 && DotQuat(a, b) < 0.0 then AddQuat(MulQuatF(a, tinv), MulQuatF(a, -fact))
    else AddQuat(MulQuatF(a, tinv), MulQuatF(b, fact))
  }

  /** Off the long path, the blend is the componentwise lerp_val of a and b. */
  lemma NlerpBlendShortPath(a: Quat, b: Quat, fact: real, r360: bool)
    requires !(r360 && DotQuat(a, b) < 0.0)
    ensures NlerpBlend(a, b, fact, r360)
         == Quat(LerpVal(a.x, b.x, fact), LerpVal(a.y, b.y, fact), LerpVal(a.z, b.z, fact), LerpVal(a.w, b.w, fact))
  {
    BlendIsLerpQuat(a, b, fact, NlerpBlend(a, b, fact, r360));
  }

  /** On the long path (r360 and a negative dot product) the blend mixes a with
      itself, a*(1-fact) + a*(-fact) = a*(1-2*fact), and b plays no part. */
  lemma NlerpBlendLongPath(a: Quat, b: Quat, fact: real)
    requires DotQuat(a, b) < 0.0
    ensures NlerpBlend(a, b, fact, true) == MulQuatF(a, 1.0 - 2.0 * fact)
  {
    var r := NlerpBlend(a, b, fact, true);
    SelfBlend(a.x, fact, r.x);
    SelfBlend(a.y, fact, r.y);
    SelfBlend(a.z, fact, r.z);
    SelfBlend(a.w, fact, r.w);
  }

  /** nlerp_quatfl: norm_quat of the blend. */
  function NlerpQuatFl(lib: Libm, a: Quat, b: Quat, fact: real, r360: bool): (r: Quat)
    requires NormQuatDefined(lib, NlerpBlend(a, b, fact, r360))
    ensures NearUnit(NlerpBlend(a, b, fact, r360)) ==> r == NlerpBlend(a, b, fact, r360)
  {
    NormQuat(lib, NlerpBlend(a, b, fact, r360))
  }

  /** On the long path nlerp does not depend on b at all. */
  lemma NlerpLongPathIgnoresB(lib: Libm, a: Quat, b1: Quat, b2: Quat, fact: real)
    requires DotQuat(a, b1) < 0.0 && DotQuat(a, b2) < 0.0
    requires NormQuatDefined(lib, NlerpBlend(a, b1, fact, true))
    ensures NormQuatDefined(lib, NlerpBlend(a, b2, fact, true))
    ensures NlerpQuatFl(lib, a, b1, fact, true) == NlerpQuatFl(lib, a, b2, fact, true)
  {
    NlerpBlendLongPath(a, b1, fact);
    NlerpBlendLongPath(a, b2, fact);
  }

  /** Consequently, halfway along the long path the blend is the zero quaternion. */
  lemma NlerpLongPathHalfway(a: Quat, b: Quat)
    requires DotQuat(a, b) < 0.0
    ensures NlerpBlend(a, b, 0.5, true) == Quat(0.0, 0.0, 0.0, 0.0)
  {
    NlerpBlendLongPath(a, b, 0.5);
  }

  /** nlerp_quat180 */
  function NlerpQuat180(lib: Libm, a: Quat, b: Quat, fact: real): (r: Quat)
    requires NormQuatDefined(lib, NlerpBlend(a, b, fact, false))
    ensures fact == 0.0 && NearUnit(a) ==> r == a
    ensures fact == 1.0 && NearUnit(b) ==> r == b
  {
    NlerpBlendShortPath(a, b, fact, false);
    NlerpQuatFl(lib, a, b, fact, false)
  }

  /** nlerp_quat360 */
  function NlerpQuat360(lib: Libm, a: Quat, b: Quat, fact: real): (r: Quat)
    requires NormQuatDefined(lib, NlerpBlend(a, b, fact, true))
    ensures fact == 0.0 && NearUnit(a) ==> r == a
    ensures fact == 1.0 && NearUnit(a) && DotQuat(a, b) < 0.0 ==> r == MulQuatF(a, -1.0)
  {
    if DotQuat(a, b) < 0.0 then
      NlerpBlendLongPath(a, b, fact);
      NlerpQuatFl(lib, a, b, fact, true)
    else
      NlerpBlendShortPath(a, b, fact, true);
      NlerpQuatFl(lib, a, b, fact, true)
  }
}
