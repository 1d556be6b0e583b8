/** Euler angles: decomposition of a quaternion, composition from angles
    (build_quat_euler and the order update_view uses), and look-at. */
module Euler {
  import opened Libm
  import opened Vectors
  import opened Quaternions

  /** angle_quat: roll, pitch and yaw in degrees, through atan2 and asin.
      The asin argument is passed on unclamped. The identity quaternion has
      all-zero angles, given atan2(0, 1) = 0 and asin 0 = 0. */
  function AngleQuat(lib: Libm, a: Quat): (r: Vector)
    requires lib.pi != 0.0
    ensures a == Unit && lib.atan2(0.0, 1.0) == 0.0 && lib.asin(0.0) == 0.0 ==> r == Zero
  {
    var sqw, sqx, sqy, sqz := a.w * a.w, a.x * a.x, a.y * a.y, a.z * a.z;
    var mpi := 180.0 / lib.pi;
    Vector(lib.atan2(2.0 * (a.x * a.y + a.z * a.w), sqx - sqy - sqz + sqw) * mpi,
           lib.asin(-2.0 * (a.x * a.z - a.y * a.w)) * mpi,
           lib.atan2(2.0 * (a.y * a.z + a.x * a.w), -sqx - sqy + sqz + sqw) * mpi)
  }

  /** angle_quat reads a quaternion only through these products of two components. */
  predicate SameAngleTerms(a: Quat, b: Quat)
  {
    && a.x * a.y + a.z * a.w == b.x * b.y + b.z * b.w
    && a.x * a.z - a.y * a.w == b.x * b.z - b.y * b.w
    && a.y * a.z + a.x * a.w == b.y * b.z + b.x * b.w
    && a.x * a.x == b.x * b.x && a.y * a.y == b.y * b.y
    && a.z * a.z == b.z * b.z && a.w * a.w == b.w * b.w
  }

  lemma SameAngles(lib: Libm, a: Quat, b: Quat)
    requires lib.pi != 0.0 && SameAngleTerms(a, b)
    ensures AngleQuat(lib, a) == AngleQuat(lib, b)
  {
  }

  /** q and -q, which stand for the same rotation, have the same Euler angles. */
  lemma AngleQuatNegation(lib: Libm, a: Quat)
    requires lib.pi != 0.0
    ensures AngleQuat(lib, MulQuatF(a, -1.0)) == AngleQuat(lib, a)
  {
    SameAngles(lib, MulQuatF(a, -1.0), a);
  }

  /** No clamp: for (1, 0, -1, 0) the pitch is asin evaluated at 2, outside asin's domain. */
  lemma AngleQuatUnclamped(lib: Libm)
    requires lib.pi != 0.0
    ensures AngleQuat(lib, Quat(1.0, 0.0, -1.0, 0.0)).y == lib.asin(2.0) * (180.0 / lib.pi)
  {
  }

  /** Rotations about the three axes, as build_quat_euler and update_view build them. */
  function RotX(lib: Libm, ang: real): Quat { BuildQuat(lib, ang, 1.0, 0.0, 0.0) }
  function RotY(lib: Libm, ang: real): Quat { BuildQuat(lib, ang, 0.0, 1.0, 0.0) }
  function RotZ(lib: Libm, ang: real): Quat { BuildQuat(lib, ang, 0.0, 0.0, 1.0) }

  /** build_quat_euler: (X(pitch) * Y(yaw)) * Z(roll). When one of the factors is
      the identity, the other two remain in that order. */
  function BuildQuatEuler(lib: Libm, roll: real, pitch: real, yaw: real): (r: Quat)
    ensures RotZ(lib, roll) == Unit ==> r == MulQuat(RotX(lib, pitch), RotY(lib, yaw))
    ensures RotY(lib, yaw) == Unit ==> r == MulQuat(RotX(lib, pitch), RotZ(lib, roll))
    ensures RotX(lib, pitch) == Unit ==> r == MulQuat(RotY(lib, yaw), RotZ(lib, roll))
  {
    var px, yy, rz := RotX(lib, pitch), RotY(lib, yaw), RotZ(lib, roll);
    MulQuatUnit(MulQuat(px, yy));
    MulQuatUnit(px);
    MulQuatUnit(yy);
    MulQuatUnit(rz);
    MulQuat(MulQuat(px, yy), rz)
  }

  /** The product update_view converts to a matrix: (X(pitch) * Z(roll)) * Y(yaw). */
  function ViewQuat(lib: Libm, roll: real, pitch: real, yaw: real): (r: Quat)
    ensures RotZ(lib, roll) == Unit ==> r == MulQuat(RotX(lib, pitch), RotY(lib, yaw))
    ensures RotY(lib, yaw) == Unit ==> r == MulQuat(RotX(lib, pitch), RotZ(lib, roll))
    ensures RotX(lib, pitch) == Unit ==> r == MulQuat(RotZ(lib, roll), RotY(lib, yaw))
  {
    var px, yy, rz := RotX(lib, pitch), RotY(lib, yaw), RotZ(lib, roll);
    MulQuatUnit(MulQuat(px, rz));
    MulQuatUnit(px);
    MulQuatUnit(yy);
    MulQuatUnit(rz);
    MulQuat(MulQuat(px, rz), yy)
  }

  /** All-zero angles give the identity quaternion, given sin 0 = 0 and cos 0 = 1. */
  lemma BuildQuatEulerZero(lib: Libm)
    requires lib.sin(0.0) == 0.0 && lib.cos(0.0) == 1.0
    ensures BuildQuatEuler(lib, 0.0, 0.0, 0.0) == Unit
    ensures ViewQuat(lib, 0.0, 0.0, 0.0) == Unit
  {
    BuildQuatZero(lib, 1.0, 0.0, 0.0);
    BuildQuatZero(lib, 0.0, 1.0, 0.0);
    BuildQuatZero(lib, 0.0, 0.0, 1.0);
    MulQuatUnit(Unit);
  }

  /** Half of 180 degrees has sine 1 and cosine 0, so each axis rotation by
      180 degrees is one of the unit quaternions i, j and k. */
  predicate HalfTurnsAreUnits(lib: Libm)
  {
    lib.sin(HalfAngle(lib, 180.0)) == 1.0 && lib.cos(HalfAngle(lib, 180.0)) == 0.0
  }

  lemma HalfTurnX(lib: Libm)
    requires HalfTurnsAreUnits(lib)
    ensures RotX(lib, 180.0) == Quat(1.0, 0.0, 0.0, 0.0)
  {
  }

  lemma HalfTurnY(lib: Libm)
    requires HalfTurnsAreUnits(lib)
    ensures RotY(lib, 180.0) == Quat(0.0, 1.0, 0.0, 0.0)
  {
  }

  lemma HalfTurnZ(lib: Libm)
    requires HalfTurnsAreUnits(lib)
    ensures RotZ(lib, 180.0) == Quat(0.0, 0.0, 1.0, 0.0)
  {
  }

  /** k*k = -1 */
  lemma SquareK(k: Quat)
    requires k == Quat(0.0, 0.0, 1.0, 0.0)
    ensures MulQuat(k, k) == Quat(0.0, 0.0, 0.0, -1.0)
  {
  }

  /** i*k = -j */
  lemma ProductIK(i: Quat, k: Quat)
    requires i == Quat(1.0, 0.0, 0.0, 0.0) && k == Quat(0.0, 0.0, 1.0, 0.0)
    ensures MulQuat(i, k) == Quat(0.0, -1.0, 0.0, 0.0)
  {
  }

  /** (-j)*j = 1 */
  lemma ProductMinusJJ(mj: Quat, j: Quat)
    requires mj == Quat(0.0, -1.0, 0.0, 0.0) && j == Quat(0.0, 1.0, 0.0, 0.0)
    ensures MulQuat(mj, j) == Unit
  {
  }

  /** build_quat_euler of three half turns: (i*j)*k = k*k = -1. */
  lemma EulerOfHalfTurns(lib: Libm)
    requires HalfTurnsAreUnits(lib)
    ensures BuildQuatEuler(lib, 180.0, 180.0, 180.0) == Quat(0.0, 0.0, 0.0, -1.0)
  {
    HalfTurnX(lib);
    HalfTurnY(lib);
    HalfTurnZ(lib);
    MulQuatNotCommutative(RotX(lib, 180.0), RotY(lib, 180.0));
    SquareK(RotZ(lib, 180.0));
  }

  /** update_view's product for the same angles: (i*k)*j = (-j)*j = 1. The two
      orders give different quaternions (-1 and 1) for the same three angles. */
  lemma ViewOfHalfTurns(lib: Libm)
    requires HalfTurnsAreUnits(lib)
    ensures ViewQuat(lib, 180.0, 180.0, 180.0) == Unit
  {
    HalfTurnX(lib);
    HalfTurnY(lib);
    HalfTurnZ(lib);
    ProductIK(RotX(lib, 180.0), RotZ(lib, 180.0));
    ProductMinusJJ(MulQuat(RotX(lib, 180.0), RotZ(lib, 180.0)), RotY(lib, 180.0));
  }

  /** quat_lookat: build_quat_euler of the acos of the normalised direction's
      components, which are radians handed to a function that expects degrees. */
  function QuatLookat(lib: Libm, pos: Vector, dstpos: Vector): (r: Quat)
    ensures lib.sqrt(0.0) == 0.0 && pos == dstpos ==>
      r == BuildQuatEuler(lib, lib.acos(0.0), lib.acos(0.0), lib.acos(0.0))
  {
    var diff := NormVector(lib, SubVector(dstpos, pos));
    var xang := lib.acos(Dotp(diff, BuildVect(1.0, 0.0, 0.0)));
    var yang := lib.acos(Dotp(diff, BuildVect(0.0, 1.0, 0.0)));
    var zang := lib.acos(Dotp(diff, BuildVect(0.0, 0.0, 1.0)));
    BuildQuatEuler(lib, xang, yang, zang)
  }

  /** quat_lookat depends only on the direction from pos to dstpos: moving
      both points by the same offset gives the same quaternion. */
  lemma QuatLookatTranslated(lib: Libm, pos: Vector, dstpos: Vector, t: Vector)
    ensures QuatLookat(lib, AddVector(pos, t), AddVector(dstpos, t)) == QuatLookat(lib, pos, dstpos)
  {
    assert SubVector(AddVector(dstpos, t), AddVector(pos, t)) == SubVector(dstpos, pos);
  }
}
