/** The orientation record: three Euler angles in degrees and the rotation
    matrix cached from them, recomputed by update_view whenever the angles
    change. */
module Orientation {
  import opened Libm
  import opened Quaternions
  import opened Matrices
  import opened Euler
  import opened Rotations

  /** A caller-owned orientation; matr is the record's embedded 16-entry
      matrix. */
  class Orientation {
    var rollf: real
    var pitchf: real
    var yawf: real
    const matr: array<real>

    /** The embedded matrix has 16 entries. */
    predicate Valid()
      reads this
    {
      matr.Length == 16
    }

    /** The cached matrix is the one update_view derives from the stored
        angles. */
    predicate Consistent(lib: Libm)
      requires Valid()
      reads this, matr
    {
      matr[..] == QuatMatrix(ViewQuat(lib, rollf, pitchf, yawf))
    }

    constructor ()
      ensures Valid() && fresh(matr)
      ensures rollf == 0.0 && pitchf == 0.0 && yawf == 0.0
    {
      rollf, pitchf, yawf := 0.0, 0.0, 0.0;
      matr := new real[16];
    }
  }

  /** update_view: stores the three angles verbatim and overwrites the cached
      matrix with that of ViewQuat, re-establishing Consistent. */
  method UpdateView(lib: Libm, dst: Orientation, roll: real, pitch: real, yaw: real)
    requires dst.Valid()
    modifies dst, dst.matr
    ensures dst.Valid()
    ensures dst.rollf == roll && dst.pitchf == pitch && dst.yawf == yaw
    ensures dst.Consistent(lib)
  {
    dst.pitchf := pitch;
    dst.rollf := roll;
    dst.yawf := yaw;
    var pitchq := BuildQuat(lib, pitch, 1.0, 0.0, 0.0);
    var rollq := BuildQuat(lib, yaw, 0.0, 1.0, 0.0);
    var yawq := BuildQuat(lib, roll, 0.0, 0.0, 1.0);
    var res := MulQuat(MulQuat(pitchq, yawq), rollq);
    var _ := MatrQuatF(res, dst.matr);
  }

  /** At rest (all angles 0) the cached matrix is the identity. */
  lemma ViewMatrixAtRest(lib: Libm)
    requires lib.sin(0.0) == 0.0 && lib.cos(0.0) == 1.0
    ensures QuatMatrix(ViewQuat(lib, 0.0, 0.0, 0.0)) == Identity
  {
    BuildQuatEulerZero(lib);
    QuatMatrixOfUnit();
  }

  /** Half turns about all three axes also leave the identity, since the
      composed quaternion is the unit one (build_quat_euler would give its
      negation, which maps to the same matrix). */
  lemma ViewMatrixOfHalfTurns(lib: Libm)
    requires HalfTurnsAreUnits(lib)
    ensures QuatMatrix(ViewQuat(lib, 180.0, 180.0, 180.0)) == Identity
    ensures QuatMatrix(BuildQuatEuler(lib, 180.0, 180.0, 180.0)) == Identity
  {
    ViewOfHalfTurns(lib);
    EulerOfHalfTurns(lib);
    QuatMatrixOfUnit();
    QuatMatrixNegation(Unit);
  }
}
