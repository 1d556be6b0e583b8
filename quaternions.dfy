/** Quaternions (the `quat` value struct): construction, algebra,
    interpolation and Euler composition. */
module Quaternions {
  import opened Libm
  import opened Vectors

  datatype Quat = Quat(x: real, y: real, z: real, w: real)

  /** The rotation by zero: (0, 0, 0, 1). */
  const Unit := Quat(0.0, 0.0, 0.0, 1.0)

  /** Half of angdeg, converted to radians as build_quat does. */
  function HalfAngle(lib: Libm, angdeg: real): real
  {
    angdeg / 180.0 * lib.pi / 2.0
  }

  /** build_quat: the axis scaled by sin of the half angle, w the cosine of it. */
  function BuildQuat(lib: Libm, angdeg: real, vx: real, vy: real, vz: real): (r: Quat)
    ensures r.w == lib.cos(HalfAngle(lib, angdeg))
    ensures Vector(r.x, r.y, r.z) == MulVectorF(Vector(vx, vy, vz), lib.sin(HalfAngle(lib, angdeg)))
  {
    var ang := angdeg / 180.0 * lib.pi;
    assert ang / 2.0 == HalfAngle(lib, angdeg);
    var res := lib.sin(ang / 2.0);
    Quat(vx * res, vy * res, vz * res, lib.cos(ang / 2.0))
  }

  /** inv_quat: the conjugate; q times its conjugate is the real quaternion |q|^2. */
  function InvQuat(q: Quat): (r: Quat)
    ensures MulQuat(r, q) == Quat(0.0, 0.0, 0.0, DotQuat(q, q))
    ensures MulQuat(q, r) == Quat(0.0, 0.0, 0.0, DotQuat(q, q))
  {
    Quat(-q.x, -q.y, -q.z, q.w)
  }

  /** len_quat */
  function LenQuat(lib: Libm, q: Quat): (r: real)
    ensures r == lib.sqrt(DotQuat(q, q))
  {
    var sq := q.x * q.x + q.y * q.y + q.z * q.z + q.w * q.w;
    assert sq == DotQuat(q, q);
    lib.sqrt(sq)
  }

  /** The squared length norm_quat leaves alone. */
  predicate NearUnit(q: Quat)
  {
    0.99999 < DotQuat(q, q) < 1.000001
  }

  /** What norm_quat needs to avoid dividing by zero. */
  predicate NormQuatDefined(lib: Libm, q: Quat)
  {
    NearUnit(q) || lib.sqrt(DotQuat(q, q)) != 0.0
  }

  /** norm_quat: unchanged on the near-unit fast path, otherwise each
      component divided by sqrt of the squared length. */
  function NormQuat(lib: Libm, q: Quat): (r: Quat)
    requires NormQuatDefined(lib, q)
    ensures NearUnit(q) ==> r == q
    ensures !NearUnit(q) ==> MulQuatF(r, lib.sqrt(DotQuat(q, q))) == q
  {
    var val := q.x * q.x + q.y * q.y + q.z * q.z + q.w * q.w;
    assert val == DotQuat(q, q);
    if val > 0.99999 && val < 1.000001 then q
    else
      var s := lib.sqrt(val);
      Quat(q.x / s, q.y / s, q.z / s, q.w / s)
  }

  /** div_quatf, as written: w is taken from z. Multiplying back by v recovers
      x, y and z, and puts z where w was. */
  function DivQuatF(a: Quat, v: real): (r: Quat)
    requires v != 0.0
    ensures MulQuatF(r, v) == Quat(a.x, a.y, a.z, a.z)
  {
    Quat(a.x / v, a.y / v, a.z / v, a.z / v)
  }

  /** mul_quatf: scales every component; 1 leaves a unchanged and 0 gives the zero quaternion. */
  function MulQuatF(a: Quat, v: real): (r: Quat)
    ensures v == 1.0 ==> r == a
    ensures v == 0.0 ==> r == Quat(0.0, 0.0, 0.0, 0.0)
  {
    Quat(a.x * v, a.y * v, a.z * v, a.w * v)
  }

  /** Scaling by v scales the squared length by v*v. */
  lemma MulQuatFLength(a: Quat, v: real)
    ensures DotQuat(MulQuatF(a, v), MulQuatF(a, v)) == v * v * DotQuat(a, a)
  {
  }

  /** Scaling twice is scaling once by the product. */
  lemma MulQuatFCompose(a: Quat, u: real, v: real)
    ensures MulQuatF(MulQuatF(a, u), v) == MulQuatF(a, u * v)
  {
  }

  /** mul_quat: the Hamilton product (MulQuatUnit, MulQuatAssociative). */
  function MulQuat(a: Quat, b: Quat): Quat
  {
    Quat(a.w * b.x + a.x * b.w + a.y * b.z - a.z * b.y,
         a.w * b.y + a.y * b.w + a.z * b.x - a.x * b.z,
         a.w * b.z + a.z * b.w + a.x * b.y - a.y * b.x,
         a.w * b.w - a.x * b.x - a.y * b.y - a.z * b.z)
  }

  /** add_quat */
  function AddQuat(a: Quat, b: Quat): (r: Quat)
    ensures b == Quat(0.0, 0.0, 0.0, 0.0) ==> r == a
    ensures a == b ==> r == MulQuatF(a, 2.0)
  {
    Quat(a.x + b.x, a.y + b.y, a.z + b.z, a.w + b.w)
  }

  /** dot_quat */
  function DotQuat(a: Quat, b: Quat): (r: real)
    ensures a == b ==> r >= 0.0
  {
    a.x * b.x + a.y * b.y + a.z * b.z + a.w * b.w
  }

  /** One component of associativity, with the inner products passed as plain
      reals (ab for a*b, bc for b*c, and the two sides of the component) so
      that the solver can substitute them. */
  lemma HamiltonAssociativeX(a: Quat, b: Quat, c: Quat,
                             abx: real, aby: real, abz: real, abw: real,
                             bcx: real, bcy: real, bcz: real, bcw: real, lhs: real, rhs: real)
    requires abx == a.w * b.x + a.x * b.w + a.y * b.z - a.z * b.y
    requires aby == a.w * b.y + a.y * b.w + a.z * b.x - a.x * b.z
    requires abz == a.w * b.z + a.z * b.w + a.x * b.y - a.y * b.x
    requires abw == a.w * b.w - a.x * b.x - a.y * b.y - a.z * b.z
    requires bcx == b.w * c.x + b.x * c.w + b.y * c.z - b.z * c.y
    requires bcy == b.w * c.y + b.y * c.w + b.z * c.x - b.x * c.z
    requires bcz == b.w * c.z + b.z * c.w + b.x * c.y - b.y * c.x
    requires bcw == b.w * c.w - b.x * c.x - b.y * c.y - b.z * c.z
    requires lhs == abw * c.x + abx * c.w + aby * c.z - abz * c.y
    requires rhs == a.w * bcx + a.x * bcw + a.y * bcz - a.z * bcy
    ensures lhs == rhs
  {
  }

  lemma HamiltonAssociativeY(a: Quat, b: Quat, c: Quat,
                             abx: real, aby: real, abz: real, abw: real,
                             bcx: real, bcy: real, bcz: real, bcw: real, lhs: real, rhs: real)
    requires abx == a.w * b.x + a.x * b.w + a.y * b.z - a.z * b.y
    requires aby == a.w * b.y + a.y * b.w + a.z * b.x - a.x * b.z
    requires abz == a.w * b.z + a.z * b.w + a.x * b.y - a.y * b.x
    requires abw == a.w * b.w - a.x * b.x - a.y * b.y - a.z * b.z
    requires bcx == b.w * c.x + b.x * c.w + b.y * c.z - b.z * c.y
    requires bcy == b.w * c.y + b.y * c.w + b.z * c.x - b.x * c.z
    requires bcz == b.w * c.z + b.z * c.w + b.x * c.y - b.y * c.x
    requires bcw == b.w * c.w - b.x * c.x - b.y * c.y - b.z * c.z
    requires lhs == abw * c.y + aby * c.w + abz * c.x - abx * c.z
    requires rhs == a.w * bcy + a.y * bcw + a.z * bcx - a.x * bcz
    ensures lhs == rhs
  {
  }

  lemma HamiltonAssociativeZ(a: Quat, b: Quat, c: Quat,
                             abx: real, aby: real, abz: real, abw: real,
                             bcx: real, bcy: real, bcz: real, bcw: real, lhs: real, rhs: real)
    requires abx == a.w * b.x + a.x * b.w + a.y * b.z - a.z * b.y
    requires aby == a.w * b.y + a.y * b.w + a.z * b.x - a.x * b.z
    requires abz == a.w * b.z + a.z * b.w + a.x * b.y - a.y * b.x
    requires abw == a.w * b.w - a.x * b.x - a.y * b.y - a.z * b.z
    requires bcx == b.w * c.x + b.x * c.w + b.y * c.z - b.z * c.y
    requires bcy == b.w * c.y + b.y * c.w + b.z * c.x - b.x * c.z
    requires bcz == b.w * c.z + b.z * c.w + b.x * c.y - b.y * c.x
    requires bcw == b.w * c.w - b.x * c.x - b.y * c.y - b.z * c.z
    requires lhs == abw * c.z + abz * c.w + abx * c.y - aby * c.x
    requires rhs == a.w * bcz + a.z * bcw + a.x * bcy - a.y * bcx
    ensures lhs == rhs
  {
  }

  lemma HamiltonAssociativeW(a: Quat, b: Quat, c: Quat,
                             abx: real, aby: real, abz: real, abw: real,
                             bcx: real, bcy: real, bcz: real, bcw: real, lhs: real, rhs: real)
    requires abx == a.w * b.x + a.x * b.w + a.y * b.z - a.z * b.y
    requires aby == a.w * b.y + a.y * b.w + a.z * b.x - a.x * b.z
    requires abz == a.w * b.z + a.z * b.w + a.x * b.y - a.y * b.x
    requires abw == a.w * b.w - a.x * b.x - a.y * b.y - a.z * b.z
    requires bcx == b.w * c.x + b.x * c.w + b.y * c.z - b.z * c.y
    requires bcy == b.w * c.y + b.y * c.w + b.z * c.x - b.x * c.z
    requires bcz == b.w * c.z + b.z * c.w + b.x * c.y - b.y * c.x
    requires bcw == b.w * c.w - b.x * c.x - b.y * c.y - b.z * c.z
    requires lhs == abw * c.w - abx * c.x - aby * c.y - abz * c.z
    requires rhs == a.w * bcw - a.x * bcx - a.y * bcy - a.z * bcz
    ensures lhs == rhs
  {
  }

  /** The components of a Hamilton product, as separate facts. */
  lemma HamiltonUnfold(a: Quat, b: Quat)
    ensures MulQuat(a, b).x == a.w * b.x + a.x * b.w + a.y * b.z - a.z * b.y
    ensures MulQuat(a, b).y == a.w * b.y + a.y * b.w + a.z * b.x - a.x * b.z
    ensures MulQuat(a, b).z == a.w * b.z + a.z * b.w + a.x * b.y - a.y * b.x
    ensures MulQuat(a, b).w == a.w * b.w - a.x * b.x - a.y * b.y - a.z * b.z
  {
  }

  /** One component of associativity at the level of quaternions. */
  lemma AssociativeComponentX(a: Quat, b: Quat, c: Quat)
    ensures MulQuat(MulQuat(a, b), c).x == MulQuat(a, MulQuat(b, c)).x
  {
    var ab, bc := MulQuat(a, b), MulQuat(b, c);
    HamiltonUnfold(a, b);
    HamiltonUnfold(b, c);
    HamiltonAssociativeX(a, b, c, ab.x, ab.y, ab.z, ab.w, bc.x, bc.y, bc.z, bc.w,
                         MulQuat(ab, c).x, MulQuat(a, bc).x);
  }

  lemma AssociativeComponentY(a: Quat, b: Quat, c: Quat)
    ensures MulQuat(MulQuat(a, b), c).y == MulQuat(a, MulQuat(b, c)).y
  {
    var ab, bc := MulQuat(a, b), MulQuat(b, c);
    HamiltonUnfold(a, b);
    HamiltonUnfold(b, c);
    HamiltonAssociativeY(a, b, c, ab.x, ab.y, ab.z, ab.w, bc.x, bc.y, bc.z, bc.w,
                         MulQuat(ab, c).y, MulQuat(a, bc).y);
  }

  lemma AssociativeComponentZ(a: Quat, b: Quat, c: Quat)
    ensures MulQuat(MulQuat(a, b), c).z == MulQuat(a, MulQuat(b, c)).z
  {
    var ab, bc := MulQuat(a, b), MulQuat(b, c);
    HamiltonUnfold(a, b);
    HamiltonUnfold(b, c);
    HamiltonAssociativeZ(a, b, c, ab.x, ab.y, ab.z, ab.w, bc.x, bc.y, bc.z, bc.w,
                         MulQuat(ab, c).z, MulQuat(a, bc).z);
  }

  lemma AssociativeComponentW(a: Quat, b: Quat, c: Quat)
    ensures MulQuat(MulQuat(a, b), c).w == MulQuat(a, MulQuat(b, c)).w
  {
    var ab, bc := MulQuat(a, b), MulQuat(b, c);
    HamiltonUnfold(a, b);
    HamiltonUnfold(b, c);
    HamiltonAssociativeW(a, b, c, ab.x, ab.y, ab.z, ab.w, bc.x, bc.y, bc.z, bc.w,
                         MulQuat(ab, c).w, MulQuat(a, bc).w);
  }

  /** mul_quat is associative over the reals. */
  lemma MulQuatAssociative(a: Quat, b: Quat, c: Quat)
    ensures MulQuat(MulQuat(a, b), c) == MulQuat(a, MulQuat(b, c))
  {
    AssociativeComponentX(a, b, c);
    AssociativeComponentY(a, b, c);
    AssociativeComponentZ(a, b, c);
    AssociativeComponentW(a, b, c);
  }

  /** (0, 0, 0, 1) is a left and a right identity of mul_quat. */
  lemma MulQuatUnit(q: Quat)
    ensures MulQuat(Unit, q) == q
    ensures MulQuat(q, Unit) == q
  {
  }

  /** mul_quat is not commutative: i*j = k but j*i = -k. */
  lemma MulQuatNotCommutative(i: Quat, j: Quat)
    requires i == Quat(1.0, 0.0, 0.0, 0.0) && j == Quat(0.0, 1.0, 0.0, 0.0)
    ensures MulQuat(i, j) == Quat(0.0, 0.0, 1.0, 0.0)
    ensures MulQuat(j, i) == Quat(0.0, 0.0, -1.0, 0.0)
  {
  }

  lemma InvQuatInvolution(q: Quat)
    ensures InvQuat(InvQuat(q)) == q
    ensures DotQuat(InvQuat(q), InvQuat(q)) == DotQuat(q, q)
  {
  }

  /** div_quatf as written: dividing (1, 2, 3, 4) by 1 gives w = 3, not 4. */
  lemma DivQuatFTakesWFromZ()
    ensures DivQuatF(Quat(1.0, 2.0, 3.0, 4.0), 1.0) == Quat(1.0, 2.0, 3.0, 3.0)
  {
  }

  /** d = ss * x with ss = d > 0 forces x = 1. */
  lemma CancelPositive(x: real, ss: real, d: real)
    requires d == ss * x && ss == d && d > 0.0
    ensures x == 1.0
  {
    assert (x - 1.0) * d == 0.0;
  }

  /** Off the fast path, when lib.sqrt is a square root at the squared length,
      norm_quat's result has squared length exactly 1. */
  lemma NormQuatSlowPathUnit(lib: Libm, q: Quat)
    requires !NearUnit(q) && DotQuat(q, q) > 0.0
    requires lib.sqrt(DotQuat(q, q)) * lib.sqrt(DotQuat(q, q)) == DotQuat(q, q)
    ensures NormQuatDefined(lib, q)
    ensures DotQuat(NormQuat(lib, q), NormQuat(lib, q)) == 1.0
  {
    var s := lib.sqrt(DotQuat(q, q));
    var r := NormQuat(lib, q);
    MulQuatFLength(r, s);
    CancelPositive(DotQuat(r, r), s * s, DotQuat(q, q));
  }

  /** Hence, under that premise, norm_quat's result always lies in the near-unit band. */
  lemma NormQuatNearUnit(lib: Libm, q: Quat)
    requires DotQuat(q, q) > 0.0
    requires lib.sqrt(DotQuat(q, q)) * lib.sqrt(DotQuat(q, q)) == DotQuat(q, q)
    ensures NormQuatDefined(lib, q)
    ensures NearUnit(NormQuat(lib, q))
  {
    if !NearUnit(q) {
      NormQuatSlowPathUnit(lib, q);
    }
  }

  /** Under the same premise norm_quat is idempotent: its result takes the fast path. */
  lemma NormQuatIdempotent(lib: Libm, q: Quat)
    requires DotQuat(q, q) > 0.0
    requires lib.sqrt(DotQuat(q, q)) * lib.sqrt(DotQuat(q, q)) == DotQuat(q, q)
    ensures NormQuatDefined(lib, q)
    ensures NormQuatDefined(lib, NormQuat(lib, q))
    ensures NormQuat(lib, NormQuat(lib, q)) == NormQuat(lib, q)
  {
    NormQuatNearUnit(lib, q);
  }

  /** With a unit axis and the Pythagorean identity at the half angle as a
      premise, build_quat yields a unit quaternion. */
  lemma BuildQuatUnit(lib: Libm, angdeg: real, vx: real, vy: real, vz: real)
    requires vx * vx + vy * vy + vz * vz == 1.0
    requires var h := HalfAngle(lib, angdeg); lib.sin(h) * lib.sin(h) + lib.cos(h) * lib.cos(h) == 1.0
    ensures DotQuat(BuildQuat(lib, angdeg, vx, vy, vz), BuildQuat(lib, angdeg, vx, vy, vz)) == 1.0
  {
    var h := HalfAngle(lib, angdeg);
    var sn, cs := lib.sin(h), lib.cos(h);
    var q := BuildQuat(lib, angdeg, vx, vy, vz);
    assert q == Quat(vx * sn, vy * sn, vz * sn, cs);
    assert DotQuat(q, q) == (vx * vx + vy * vy + vz * vz) * (sn * sn) + cs * cs;
  }

  /** A rotation by zero degrees is the identity quaternion whatever the axis. */
  lemma BuildQuatZero(lib: Libm, vx: real, vy: real, vz: real)
    requires lib.sin(0.0) == 0.0 && lib.cos(0.0) == 1.0
    ensures BuildQuat(lib, 0.0, vx, vy, vz) == Unit
  {
    assert HalfAngle(lib, 0.0) == 0.0;
  }
}
