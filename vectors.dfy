/** Three-component vectors (the `vector` value struct) and their algebra. */
module Vectors {
  import opened Libm

  datatype Vector = Vector(x: real, y: real, z: real)

  const Zero := Vector(0.0, 0.0, 0.0)

  /** build_vect */
  function BuildVect(x: real, y: real, z: real): (r: Vector)
    ensures r.x == x && r.y == y && r.z == z
  {
    Vector(x, y, z)
  }

  /** build_vect_polar: z is sin(phi) and does not depend on theta. */
  function BuildVectPolar(lib: Libm, phi: real, theta: real): (r: Vector)
    ensures r.z == lib.sin(phi)
    ensures r.x * lib.sin(theta) == r.y * lib.cos(theta)
  {
    Vector(lib.sin(phi) * lib.cos(theta), lib.sin(phi) * lib.sin(theta), lib.sin(phi))
  }

  /** mul_vectorf: every component scaled by f (MulVectorFLength). */
  function MulVectorF(a: Vector, f: real): (r: Vector)
  {
    Vector(a.x * f, a.y * f, a.z * f)
  }

  /** dotp_vector */
  function Dotp(a: Vector, b: Vector): (r: real)
    ensures a == b ==> r >= 0.0
  {
    a.x * b.x + a.y * b.y + a.z * b.z
  }

  /** len_vector */
  function LenVector(lib: Libm, v: Vector): (r: real)
    ensures r == lib.sqrt(Dotp(v, v))
  {
    var sq := v.x * v.x + v.y * v.y + v.z * v.z;
    assert sq == Dotp(v, v);
    lib.sqrt(sq)
  }

  /** crossp_vector: the right-handed cross product (CrosspOrthogonal,
      CrosspAnticommutes). */
  function Crossp(a: Vector, b: Vector): (r: Vector)
  {
    Vector(a.y * b.z - a.z * b.y, a.z * b.x - a.x * b.z, a.x * b.y - a.y * b.x)
  }

  /** add_vector */
  function AddVector(a: Vector, b: Vector): (r: Vector)
    ensures SubVector(r, b) == a
  {
    Vector(a.x + b.x, a.y + b.y, a.z + b.z)
  }

  /** sub_vector */
  function SubVector(a: Vector, b: Vector): (r: Vector)
    ensures r == Zero <==> a == b
  {
    Vector(a.x - b.x, a.y - b.y, a.z - b.z)
  }

  /** mul_vector: componentwise product. */
  function MulVector(a: Vector, b: Vector): (r: Vector)
    ensures b == Vector(1.0, 1.0, 1.0) ==> r == a
    ensures b == Zero ==> r == Zero
  {
    Vector(a.x * b.x, a.y * b.y, a.z * b.z)
  }

  /** norm_vector, as written: below a length of 1e-7 the zero vector, otherwise
      every component is MULTIPLIED by the length (see NormVectorSquaredLength). */
  function NormVector(lib: Libm, v: Vector): (r: Vector)
    ensures LenVector(lib, v) < 0.0000001 ==> r == Zero
    ensures LenVector(lib, v) >= 0.0000001 ==> r == MulVectorF(v, LenVector(lib, v))
  {
    var len := LenVector(lib, v);
    if len < 0.0000001 then Zero
    else Vector(v.x * len, v.y * len, v.z * len)
  }

  /** Given sqrt 0 = 0, the zero vector normalises to itself. */
  lemma NormVectorOfZero(lib: Libm)
    requires lib.sqrt(0.0) == 0.0
    ensures NormVector(lib, Zero) == Zero
  {
  }

  /** lerp_val: unrestricted affine blend (fact is not clamped to [0, 1]). */
  function LerpVal(a: real, b: real, fact: real): (r: real)
    ensures fact == 0.0 ==> r == a
    ensures fact == 1.0 ==> r == b
  {
    a + fact * (b - a)
  }

  /** lerp_fract: the fraction of the interval [startt, endt] that ct has
      covered, ct clamped at endt (not at startt). EPSILON, a build constant,
      is the parameter epsilon; it cancels out, so the fraction is the plain
      ratio (min(ct, endt) - startt) / (endt - startt). */
  function LerpFract(startt: nat, endt: nat, ct: real, epsilon: real): (r: real)
    requires startt != endt
    ensures r == ((if ct > endt as real then endt as real else ct) - startt as real) / (endt as real - startt as real)
  {
    var startf := startt as real + epsilon;
    var endf := endt as real + epsilon;
    var ct' := if ct > endt as real then endt as real else ct;
    var cf := ct' - startf + epsilon;
    var span := endf - startf;
    assert span == endt as real - startt as real && span != 0.0;
    cf / span
  }

  /** lerp_fract is 1 from endt on, and 0 at startt when startt < endt (when
      startt > endt, ct = startt is clamped to endt and gives 1). */
  lemma LerpFractEndpoints(startt: nat, endt: nat, ct: real, epsilon: real)
    requires startt != endt
    ensures ct >= endt as real ==> LerpFract(startt, endt, ct, epsilon) == 1.0
    ensures startt < endt ==> LerpFract(startt, endt, startt as real, epsilon) == 0.0
    ensures startt > endt ==> LerpFract(startt, endt, startt as real, epsilon) == 1.0
  {
    var span := endt as real - startt as real;
    assert span / span == 1.0;
  }

  /** lerp_vector: lerp_val on each component. */
  function LerpVector(a: Vector, b: Vector, fact: real): (r: Vector)
    ensures r == Vector(LerpVal(a.x, b.x, fact), LerpVal(a.y, b.y, fact), LerpVal(a.z, b.z, fact))
    ensures fact == 0.0 ==> r == a
    ensures fact == 1.0 ==> r == b
  {
    var x := a.x + fact * (b.x - a.x);
    var y := a.y + fact * (b.y - a.y);
    var z := a.z + fact * (b.z - a.z);
    assert x == LerpVal(a.x, b.x, fact);
    assert y == LerpVal(a.y, b.y, fact);
    assert z == LerpVal(a.z, b.z, fact);
    Vector(x, y, z)
  }

  // Lemmas

  /** mul_vectorf scales the squared length by f*f. */
  lemma MulVectorFLength(a: Vector, f: real)
    ensures Dotp(MulVectorF(a, f), MulVectorF(a, f)) == f * f * Dotp(a, a)
  {
  }

  /** The cross product is orthogonal to both operands. */
  lemma CrosspOrthogonal(a: Vector, b: Vector)
    ensures Dotp(Crossp(a, b), a) == 0.0 && Dotp(Crossp(a, b), b) == 0.0
  {
  }

  /** The polar construction ignores theta in its z component. */
  lemma PolarZIgnoresTheta(lib: Libm, phi: real, t1: real, t2: real)
    ensures BuildVectPolar(lib, phi, t1).z == BuildVectPolar(lib, phi, t2).z
  {
  }

  lemma AddVectorCommutes(a: Vector, b: Vector)
    ensures AddVector(a, b) == AddVector(b, a)
  {
  }

  lemma DotpSymmetric(a: Vector, b: Vector)
    ensures Dotp(a, b) == Dotp(b, a)
  {
  }

  lemma CrosspAnticommutes(a: Vector, b: Vector)
    ensures Crossp(a, b) == SubVector(Zero, Crossp(b, a))
    ensures Crossp(a, a) == Zero
  {
  }

  /** Given that lib.sqrt is a square root at |v|^2, norm_vector's result has
      squared length |v|^4: it is a unit vector exactly when v already was. */
  lemma NormVectorSquaredLength(lib: Libm, v: Vector)
    requires lib.sqrt(Dotp(v, v)) >= 0.0
    requires lib.sqrt(Dotp(v, v)) * lib.sqrt(Dotp(v, v)) == Dotp(v, v)
    requires LenVector(lib, v) >= 0.0000001
    ensures Dotp(NormVector(lib, v), NormVector(lib, v)) == Dotp(v, v) * Dotp(v, v)
    ensures Dotp(NormVector(lib, v), NormVector(lib, v)) == 1.0 <==> Dotp(v, v) == 1.0
  {
    var d := Dotp(v, v);
    var len := LenVector(lib, v);
    assert Dotp(NormVector(lib, v), NormVector(lib, v)) == len * len * d;
    assert d >= 0.0;
    assert d * d - 1.0 == (d - 1.0) * (d + 1.0);
  }
}
