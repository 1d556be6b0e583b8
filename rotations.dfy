/** matr_quatf / matr_quat: the rotation matrix of a quaternion, written into
    a caller's 16-entry buffer. */
module Rotations {
  import opened Quaternions
  import opened Matrices

  /** The matrix matr_quatf writes for a; its last row and column are those
      of the identity whatever a is. */
  function QuatMatrix(a: Quat): (r: seq<real>)
    ensures |r| == 16
  {
    [1.0 - 2.0 * (a.y * a.y + a.z * a.z), 2.0 * (a.x * a.y + a.z * a.w), 2.0 * (a.x * a.z - a.y * a.w), 0.0,
     2.0 * (a.x * a.y - a.z * a.w), 1.0 - 2.0 * (a.x * a.x + a.z * a.z), 2.0 * (a.z * a.y + a.x * a.w), 0.0,
     2.0 * (a.x * a.z + a.y * a.w), 2.0 * (a.y * a.z - a.x * a.w), 1.0 - 2.0 * (a.x * a.x + a.y * a.y), 0.0,
     0.0, 0.0, 0.0, 1.0]
  }

  lemma QuatMatrixOverwrites(s0: seq<real>, a: Quat)
    requires |s0| == 16
    ensures s0[0 := 1.0 - 2.0 * (a.y * a.y + a.z * a.z)][1 := 2.0 * (a.x * a.y + a.z * a.w)][2 := 2.0 * (a.x * a.z - a.y * a.w)][3 := 0.0][4 := 2.0 * (a.x * a.y - a.z * a.w)][5 := 1.0 - 2.0 * (a.x * a.x + a.z * a.z)][6 := 2.0 * (a.z * a.y + a.x * a.w)][7 := 0.0][8 := 2.0 * (a.x * a.z + a.y * a.w)][9 := 2.0 * (a.y * a.z - a.x * a.w)][10 := 1.0 - 2.0 * (a.x * a.x + a.y * a.y)][11 := 0.0][12 := 0.0][13 := 0.0][14 := 0.0][15 := 1.0] == QuatMatrix(a)
  {
    var e := [1.0 - 2.0 * (a.y * a.y + a.z * a.z), 2.0 * (a.x * a.y + a.z * a.w), 2.0 * (a.x * a.z - a.y * a.w), 0.0,
              2.0 * (a.x * a.y - a.z * a.w), 1.0 - 2.0 * (a.x * a.x + a.z * a.z), 2.0 * (a.z * a.y + a.x * a.w), 0.0,
              2.0 * (a.x * a.z + a.y * a.w), 2.0 * (a.y * a.z - a.x * a.w), 1.0 - 2.0 * (a.x * a.x + a.y * a.y), 0.0,
              0.0, 0.0, 0.0, 1.0];
    OverwriteAll(s0, e[0], e[1], e[2], e[3], e[4], e[5], e[6], e[7], e[8], e[9], e[10], e[11], e[12], e[13], e[14], e[15]);
    forall k | 0 <= k < 16
      ensures QuatMatrix(a)[k] == e[k]
    {
    }
  }

  method MatrQuatF(a: Quat, dmatr: array?<real>) returns (r: array?<real>)
    requires dmatr != null ==> dmatr.Length == 16
    modifies dmatr
    ensures r == dmatr
    ensures dmatr != null ==> dmatr[..] == QuatMatrix(a)
  {
    if dmatr != null {
      ghost var s0 := dmatr[..];
      ghost var s := s0;
      dmatr[0] := 1.0 - 2.0 * (a.y * a.y + a.z * a.z);
      s := s[0 := 1.0 - 2.0 * (a.y * a.y + a.z * a.z)];
      dmatr[1] := 2.0 * (a.x * a.y + a.z * a.w);
      s := s[1 := 2.0 * (a.x * a.y + a.z * a.w)];
      dmatr[2] := 2.0 * (a.x * a.z - a.y * a.w);
      s := s[2 := 2.0 * (a.x * a.z - a.y * a.w)];
      dmatr[3] := 0.0;
      s := s[3 := 0.0];
      dmatr[4] := 2.0 * (a.x * a.y - a.z * a.w);
      s := s[4 := 2.0 * (a.x * a.y - a.z * a.w)];
      dmatr[5] := 1.0 - 2.0 * (a.x * a.x + a.z * a.z);
      s := s[5 := 1.0 - 2.0 * (a.x * a.x + a.z * a.z)];
      dmatr[6] := 2.0 * (a.z * a.y + a.x * a.w);
      s := s[6 := 2.0 * (a.z * a.y + a.x * a.w)];
      dmatr[7] := 0.0;
      s := s[7 := 0.0];
      dmatr[8] := 2.0 * (a.x * a.z + a.y * a.w);
      s := s[8 := 2.0 * (a.x * a.z + a.y * a.w)];
      dmatr[9] := 2.0 * (a.y * a.z - a.x * a.w);
      s := s[9 := 2.0 * (a.y * a.z - a.x * a.w)];
      dmatr[10] := 1.0 - 2.0 * (a.x * a.x + a.y * a.y);
      s := s[10 := 1.0 - 2.0 * (a.x * a.x + a.y * a.y)];
      dmatr[11] := 0.0;
      s := s[11 := 0.0];
      dmatr[12] := 0.0;
      s := s[12 := 0.0];
      dmatr[13] := 0.0;
      s := s[13 := 0.0];
      dmatr[14] := 0.0;
      s := s[14 := 0.0];
      dmatr[15] := 1.0;
      s := s[15 := 1.0];
      assert dmatr[..] == s;
      QuatMatrixOverwrites(s0, a);
    }
    r := dmatr;
  }

  // Lemmas

  /** The unit quaternion (0, 0, 0, 1) yields the identity matrix. */
  lemma QuatMatrixOfUnit()
    ensures QuatMatrix(Unit) == Identity
  {
    forall k | 0 <= k < 16
      ensures QuatMatrix(Unit)[k] == Identity[k]
    {
    }
  }

  /** Entries 3, 7, 11, 12, 13 and 14 are always 0 and entry 15 is 1. */
  lemma QuatMatrixFixedEntries(a: Quat)
    ensures QuatMatrix(a)[3] == 0.0 && QuatMatrix(a)[7] == 0.0 && QuatMatrix(a)[11] == 0.0
    ensures QuatMatrix(a)[12] == 0.0 && QuatMatrix(a)[13] == 0.0 && QuatMatrix(a)[14] == 0.0
    ensures QuatMatrix(a)[15] == 1.0
  {
  }

  /** (1 - 2p) * 2q in either order, multiplied out. */
  lemma ShiftedProduct(p: real, q: real)
    ensures (1.0 - 2.0 * p) * (2.0 * q) == 2.0 * q - 4.0 * (p * q)
    ensures (2.0 * q) * (1.0 - 2.0 * p) == 2.0 * q - 4.0 * (p * q)
    ensures (1.0 - 2.0 * p) * (1.0 - 2.0 * p) == 1.0 - 4.0 * p + 4.0 * (p * p)
  {
  }

  lemma DoubledProduct(u: real, v: real)
    ensures (2.0 * u) * (2.0 * v) == 4.0 * (u * v)
  {
  }

  /** The quartic identities behind the first two columns. */
  lemma ColumnIdentities(x: real, y: real, z: real, w: real)
    ensures (y * y + z * z) * (x * y - z * w) + (x * x + z * z) * (x * y + z * w) - (x * z - y * w) * (z * y + x * w)
         == (x * y) * (x * x + y * y + z * z + w * w)
    ensures (x * y + z * w) * (x * y + z * w) + (x * z - y * w) * (x * z - y * w) == (x * x + w * w) * (y * y + z * z)
  {
  }

  lemma FactorOut(k: real, a: real, b: real)
    ensures k * a - k * b == k * (a - b)
  {
  }

  /** The squared length of a first column (c0, c1, c2) as matr_quatf fills it. */
  lemma FirstColumnLength(x: real, y: real, z: real, w: real, n: real, c0: real, c1: real, c2: real)
    requires n == x * x + y * y + z * z + w * w
    requires c0 == 1.0 - 2.0 * (y * y + z * z) && c1 == 2.0 * (x * y + z * w) && c2 == 2.0 * (x * z - y * w)
    ensures c0 * c0 + c1 * c1 + c2 * c2 == 1.0 + 4.0 * (y * y + z * z) * (n - 1.0)
  {
    var p, r, u := y * y + z * z, x * y + z * w, x * z - y * w;
    ShiftedProduct(p, 0.0);
    DoubledProduct(r, r);
    DoubledProduct(u, u);
    ColumnIdentities(x, y, z, w);
    FactorOut(4.0 * p, n, 1.0);
    assert (4.0 * p) * n == 4.0 * (p * p) + 4.0 * ((x * x + w * w) * p);
  }

  /** The dot product of the first two columns (c0, c1, c2), (c4, c5, c6) as
      matr_quatf fills them. */
  lemma FirstColumnsDot(x: real, y: real, z: real, w: real, n: real,
                        c0: real, c1: real, c2: real, c4: real, c5: real, c6: real)
    requires n == x * x + y * y + z * z + w * w
    requires c0 == 1.0 - 2.0 * (y * y + z * z) && c1 == 2.0 * (x * y + z * w) && c2 == 2.0 * (x * z - y * w)
    requires c4 == 2.0 * (x * y - z * w) && c5 == 1.0 - 2.0 * (x * x + z * z) && c6 == 2.0 * (z * y + x * w)
    ensures c0 * c4 + c1 * c5 + c2 * c6 == 4.0 * x * y * (1.0 - n)
  {
    var p, q := y * y + z * z, x * y - z * w;
    var s, r := x * x + z * z, x * y + z * w;
    var u, v := x * z - y * w, z * y + x * w;
    ShiftedProduct(p, q);
    ShiftedProduct(s, r);
    DoubledProduct(u, v);
    ColumnIdentities(x, y, z, w);
    FactorOut(4.0 * x * y, 1.0, n);
    assert (4.0 * x * y) * n == 4.0 * ((x * y) * n);
  }

  /** FirstColumnLength for the components of a quaternion. */
  lemma QuatColumnLength(a: Quat, c0: real, c1: real, c2: real)
    requires c0 == 1.0 - 2.0 * (a.y * a.y + a.z * a.z) && c1 == 2.0 * (a.x * a.y + a.z * a.w)
    requires c2 == 2.0 * (a.x * a.z - a.y * a.w)
    ensures c0 * c0 + c1 * c1 + c2 * c2 == 1.0 + 4.0 * (a.y * a.y + a.z * a.z) * (DotQuat(a, a) - 1.0)
  {
    FirstColumnLength(a.x, a.y, a.z, a.w, DotQuat(a, a), c0, c1, c2);
  }

  /** QuatColumnLength for a buffer whose first column holds those entries. */
  lemma ColumnLengthOf(a: Quat, m: seq<real>)
    requires FirstColumnOf(a, m)
    ensures m[0] * m[0] + m[1] * m[1] + m[2] * m[2] == 1.0 + 4.0 * (a.y * a.y + a.z * a.z) * (DotQuat(a, a) - 1.0)
  {
    QuatColumnLength(a, m[0], m[1], m[2]);
  }

  /** QuatColumnsDot for a buffer whose first two columns hold those entries. */
  lemma ColumnsDotOf(a: Quat, m: seq<real>)
    requires FirstColumnsOf(a, m)
    ensures m[0] * m[4] + m[1] * m[5] + m[2] * m[6] == 4.0 * a.x * a.y * (1.0 - DotQuat(a, a))
  {
    QuatColumnsDot(a, m[0], m[1], m[2], m[4], m[5], m[6]);
  }

  /** FirstColumnsDot for the components of a quaternion. */
  lemma QuatColumnsDot(a: Quat, c0: real, c1: real, c2: real, c4: real, c5: real, c6: real)
    requires c0 == 1.0 - 2.0 * (a.y * a.y + a.z * a.z) && c1 == 2.0 * (a.x * a.y + a.z * a.w)
    requires c2 == 2.0 * (a.x * a.z - a.y * a.w) && c4 == 2.0 * (a.x * a.y - a.z * a.w)
    requires c5 == 1.0 - 2.0 * (a.x * a.x + a.z * a.z) && c6 == 2.0 * (a.z * a.y + a.x * a.w)
    ensures c0 * c4 + c1 * c5 + c2 * c6 == 4.0 * a.x * a.y * (1.0 - DotQuat(a, a))
  {
    FirstColumnsDot(a.x, a.y, a.z, a.w, DotQuat(a, a), c0, c1, c2, c4, c5, c6);
  }

  /** m holds the first column matr_quatf writes for a. */
  predicate FirstColumnOf(a: Quat, m: seq<real>)
  {
    && |m| == 16
    && m[0] == 1.0 - 2.0 * (a.y * a.y + a.z * a.z) && m[1] == 2.0 * (a.x * a.y + a.z * a.w)
    && m[2] == 2.0 * (a.x * a.z - a.y * a.w)
  }

  /** m holds the first two columns matr_quatf writes for a. */
  predicate FirstColumnsOf(a: Quat, m: seq<real>)
  {
    && FirstColumnOf(a, m)
    && m[4] == 2.0 * (a.x * a.y - a.z * a.w)
    && m[5] == 1.0 - 2.0 * (a.x * a.x + a.z * a.z) && m[6] == 2.0 * (a.z * a.y + a.x * a.w)
  }

  /** The entries of the first two columns of QuatMatrix. */
  lemma FirstColumnsEntries(a: Quat)
    ensures FirstColumnsOf(a, QuatMatrix(a))
  {
    var m := QuatMatrix(a);
    assert m[0] == 1.0 - 2.0 * (a.y * a.y + a.z * a.z);
    assert m[1] == 2.0 * (a.x * a.y + a.z * a.w);
    assert m[2] == 2.0 * (a.x * a.z - a.y * a.w);
    assert m[4] == 2.0 * (a.x * a.y - a.z * a.w);
    assert m[5] == 1.0 - 2.0 * (a.x * a.x + a.z * a.z);
    assert m[6] == 2.0 * (a.z * a.y + a.x * a.w);
  }

  /** The squared length of the first column exceeds 1 by 4(y^2 + z^2)(|a|^2 - 1):
      for a unit quaternion the column is a unit vector. */
  lemma QuatMatrixColumnLength(a: Quat)
    ensures var m := QuatMatrix(a);
      m[0] * m[0] + m[1] * m[1] + m[2] * m[2] == 1.0 + 4.0 * (a.y * a.y + a.z * a.z) * (DotQuat(a, a) - 1.0)
  {
    FirstColumnsEntries(a);
    ColumnLengthOf(a, QuatMatrix(a));
  }

  /** The first two columns are orthogonal exactly as far as a is a unit quaternion. */
  lemma QuatMatrixColumnsOrthogonal(a: Quat)
    ensures var m := QuatMatrix(a);
      m[0] * m[4] + m[1] * m[5] + m[2] * m[6] == 4.0 * a.x * a.y * (1.0 - DotQuat(a, a))
  {
    FirstColumnsEntries(a);
    ColumnsDotOf(a, QuatMatrix(a));
  }

  /** a and -a describe the same rotation: matr_quatf writes the same matrix
      for both. */
  lemma QuatMatrixNegation(a: Quat)
    ensures QuatMatrix(Quat(-a.x, -a.y, -a.z, -a.w)) == QuatMatrix(a)
  {
    var n := Quat(-a.x, -a.y, -a.z, -a.w);
    NegatedProduct(a.x, a.y);
    NegatedProduct(a.z, a.w);
    NegatedProduct(a.x, a.z);
    NegatedProduct(a.y, a.w);
    NegatedProduct(a.z, a.y);
    NegatedProduct(a.x, a.w);
    NegatedProduct(a.y, a.z);
    NegatedProduct(a.x, a.x);
    NegatedProduct(a.y, a.y);
    NegatedProduct(a.z, a.z);
    var mn, ma := QuatMatrix(n), QuatMatrix(a);
    forall k | 0 <= k < 16
      ensures mn[k] == ma[k]
    {
    }
  }

  lemma NegatedProduct(u: real, v: real)
    ensures (-u) * (-v) == u * v
  {
  }
}
