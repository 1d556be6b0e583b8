/** 4x4 matrices in caller-owned 16-entry buffers, column-major: the entry in
    row r and column c is at index 4*c + r. Each operation that writes a
    buffer is a method on an array, specified by a function on sequences. */
module Matrices {

  /** Entry k of the identity: 1 on the diagonal (k = 0, 5, 10, 15). */
  function IdentityEntry(k: int): real
  {
    if k == 0 || k == 5 || k == 10 || k == 15 then 1.0 else 0.0
  }

  /** midentity */
  const Identity: seq<real> := seq(16, k => IdentityEntry(k))

  /** The index of the first entry of the column that holds entry k. */
  function ColumnBase(k: int): int
  {
    if k < 4 then 0 else if k < 8 then 4 else if k < 12 then 8 else 12
  }

  /** Entry k = i + j of multiply_matrix, with i the column's base index
      (a multiple of 4) and j the row: column i of b weights the row j of a. */
  function ProductEntry(a: seq<real>, b: seq<real>, k: int): real
    requires |a| == 16 && |b| == 16 && 0 <= k < 16
  {
    var i := ColumnBase(k);
    var j := k - i;
    b[i] * a[j] + b[i + 1] * a[j + 4] + b[i + 2] * a[j + 8] + b[i + 3] * a[j + 12]
  }

  /** The product multiply_matrix(dst, a, b) stores in dst. */
  function MatMul(a: seq<real>, b: seq<real>): (r: seq<real>)
    requires |a| == 16 && |b| == 16
    ensures |r| == 16
  {
    seq(16, k requires 0 <= k < 16 => ProductEntry(a, b, k))
  }

  /** The vector mult_matrix_vecf(m, v, out) stores in out: out[i] is row i of m times v. */
  function MatVec(m: seq<real>, v: seq<real>): (r: seq<real>)
    requires |m| == 16 && |v| == 4
    ensures |r| == 4
  {
    seq(4, i requires 0 <= i < 4 => v[0] * m[i] + v[1] * m[i + 4] + v[2] * m[i + 8] + v[3] * m[i + 12])
  }

  /** What scale_matrix leaves in m: columns 0, 1 and 2 scaled by xs, ys and zs. */
  function Scaled(m: seq<real>, xs: real, ys: real, zs: real): (r: seq<real>)
    requires |m| == 16
    ensures |r| == 16
  {
    seq(16, k requires 0 <= k < 16 => if k < 4 then m[k] * xs else if k < 8 then m[k] * ys else if k < 12 then m[k] * zs else m[k])
  }

  /** What translate_matrix leaves in m: column 3 becomes m applied to (xt, yt, zt, 1). */
  function Translated(m: seq<real>, xt: real, yt: real, zt: real): (r: seq<real>)
    requires |m| == 16
    ensures |r| == 16
  {
    seq(16, k requires 0 <= k < 16 => if k < 12 then m[k] else m[k - 12] * xt + m[k - 8] * yt + m[k - 4] * zt + m[k])
  }

  /** The diagonal matrix diag(xs, ys, zs, 1). */
  function ScaleMatrixOf(xs: real, ys: real, zs: real): (r: seq<real>)
    ensures |r| == 16
  {
    seq(16, k => if k == 0 then xs else if k == 5 then ys else if k == 10 then zs else IdentityEntry(k))
  }

  /** The identity with (xt, yt, zt) in column 3. */
  function TranslationMatrixOf(xt: real, yt: real, zt: real): (r: seq<real>)
    ensures |r| == 16
  {
    seq(16, k => if k == 12 then xt else if k == 13 then yt else if k == 14 then zt else IdentityEntry(k))
  }

  /** mult_matrix_vecf */
  method MultMatrixVecF(matrix: array<real>, vin: array<real>, vout: array<real>)
    requires matrix.Length == 16 && vin.Length == 4 && vout.Length == 4
    requires vout != vin
    modifies vout
    ensures vout[..] == MatVec(matrix[..], vin[..])
  {
    for i := 0 to 4
      invariant forall t :: 0 <= t < i ==> vout[t] == MatVec(matrix[..], vin[..])[t]
    {
      vout[i] := vin[0] * matrix[0 * 4 + i] + vin[1] * matrix[1 * 4 + i]
               + vin[2] * matrix[2 * 4 + i] + vin[3] * matrix[3 * 4 + i];
    }
  }

  /** multiply_matrix; dst must not alias a or b (they are restrict-qualified). */
  method MultiplyMatrix(dst: array<real>, a: array<real>, b: array<real>)
    requires dst.Length == 16 && a.Length == 16 && b.Length == 16
    requires dst != a && dst != b
    modifies dst
    ensures dst[..] == MatMul(a[..], b[..])
  {
    var i := 0;
    while i < 16
      invariant 0 <= i <= 16 && i % 4 == 0
      invariant forall k :: 0 <= k < i ==> dst[k] == ProductEntry(a[..], b[..], k)
    {
      for j := 0 to 4
        invariant forall k :: 0 <= k < i + j ==> dst[k] == ProductEntry(a[..], b[..], k)
      {
        dst[i + j] := b[i] * a[j] + b[i + 1] * a[j + 4] + b[i + 2] * a[j + 8] + b[i + 3] * a[j + 12];
      }
      i := i + 4;
    }
  }

  /** scale_matrix: columns 0, 1 and 2 of m scaled in place by xs, ys and zs. */
  method ScaleMatrix(m: array<real>, xs: real, ys: real, zs: real)
    requires m.Length == 16
    modifies m
    ensures m[..] == Scaled(old(m[..]), xs, ys, zs)
  {
    ghost var m0 := m[..];
    ghost var s := m0;
    m[0] := m[0] * xs; s := s[0 := m0[0] * xs];
    assert m[0] == m0[0] * xs;
    assert m[..] == s;
    m[4] := m[4] * ys; s := s[4 := m0[4] * ys];
    assert m[4] == m0[4] * ys;
    assert m[..] == s;
    m[8] := m[8] * zs; s := s[8 := m0[8] * zs];
    assert m[8] == m0[8] * zs;
    assert m[..] == s;
    m[1] := m[1] * xs; s := s[1 := m0[1] * xs];
    assert m[1] == m0[1] * xs;
    assert m[..] == s;
    m[5] := m[5] * ys; s := s[5 := m0[5] * ys];
    assert m[5] == m0[5] * ys;
    assert m[..] == s;
    m[9] := m[9] * zs; s := s[9 := m0[9] * zs];
    assert m[9] == m0[9] * zs;
    assert m[..] == s;
    m[2] := m[2] * xs; s := s[2 := m0[2] * xs];
    assert m[2] == m0[2] * xs;
    assert m[..] == s;
    m[6] := m[6] * ys; s := s[6 := m0[6] * ys];
    assert m[6] == m0[6] * ys;
    assert m[..] == s;
    m[10] := m[10] * zs; s := s[10 := m0[10] * zs];
    assert m[10] == m0[10] * zs;
    assert m[..] == s;
    m[3] := m[3] * xs; s := s[3 := m0[3] * xs];
    assert m[3] == m0[3] * xs;
    assert m[..] == s;
    m[7] := m[7] * ys; s := s[7 := m0[7] * ys];
    assert m[7] == m0[7] * ys;
    assert m[..] == s;
    m[11] := m[11] * zs; s := s[11 := m0[11] * zs];
    assert m[11] == m0[11] * zs;
    assert m[..] == s;
    ScaledChain(m0, xs, ys, zs);
  }

  /** translate_matrix: column 3 of m becomes m applied to (xt, yt, zt, 1). */
  method TranslateMatrix(m: array<real>, xt: real, yt: real, zt: real)
    requires m.Length == 16
    modifies m
    ensures m[..] == Translated(old(m[..]), xt, yt, zt)
  {
    ghost var m0 := m[..];
    m[12] := m[0] * xt + m[4] * yt + m[8] * zt + m[12];
    m[13] := m[1] * xt + m[5] * yt + m[9] * zt + m[13];
    m[14] := m[2] * xt + m[6] * yt + m[10] * zt + m[14];
    m[15] := m[3] * xt + m[7] * yt + m[11] * zt + m[15];
    assert m[..] == m0[12 := m[12]][13 := m[13]][14 := m[14]][15 := m[15]];
    assert m[12] == m0[0] * xt + m0[4] * yt + m0[8] * zt + m0[12];
    assert m[13] == m0[1] * xt + m0[5] * yt + m0[9] * zt + m0[13];
    assert m[14] == m0[2] * xt + m0[6] * yt + m0[10] * zt + m0[14];
    assert m[15] == m0[3] * xt + m0[7] * yt + m0[11] * zt + m0[15];
    TranslatedWrites(m0, xt, yt, zt, m[12], m[13], m[14], m[15]);
  }

  /** identity_matrix: a copy of midentity. */
  method IdentityMatrix(m: array<real>)
    requires m.Length == 16
    modifies m
    ensures m[..] == Identity
  {
    for k := 0 to 16
      invariant forall t :: 0 <= t < k ==> m[t] == Identity[t]
    {
      m[k] := Identity[k];
    }
  }

  // Lemmas

  /** The twelve writes of scale_matrix, in its order (column by column,
      three entries at a time), change entries 0 to 11 and keep 12 to 15. */
  lemma ColumnWrites(s0: seq<real>, e0: real, e1: real, e2: real, e3: real, e4: real, e5: real, e6: real, e7: real,
                     e8: real, e9: real, e10: real, e11: real)
    requires |s0| == 16
    ensures s0[0 := e0][4 := e4][8 := e8][1 := e1][5 := e5][9 := e9][2 := e2][6 := e6][10 := e10][3 := e3][7 := e7][11 := e11]
      == [e0, e1, e2, e3, e4, e5, e6, e7, e8, e9, e10, e11, s0[12], s0[13], s0[14], s0[15]]
  {
    var s := s0[0 := e0][4 := e4][8 := e8][1 := e1][5 := e5][9 := e9][2 := e2][6 := e6][10 := e10][3 := e3][7 := e7][11 := e11];
    var e := [e0, e1, e2, e3, e4, e5, e6, e7, e8, e9, e10, e11, s0[12], s0[13], s0[14], s0[15]];
    forall k | 0 <= k < 16
      ensures s[k] == e[k]
    {
    }
  }

  /** The twelve writes of scale_matrix, applied to m0 in its order, leave Scaled. */
  lemma ScaledChain(m0: seq<real>, xs: real, ys: real, zs: real)
    requires |m0| == 16
    ensures m0[0 := m0[0] * xs][4 := m0[4] * ys][8 := m0[8] * zs][1 := m0[1] * xs][5 := m0[5] * ys][9 := m0[9] * zs]
      [2 := m0[2] * xs][6 := m0[6] * ys][10 := m0[10] * zs][3 := m0[3] * xs][7 := m0[7] * ys][11 := m0[11] * zs]
      == Scaled(m0, xs, ys, zs)
  {
    ColumnWrites(m0, m0[0] * xs, m0[1] * xs, m0[2] * xs, m0[3] * xs, m0[4] * ys, m0[5] * ys, m0[6] * ys, m0[7] * ys,
                 m0[8] * zs, m0[9] * zs, m0[10] * zs, m0[11] * zs);
    ScaledDisplay(m0, xs, ys, zs);
  }

  /** Scaled, entry by entry. */
  lemma ScaledDisplay(m0: seq<real>, xs: real, ys: real, zs: real)
    requires |m0| == 16
    ensures Scaled(m0, xs, ys, zs) == [m0[0] * xs, m0[1] * xs, m0[2] * xs, m0[3] * xs, m0[4] * ys, m0[5] * ys, m0[6] * ys, m0[7] * ys,
      m0[8] * zs, m0[9] * zs, m0[10] * zs, m0[11] * zs, m0[12], m0[13], m0[14], m0[15]]
  {
    var e := [m0[0] * xs, m0[1] * xs, m0[2] * xs, m0[3] * xs, m0[4] * ys, m0[5] * ys, m0[6] * ys, m0[7] * ys,
      m0[8] * zs, m0[9] * zs, m0[10] * zs, m0[11] * zs, m0[12], m0[13], m0[14], m0[15]];
    forall k | 0 <= k < 16
      ensures Scaled(m0, xs, ys, zs)[k] == e[k]
    {
    }
  }

  /** Overwriting column 3 of m0 with the translated entries leaves Translated. */
  lemma TranslatedWrites(m0: seq<real>, xt: real, yt: real, zt: real, t12: real, t13: real, t14: real, t15: real)
    requires |m0| == 16
    requires t12 == m0[0] * xt + m0[4] * yt + m0[8] * zt + m0[12]
    requires t13 == m0[1] * xt + m0[5] * yt + m0[9] * zt + m0[13]
    requires t14 == m0[2] * xt + m0[6] * yt + m0[10] * zt + m0[14]
    requires t15 == m0[3] * xt + m0[7] * yt + m0[11] * zt + m0[15]
    ensures m0[12 := t12][13 := t13][14 := t14][15 := t15] == Translated(m0, xt, yt, zt)
  {
    var s := m0[12 := t12][13 := t13][14 := t14][15 := t15];
    var t := Translated(m0, xt, yt, zt);
    assert s[12] == t[12];
    assert s[13] == t[13];
    assert s[14] == t[14];
    assert s[15] == t[15];
    forall k | 0 <= k < 16
      ensures s[k] == t[k]
    {
    }
  }

  /** Writing all sixteen entries of a matrix, in order, leaves exactly the
      values written, whatever the buffer held before. */
  lemma OverwriteAll(s0: seq<real>, e0: real, e1: real, e2: real, e3: real, e4: real, e5: real, e6: real, e7: real,
                     e8: real, e9: real, e10: real, e11: real, e12: real, e13: real, e14: real, e15: real)
    requires |s0| == 16
    ensures s0[0 := e0][1 := e1][2 := e2][3 := e3][4 := e4][5 := e5][6 := e6][7 := e7]
        [8 := e8][9 := e9][10 := e10][11 := e11][12 := e12][13 := e13][14 := e14][15 := e15]
      == [e0, e1, e2, e3, e4, e5, e6, e7, e8, e9, e10, e11, e12, e13, e14, e15]
  {
    var s := s0[0 := e0][1 := e1][2 := e2][3 := e3][4 := e4][5 := e5][6 := e6][7 := e7]
        [8 := e8][9 := e9][10 := e10][11 := e11][12 := e12][13 := e13][14 := e14][15 := e15];
    var e := [e0, e1, e2, e3, e4, e5, e6, e7, e8, e9, e10, e11, e12, e13, e14, e15];
    forall k | 0 <= k < 16
      ensures s[k] == e[k]
    {
    }
  }

  lemma ProductEntryIdentityLeft(b: seq<real>, k: int)
    requires |b| == 16 && 0 <= k < 16
    ensures ProductEntry(Identity, b, k) == b[k]
  {
  }

  /** The identity is neutral on the left of multiply_matrix: a = I gives dst = b. */
  lemma MatMulIdentityLeft(b: seq<real>)
    requires |b| == 16
    ensures MatMul(Identity, b) == b
  {
    forall k | 0 <= k < 16
      ensures MatMul(Identity, b)[k] == b[k]
    {
      ProductEntryIdentityLeft(b, k);
    }
  }

  lemma ProductEntryIdentityRight(a: seq<real>, k: int)
    requires |a| == 16 && 0 <= k < 16
    ensures ProductEntry(a, Identity, k) == a[k]
  {
  }

  /** ... and on the right: b = I gives dst = a. */
  lemma MatMulIdentityRight(a: seq<real>)
    requires |a| == 16
    ensures MatMul(a, Identity) == a
  {
    forall k | 0 <= k < 16
      ensures MatMul(a, Identity)[k] == a[k]
    {
      ProductEntryIdentityRight(a, k);
    }
  }

  lemma ScaledEntry(m: seq<real>, xs: real, ys: real, zs: real, k: int)
    requires |m| == 16 && 0 <= k < 16
    ensures Scaled(m, xs, ys, zs)[k] == ProductEntry(m, ScaleMatrixOf(xs, ys, zs), k)
  {
    var s := ScaleMatrixOf(xs, ys, zs);
    var i := k / 4 * 4;
    assert s[i] * m[k % 4] + s[i + 1] * m[k % 4 + 4] + s[i + 2] * m[k % 4 + 8] + s[i + 3] * m[k % 4 + 12] == Scaled(m, xs, ys, zs)[k];
  }

  /** scale_matrix is right-multiplication by diag(xs, ys, zs, 1). */
  lemma ScaledIsProduct(m: seq<real>, xs: real, ys: real, zs: real)
    requires |m| == 16
    ensures Scaled(m, xs, ys, zs) == MatMul(m, ScaleMatrixOf(xs, ys, zs))
  {
    forall k | 0 <= k < 16
      ensures Scaled(m, xs, ys, zs)[k] == MatMul(m, ScaleMatrixOf(xs, ys, zs))[k]
    {
      ScaledEntry(m, xs, ys, zs, k);
    }
  }

  lemma TranslatedEntry(m: seq<real>, xt: real, yt: real, zt: real, k: int)
    requires |m| == 16 && 0 <= k < 16
    ensures Translated(m, xt, yt, zt)[k] == ProductEntry(m, TranslationMatrixOf(xt, yt, zt), k)
  {
  }

  /** translate_matrix is right-multiplication by the translation matrix. */
  lemma TranslatedIsProduct(m: seq<real>, xt: real, yt: real, zt: real)
    requires |m| == 16
    ensures Translated(m, xt, yt, zt) == MatMul(m, TranslationMatrixOf(xt, yt, zt))
  {
    forall k | 0 <= k < 16
      ensures Translated(m, xt, yt, zt)[k] == MatMul(m, TranslationMatrixOf(xt, yt, zt))[k]
    {
      TranslatedEntry(m, xt, yt, zt, k);
    }
  }

  /** Translating by (0, 0, 0) changes nothing. */
  lemma TranslatedByZero(m: seq<real>)
    requires |m| == 16
    ensures Translated(m, 0.0, 0.0, 0.0) == m
  {
  }

  lemma SumOfTranslations(a: real, b: real, c: real, d: real, x1: real, y1: real, z1: real, x2: real, y2: real, z2: real,
                           lhs: real, rhs: real)
    requires lhs == a * x2 + b * y2 + c * z2 + (a * x1 + b * y1 + c * z1 + d)
    requires rhs == a * (x1 + x2) + b * (y1 + y2) + c * (z1 + z2) + d
    ensures lhs == rhs
  {
  }

  /** Two translations add up. */
  lemma TranslatedCompose(m: seq<real>, x1: real, y1: real, z1: real, x2: real, y2: real, z2: real)
    requires |m| == 16
    ensures Translated(Translated(m, x1, y1, z1), x2, y2, z2) == Translated(m, x1 + x2, y1 + y2, z1 + z2)
  {
    var t := Translated(m, x1, y1, z1);
    var l := Translated(t, x2, y2, z2);
    var r := Translated(m, x1 + x2, y1 + y2, z1 + z2);
    forall k | 0 <= k < 16
      ensures l[k] == r[k]
    {
      if k >= 12 {
        assert t[k - 12] == m[k - 12] && t[k - 8] == m[k - 8] && t[k - 4] == m[k - 4];
        SumOfTranslations(m[k - 12], m[k - 8], m[k - 4], m[k], x1, y1, z1, x2, y2, z2, l[k], r[k]);
      }
    }
  }

  /** Scaling by (1, 1, 1) changes nothing. */
  lemma ScaledByOne(m: seq<real>)
    requires |m| == 16
    ensures Scaled(m, 1.0, 1.0, 1.0) == m
  {
  }

  lemma MatVecIdentity(v: seq<real>)
    requires |v| == 4
    ensures MatVec(Identity, v) == v
  {
  }
}
