/** Camera matrices written into caller buffers: matr_lookat (the gluLookAt
    replacement), build_orthographic_matrix and build_projection_matrix. */
module Camera {
  import opened Libm
  import opened Vectors
  import opened Matrices

  /** The three axes matr_lookat derives: forward, side and the recomputed up. */
  datatype Frame = Frame(fwd: Vector, side: Vector, rup: Vector)

  function LookatFrame(lib: Libm, position: Vector, dstpos: Vector, up: Vector): (r: Frame)
  {
    var fwd := NormVector(lib, SubVector(dstpos, position));
    var side := NormVector(lib, Crossp(fwd, up));
    Frame(fwd, side, Crossp(side, fwd))
  }

  /** The ten entries matr_lookat stores before translating; entries 3, 7, 11
      and 12 to 14 keep whatever the buffer held. */
  function LookatRotation(m: seq<real>, f: Frame): (r: seq<real>)
    requires |m| == 16
    ensures |r| == 16
  {
    m[0 := f.side.x][1 := f.rup.x][2 := -f.fwd.x]
     [4 := f.side.y][5 := f.rup.y][6 := -f.fwd.y]
     [8 := f.side.z][9 := f.rup.z][10 := -f.fwd.z]
     [15 := 1.0]
  }

  /** What matr_lookat leaves in m. */
  function LookatMatrix(lib: Libm, m: seq<real>, position: Vector, dstpos: Vector, up: Vector): (r: seq<real>)
    requires |m| == 16
    ensures |r| == 16
  {
    Translated(LookatRotation(m, LookatFrame(lib, position, dstpos, up)), -position.x, -position.y, -position.z)
  }

  /** The stores of matr_lookat before its call to translate_matrix. */
  method WriteLookatRotation(m: array<real>, f: Frame)
    requires m.Length == 16
    modifies m
    ensures m[..] == LookatRotation(old(m[..]), f)
  {
    ghost var s := m[..];
    m[0] := f.side.x; s := s[0 := f.side.x];
    m[1] := f.rup.x; s := s[1 := f.rup.x];
    m[2] := -f.fwd.x; s := s[2 := -f.fwd.x];

    m[4] := f.side.y; s := s[4 := f.side.y];
    m[5] := f.rup.y; s := s[5 := f.rup.y];
    m[6] := -f.fwd.y; s := s[6 := -f.fwd.y];

    m[8] := f.side.z; s := s[8 := f.side.z];
    m[9] := f.rup.z; s := s[9 := f.rup.z];
    m[10] := -f.fwd.z; s := s[10 := -f.fwd.z];

    m[15] := 1.0; s := s[15 := 1.0];
    assert m[..] == s;
  }

  /** The stores of matr_lookat followed by its translate_matrix call by t. */
  method StoreLookat(m: array<real>, f: Frame, t: Vector)
    requires m.Length == 16
    modifies m
    ensures m[..] == Translated(LookatRotation(old(m[..]), f), t.x, t.y, t.z)
  {
    WriteLookatRotation(m, f);
    TranslateMatrix(m, t.x, t.y, t.z);
  }

  /** matr_lookat: the camera axes stored in columns 0 to 2 (side, recomputed up
      and negated forward as rows 0, 1 and 2), then a translation by -position. */
  method MatrLookat(lib: Libm, m: array<real>, position: Vector, dstpos: Vector, up: Vector)
    requires m.Length == 16
    modifies m
    ensures m[..] == LookatMatrix(lib, old(m[..]), position, dstpos, up)
  {
    var f := LookatFrame(lib, position, dstpos, up);
    StoreLookat(m, f, Vector(-position.x, -position.y, -position.z));
  }

  /** build_orthographic_matrix: the box [left, right] x [bottom, top] x [nearf, farf]
      onto [-1, 1]^3. */
  function OrthoMatrix(left: real, right: real, bottom: real, top: real, nearf: real, farf: real): (r: seq<real>)
    requires right != left && top != bottom && farf != nearf
    ensures |r| == 16
  {
    var irml := 1.0 / (right - left);
    var itmb := 1.0 / (top - bottom);
    var ifmn := 1.0 / (farf - nearf);
    [2.0 * irml, 0.0, 0.0, 0.0,
     0.0, 2.0 * itmb, 0.0, 0.0,
     0.0, 0.0, 2.0 * ifmn, 0.0,
     -(right + left) * irml, -(top + bottom) * itmb, -(farf + nearf) * ifmn, 1.0]
  }

  lemma OrthoOverwrites(s0: seq<real>, left: real, right: real, bottom: real, top: real, nearf: real, farf: real,
                         irml: real, itmb: real, ifmn: real)
    requires |s0| == 16
    requires right != left && top != bottom && farf != nearf
    requires irml == 1.0 / (right - left) && itmb == 1.0 / (top - bottom) && ifmn == 1.0 / (farf - nearf)
    ensures s0[0 := 2.0 * irml][1 := 0.0][2 := 0.0][3 := 0.0]
        [4 := 0.0][5 := 2.0 * itmb][6 := 0.0][7 := 0.0]
        [8 := 0.0][9 := 0.0][10 := 2.0 * ifmn][11 := 0.0]
        [12 := -(right + left) * irml][13 := -(top + bottom) * itmb][14 := -(farf + nearf) * ifmn][15 := 1.0]
      == OrthoMatrix(left, right, bottom, top, nearf, farf)
  {
    var s := s0[0 := 2.0 * irml][1 := 0.0][2 := 0.0][3 := 0.0]
        [4 := 0.0][5 := 2.0 * itmb][6 := 0.0][7 := 0.0]
        [8 := 0.0][9 := 0.0][10 := 2.0 * ifmn][11 := 0.0]
        [12 := -(right + left) * irml][13 := -(top + bottom) * itmb][14 := -(farf + nearf) * ifmn][15 := 1.0];
    forall k | 0 <= k < 16
      ensures s[k] == OrthoMatrix(left, right, bottom, top, nearf, farf)[k]
    {
    }
  }

  /** build_orthographic_matrix */
  method BuildOrthographicMatrix(m: array<real>, left: real, right: real, bottom: real, top: real, nearf: real, farf: real)
    requires m.Length == 16
    requires right != left && top != bottom && farf != nearf
    modifies m
    ensures m[..] == OrthoMatrix(left, right, bottom, top, nearf, farf)
  {
    var irml := 1.0 / (right - left);
    var itmb := 1.0 / (top - bottom);
    var ifmn := 1.0 / (farf - nearf);
    ghost var s0 := m[..];
    ghost var s := s0;

    m[0] := 2.0 * irml; s := s[0 := 2.0 * irml];
    m[1] := 0.0; s := s[1 := 0.0];
    m[2] := 0.0; s := s[2 := 0.0];
    m[3] := 0.0; s := s[3 := 0.0];

    m[4] := 0.0; s := s[4 := 0.0];
    m[5] := 2.0 * itmb; s := s[5 := 2.0 * itmb];
    m[6] := 0.0; s := s[6 := 0.0];
    m[7] := 0.0; s := s[7 := 0.0];

    m[8] := 0.0; s := s[8 := 0.0];
    m[9] := 0.0; s := s[9 := 0.0];
    m[10] := 2.0 * ifmn; s := s[10 := 2.0 * ifmn];
    m[11] := 0.0; s := s[11 := 0.0];

    m[12] := -(right + left) * irml; s := s[12 := -(right + left) * irml];
    m[13] := -(top + bottom) * itmb; s := s[13 := -(top + bottom) * itmb];
    m[14] := -(farf + nearf) * ifmn; s := s[14 := -(farf + nearf) * ifmn];
    m[15] := 1.0; s := s[15 := 1.0];
    assert m[..] == s;
    OrthoOverwrites(s0, left, right, bottom, top, nearf, farf, irml, itmb, ifmn);
  }

  /** The reciprocal of tan of half the field of view, fov given in degrees. */
  function FocalScale(lib: Libm, fov: real): real
    requires lib.tan(fov * (lib.pi / 360.0)) != 0.0
  {
    1.0 / lib.tan(fov * (lib.pi / 360.0))
  }

  /** build_projection_matrix: the perspective matrix; w' = -z. */
  function ProjectionMatrix(lib: Libm, nearv: real, farv: real, aspect: real, fov: real): (r: seq<real>)
    requires lib.tan(fov * (lib.pi / 360.0)) != 0.0 && aspect != 0.0 && nearv != farv
    ensures |r| == 16
  {
    var h := FocalScale(lib, fov);
    var negDepth := nearv - farv;
    [h / aspect, 0.0, 0.0, 0.0,
     0.0, h, 0.0, 0.0,
     0.0, 0.0, (farv + nearv) / negDepth, -1.0,
     0.0, 0.0, 2.0 * (nearv * farv) / negDepth, 0.0]
  }

  lemma ProjectionOverwrites(s0: seq<real>, lib: Libm, nearv: real, farv: real, aspect: real, fov: real,
                              h: real, negDepth: real)
    requires |s0| == 16
    requires lib.tan(fov * (lib.pi / 360.0)) != 0.0 && aspect != 0.0 && nearv != farv
    requires h == FocalScale(lib, fov) && negDepth == nearv - farv
    ensures s0[0 := h / aspect][1 := 0.0][2 := 0.0][3 := 0.0]
        [4 := 0.0][5 := h][6 := 0.0][7 := 0.0]
        [8 := 0.0][9 := 0.0][10 := (farv + nearv) / negDepth][11 := -1.0]
        [12 := 0.0][13 := 0.0][14 := 2.0 * (nearv * farv) / negDepth][15 := 0.0]
      == ProjectionMatrix(lib, nearv, farv, aspect, fov)
  {
    var s := s0[0 := h / aspect][1 := 0.0][2 := 0.0][3 := 0.0]
        [4 := 0.0][5 := h][6 := 0.0][7 := 0.0]
        [8 := 0.0][9 := 0.0][10 := (farv + nearv) / negDepth][11 := -1.0]
        [12 := 0.0][13 := 0.0][14 := 2.0 * (nearv * farv) / negDepth][15 := 0.0];
    forall k | 0 <= k < 16
      ensures s[k] == ProjectionMatrix(lib, nearv, farv, aspect, fov)[k]
    {
    }
  }

  /** build_projection_matrix */
  method BuildProjectionMatrix(lib: Libm, m: array<real>, nearv: real, farv: real, aspect: real, fov: real)
    requires m.Length == 16
    requires lib.tan(fov * (lib.pi / 360.0)) != 0.0 && aspect != 0.0 && nearv != farv
    modifies m
    ensures m[..] == ProjectionMatrix(lib, nearv, farv, aspect, fov)
  {
    var h := FocalScale(lib, fov);
    var negDepth := nearv - farv;
    ghost var s0 := m[..];
    ghost var s := s0;

    m[0] := h / aspect; s := s[0 := h / aspect];
    m[1] := 0.0; s := s[1 := 0.0];
    m[2] := 0.0; s := s[2 := 0.0];
    m[3] := 0.0; s := s[3 := 0.0];
    m[4] := 0.0; s := s[4 := 0.0];
    m[5] := h; s := s[5 := h];
    m[6] := 0.0; s := s[6 := 0.0];
    m[7] := 0.0; s := s[7 := 0.0];
    m[8] := 0.0; s := s[8 := 0.0];
    m[9] := 0.0; s := s[9 := 0.0];
    m[10] := (farv + nearv) / negDepth; s := s[10 := (farv + nearv) / negDepth];
    m[11] := -1.0; s := s[11 := -1.0];
    m[12] := 0.0; s := s[12 := 0.0];
    m[13] := 0.0; s := s[13 := 0.0];
    m[14] := 2.0 * (nearv * farv) / negDepth; s := s[14 := 2.0 * (nearv * farv) / negDepth];
    m[15] := 0.0; s := s[15 := 0.0];
    assert m[..] == s;
    ProjectionOverwrites(s0, lib, nearv, farv, aspect, fov, h, negDepth);
  }

  // Lemmas

  /** One camera-space coordinate: the axis (ax, ay, az) dotted with the point,
      plus the translation entry matr_lookat computes for it. */
  lemma LookatRowHelper(ax: real, ay: real, az: real, px: real, py: real, pz: real,
                        qx: real, qy: real, qz: real, t: real)
    requires t == ax * -qx + ay * -qy + az * -qz + 0.0
    ensures px * ax + py * ay + pz * az + 1.0 * t == ax * (px - qx) + ay * (py - qy) + az * (pz - qz)
  {
  }

  /** One row of MatVec for a matrix with row entries (a, b, c, t). */
  lemma MatVecRow(r: seq<real>, v: seq<real>, i: int, a: real, b: real, c: real, t: real)
    requires |r| == 16 && |v| == 4 && 0 <= i < 4
    requires r[i] == a && r[i + 4] == b && r[i + 8] == c && r[i + 12] == t
    ensures MatVec(r, v)[i] == v[0] * a + v[1] * b + v[2] * c + v[3] * t
  {
  }

  /** A row (a, b, c, t) whose translation entry t is -(a, b, c).q measures
      the offset of p from q along (a, b, c). */
  lemma FrameRow(r: seq<real>, i: int, s: Vector, q: Vector, p: Vector, dot: real)
    requires |r| == 16 && 0 <= i < 4
    requires r[i] == s.x && r[i + 4] == s.y && r[i + 8] == s.z
    requires r[i + 12] == s.x * -q.x + s.y * -q.y + s.z * -q.z + 0.0
    requires dot == s.x * (p.x - q.x) + s.y * (p.y - q.y) + s.z * (p.z - q.z)
    ensures MatVec(r, [p.x, p.y, p.z, 1.0])[i] == dot
  {
    MatVecRow(r, [p.x, p.y, p.z, 1.0], i, s.x, s.y, s.z, r[i + 12]);
    LookatRowHelper(s.x, s.y, s.z, p.x, p.y, p.z, q.x, q.y, q.z, r[i + 12]);
  }

  /** The entries of a stored frame translated by -q, on a buffer whose last
      row and column hold (0, 0, 0, w). */
  lemma FrameEntries(m: seq<real>, f: Frame, q: Vector)
    requires |m| == 16
    requires m[3] == 0.0 && m[7] == 0.0 && m[11] == 0.0
    requires m[12] == 0.0 && m[13] == 0.0 && m[14] == 0.0
    ensures var r := Translated(LookatRotation(m, f), -q.x, -q.y, -q.z);
      r[0] == f.side.x && r[4] == f.side.y && r[8] == f.side.z
      && r[12] == f.side.x * -q.x + f.side.y * -q.y + f.side.z * -q.z + 0.0
      && r[1] == f.rup.x && r[5] == f.rup.y && r[9] == f.rup.z
      && r[13] == f.rup.x * -q.x + f.rup.y * -q.y + f.rup.z * -q.z + 0.0
      && r[2] == -f.fwd.x && r[6] == -f.fwd.y && r[10] == -f.fwd.z
      && r[14] == -f.fwd.x * -q.x + -f.fwd.y * -q.y + -f.fwd.z * -q.z + 0.0
      && r[3] == 0.0 && r[7] == 0.0 && r[11] == 0.0 && r[15] == 1.0
  {
  }

  /** Axis i of the camera frame: side, up, or the negated forward axis. */
  function FrameAxis(f: Frame, i: int): Vector
  {
    if i == 0 then f.side else if i == 1 then f.rup else Vector(-f.fwd.x, -f.fwd.y, -f.fwd.z)
  }

  /** One camera-space coordinate of the translated frame. */
  lemma FrameCoordinate(m: seq<real>, f: Frame, q: Vector, p: Vector, i: int)
    requires |m| == 16 && 0 <= i < 3
    requires m[3] == 0.0 && m[7] == 0.0 && m[11] == 0.0
    requires m[12] == 0.0 && m[13] == 0.0 && m[14] == 0.0
    ensures MatVec(Translated(LookatRotation(m, f), -q.x, -q.y, -q.z), [p.x, p.y, p.z, 1.0])[i]
      == Dotp(FrameAxis(f, i), SubVector(p, q))
  {
    FrameEntries(m, f, q);
    var s := FrameAxis(f, i);
    FrameRow(Translated(LookatRotation(m, f), -q.x, -q.y, -q.z), i, s, q, p, Dotp(s, SubVector(p, q)));
  }

  /** A rotation frame stored by matr_lookat and then translated by -q maps
      p to its offset from q along the side, up and negated forward axes. */
  lemma FrameCoordinates(m: seq<real>, f: Frame, q: Vector, p: Vector)
    requires |m| == 16
    requires m[3] == 0.0 && m[7] == 0.0 && m[11] == 0.0
    requires m[12] == 0.0 && m[13] == 0.0 && m[14] == 0.0
    ensures var d := SubVector(p, q);
      MatVec(Translated(LookatRotation(m, f), -q.x, -q.y, -q.z), [p.x, p.y, p.z, 1.0])
        == [Dotp(f.side, d), Dotp(f.rup, d), Dotp(Vector(-f.fwd.x, -f.fwd.y, -f.fwd.z), d), 1.0]
  {
    var r := Translated(LookatRotation(m, f), -q.x, -q.y, -q.z);
    var d := SubVector(p, q);
    var v := MatVec(r, [p.x, p.y, p.z, 1.0]);
    var e := [Dotp(f.side, d), Dotp(f.rup, d), Dotp(Vector(-f.fwd.x, -f.fwd.y, -f.fwd.z), d), 1.0];
    FrameCoordinate(m, f, q, p, 0);
    FrameCoordinate(m, f, q, p, 1);
    FrameCoordinate(m, f, q, p, 2);
    FrameEntries(m, f, q);
    MatVecRow(r, [p.x, p.y, p.z, 1.0], 3, 0.0, 0.0, 0.0, 1.0);
    SameFour(v, e);
  }

  /** Two four-entry sequences that agree entry by entry are equal. */
  lemma SameFour(v: seq<real>, e: seq<real>)
    requires |v| == 4 && |e| == 4
    requires v[0] == e[0] && v[1] == e[1] && v[2] == e[2] && v[3] == e[3]
    ensures v == e
  {
    assert forall k | 0 <= k < 4 :: v[k] == e[k];
  }

  /** On a buffer whose last row and column hold (0, 0, 0, w), matr_lookat
      yields the view transform: a point p goes to its offset from the eye
      along side, up and the negated forward axis, with w = 1. */
  lemma LookatCameraCoordinates(lib: Libm, m: seq<real>, position: Vector, dstpos: Vector, up: Vector, p: Vector)
    requires |m| == 16
    requires m[3] == 0.0 && m[7] == 0.0 && m[11] == 0.0
    requires m[12] == 0.0 && m[13] == 0.0 && m[14] == 0.0
    ensures var f := LookatFrame(lib, position, dstpos, up);
      var d := SubVector(p, position);
      MatVec(LookatMatrix(lib, m, position, dstpos, up), [p.x, p.y, p.z, 1.0])
        == [Dotp(f.side, d), Dotp(f.rup, d), Dotp(Vector(-f.fwd.x, -f.fwd.y, -f.fwd.z), d), 1.0]
  {
    FrameCoordinates(m, LookatFrame(lib, position, dstpos, up), position, p);
  }

  /** In particular the eye itself goes to the origin. */
  lemma LookatEyeToOrigin(lib: Libm, m: seq<real>, position: Vector, dstpos: Vector, up: Vector)
    requires |m| == 16
    requires m[3] == 0.0 && m[7] == 0.0 && m[11] == 0.0
    requires m[12] == 0.0 && m[13] == 0.0 && m[14] == 0.0
    ensures MatVec(LookatMatrix(lib, m, position, dstpos, up), [position.x, position.y, position.z, 1.0])
         == [0.0, 0.0, 0.0, 1.0]
  {
    LookatCameraCoordinates(lib, m, position, dstpos, up, position);
  }

  /** matr_lookat does not clear entries 3, 7 and 11: whatever the buffer held
      there stays, and leaks into entry 15 through translate_matrix. */
  lemma LookatKeepsBottomRow(lib: Libm, m: seq<real>, position: Vector, dstpos: Vector, up: Vector)
    requires |m| == 16
    ensures var r := LookatMatrix(lib, m, position, dstpos, up);
      r[3] == m[3] && r[7] == m[7] && r[11] == m[11]
      && r[15] == m[3] * -position.x + m[7] * -position.y + m[11] * -position.z + 1.0
  {
  }

  /** When the eye is at the target, every axis is the zero vector: norm_vector
      turns the zero direction into zero, and so do the two cross products. */
  lemma LookatFrameDegenerate(lib: Libm, position: Vector, up: Vector)
    requires lib.sqrt(0.0) == 0.0
    ensures LookatFrame(lib, position, position, up) == Frame(Zero, Zero, Zero)
  {
    NormVectorOfZero(lib);
    assert SubVector(position, position) == Zero;
  }

  /** The zero frame writes zeros into the nine rotation entries. */
  lemma ZeroFrameRotation(m: seq<real>, r: seq<real>)
    requires |m| == 16 && r == LookatRotation(m, Frame(Zero, Zero, Zero))
    ensures r[0] == 0.0 && r[1] == 0.0 && r[2] == 0.0
    ensures r[4] == 0.0 && r[5] == 0.0 && r[6] == 0.0
    ensures r[8] == 0.0 && r[9] == 0.0 && r[10] == 0.0
    ensures r[12] == m[12] && r[13] == m[13] && r[14] == m[14]
  {
  }

  /** translate_matrix adds nothing to entries 12 to 14 of a matrix whose first
      three columns are zero in rows 0 to 2. */
  lemma TranslatedZeroRotation(m: seq<real>, xt: real, yt: real, zt: real)
    requires |m| == 16
    requires m[0] == 0.0 && m[1] == 0.0 && m[2] == 0.0
    requires m[4] == 0.0 && m[5] == 0.0 && m[6] == 0.0
    requires m[8] == 0.0 && m[9] == 0.0 && m[10] == 0.0
    ensures var r := Translated(m, xt, yt, zt);
      r[12] == m[12] && r[13] == m[13] && r[14] == m[14]
  {
    var r := Translated(m, xt, yt, zt);
    assert r[12] == m[0] * xt + m[4] * yt + m[8] * zt + m[12];
    assert r[13] == m[1] * xt + m[5] * yt + m[9] * zt + m[13];
    assert r[14] == m[2] * xt + m[6] * yt + m[10] * zt + m[14];
  }

  /** matr_lookat's result, for a known frame. */
  lemma LookatMatrixOfFrame(lib: Libm, m: seq<real>, position: Vector, dstpos: Vector, up: Vector, f: Frame)
    requires |m| == 16 && LookatFrame(lib, position, dstpos, up) == f
    ensures LookatMatrix(lib, m, position, dstpos, up) == Translated(LookatRotation(m, f), -position.x, -position.y, -position.z)
  {
  }

  /** The degenerate look-at (eye at the target): given sqrt 0 = 0, matr_lookat
      writes the zero frame, so (by ZeroFrameMatrix) the nine rotation entries
      become 0 and entries 12 to 14 keep whatever the buffer held. */
  lemma LookatDegenerate(lib: Libm, m: seq<real>, position: Vector, up: Vector)
    requires |m| == 16 && lib.sqrt(0.0) == 0.0
    ensures LookatMatrix(lib, m, position, position, up)
         == Translated(LookatRotation(m, Frame(Zero, Zero, Zero)), -position.x, -position.y, -position.z)
  {
    LookatFrameDegenerate(lib, position, up);
    LookatMatrixOfFrame(lib, m, position, position, up, Frame(Zero, Zero, Zero));
  }

  /** What matr_lookat leaves for the zero frame. */
  lemma ZeroFrameMatrix(m: seq<real>, xt: real, yt: real, zt: real)
    requires |m| == 16
    ensures var r := Translated(LookatRotation(m, Frame(Zero, Zero, Zero)), xt, yt, zt);
      && r[0] == 0.0 && r[1] == 0.0 && r[2] == 0.0
      && r[4] == 0.0 && r[5] == 0.0 && r[6] == 0.0
      && r[8] == 0.0 && r[9] == 0.0 && r[10] == 0.0
      && r[12] == m[12] && r[13] == m[13] && r[14] == m[14]
  {
    var rot := LookatRotation(m, Frame(Zero, Zero, Zero));
    ZeroFrameRotation(m, rot);
    TranslatedZeroRotation(rot, xt, yt, zt);
  }

  /** Along one axis, the orthographic scale and offset take lo to -1 and hi
      to 1. */
  lemma OrthoAxis(lo: real, hi: real, scale: real, offset: real)
    requires hi != lo
    requires scale == 2.0 * (1.0 / (hi - lo)) && offset == -(hi + lo) * (1.0 / (hi - lo))
    ensures lo * scale + 1.0 * offset == -1.0
    ensures hi * scale + 1.0 * offset == 1.0
  {
    var inv := 1.0 / (hi - lo);
    assert (hi - lo) * inv == 1.0;
    assert lo * scale + offset == (lo - hi) * inv;
    assert hi * scale + offset == (hi - lo) * inv;
  }

  /** The image of point (x, y, z) under a matrix o shaped like an
      orthographic one, when each axis maps to the given coordinate. */
  lemma OrthoImage(o: seq<real>, x: real, y: real, z: real, ex: real, ey: real, ez: real)
    requires |o| == 16
    requires o[1] == 0.0 && o[2] == 0.0 && o[3] == 0.0 && o[4] == 0.0 && o[6] == 0.0 && o[7] == 0.0
    requires o[8] == 0.0 && o[9] == 0.0 && o[11] == 0.0 && o[15] == 1.0
    requires x * o[0] + 1.0 * o[12] == ex && y * o[5] + 1.0 * o[13] == ey && z * o[10] + 1.0 * o[14] == ez
    ensures MatVec(o, [x, y, z, 1.0]) == [ex, ey, ez, 1.0]
  {
    var v := [x, y, z, 1.0];
    MatVecRow(o, v, 0, o[0], 0.0, 0.0, o[12]);
    MatVecRow(o, v, 1, 0.0, o[5], 0.0, o[13]);
    MatVecRow(o, v, 2, 0.0, 0.0, o[10], o[14]);
    MatVecRow(o, v, 3, 0.0, 0.0, 0.0, 1.0);
    var r := MatVec(o, v);
    var e := [ex, ey, ez, 1.0];
    assert r[0] == e[0] && r[1] == e[1] && r[2] == e[2] && r[3] == e[3];
  }

  /** The nonzero entries of build_orthographic_matrix, one axis at a time. */
  lemma OrthoEntries(left: real, right: real, bottom: real, top: real, nearf: real, farf: real)
    requires right != left && top != bottom && farf != nearf
    ensures var o := OrthoMatrix(left, right, bottom, top, nearf, farf);
      && o[0] == 2.0 * (1.0 / (right - left)) && o[12] == -(right + left) * (1.0 / (right - left))
      && o[5] == 2.0 * (1.0 / (top - bottom)) && o[13] == -(top + bottom) * (1.0 / (top - bottom))
      && o[10] == 2.0 * (1.0 / (farf - nearf)) && o[14] == -(farf + nearf) * (1.0 / (farf - nearf))
  {
  }

  /** build_orthographic_matrix maps the corner (left, bottom, nearf) of the
      box to (-1, -1, -1) and the corner (right, top, farf) to (1, 1, 1). */
  lemma OrthoMapsCorners(left: real, right: real, bottom: real, top: real, nearf: real, farf: real)
    requires right != left && top != bottom && farf != nearf
    ensures MatVec(OrthoMatrix(left, right, bottom, top, nearf, farf), [left, bottom, nearf, 1.0]) == [-1.0, -1.0, -1.0, 1.0]
    ensures MatVec(OrthoMatrix(left, right, bottom, top, nearf, farf), [right, top, farf, 1.0]) == [1.0, 1.0, 1.0, 1.0]
  {
    var o := OrthoMatrix(left, right, bottom, top, nearf, farf);
    OrthoEntries(left, right, bottom, top, nearf, farf);
    OrthoAxis(left, right, o[0], o[12]);
    OrthoAxis(bottom, top, o[5], o[13]);
    OrthoAxis(nearf, farf, o[10], o[14]);
    OrthoImage(o, left, bottom, nearf, -1.0, -1.0, -1.0);
    OrthoImage(o, right, top, farf, 1.0, 1.0, 1.0);
  }

  /** The orthographic matrix of the box [-1, 1]^3 is the identity. */
  lemma OrthoOfUnitBox()
    ensures OrthoMatrix(-1.0, 1.0, -1.0, 1.0, -1.0, 1.0) == Identity
  {
    var o := OrthoMatrix(-1.0, 1.0, -1.0, 1.0, -1.0, 1.0);
    forall k | 0 <= k < 16
      ensures o[k] == Identity[k]
    {
    }
  }

  /** Depth of the perspective matrix in the plane z = -d of view space:
      clip z and w for d = nearv and d = farv. */
  lemma DepthHelper(nearv: real, farv: real, negDepth: real)
    requires negDepth == nearv - farv && negDepth != 0.0
    ensures -nearv * ((farv + nearv) / negDepth) + 1.0 * (2.0 * (nearv * farv) / negDepth) == -nearv
    ensures -farv * ((farv + nearv) / negDepth) + 1.0 * (2.0 * (nearv * farv) / negDepth) == farv
  {
    var a := (farv + nearv) / negDepth;
    var b := 2.0 * (nearv * farv) / negDepth;
    assert a * negDepth == farv + nearv;
    assert b * negDepth == 2.0 * (nearv * farv);
    assert (-nearv * a + b) * negDepth == -nearv * negDepth;
    assert (-farv * a + b) * negDepth == farv * negDepth;
  }

  /** build_projection_matrix sets w to -z, and takes the near plane
      z = -nearv to depth z/w = -1 and the far plane z = -farv to z/w = 1. */
  lemma ProjectionDepthRange(lib: Libm, nearv: real, farv: real, aspect: real, fov: real, x: real, y: real, z: real)
    requires lib.tan(fov * (lib.pi / 360.0)) != 0.0 && aspect != 0.0 && nearv != farv
    ensures MatVec(ProjectionMatrix(lib, nearv, farv, aspect, fov), [x, y, z, 1.0])[3] == -z
    ensures var c := MatVec(ProjectionMatrix(lib, nearv, farv, aspect, fov), [x, y, -nearv, 1.0]);
      c[2] == -nearv && c[3] == nearv
    ensures var c := MatVec(ProjectionMatrix(lib, nearv, farv, aspect, fov), [x, y, -farv, 1.0]);
      c[2] == farv && c[3] == farv
  {
    DepthHelper(nearv, farv, nearv - farv);
  }
}
