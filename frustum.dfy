/** View-frustum plane extraction: update_frustum combines a modelview and a
    projection matrix and reads six clip planes off the product, each plane
    (a, b, c, d) meaning a*x + b*y + c*z + d >= 0, then scales each to a unit
    normal with normalize_plane. The frustum is a caller-owned 6 x 4 array. */
module Frustum {
  import opened Libm
  import opened Matrices

  /** The matrix row plane p combines with row 3: left/right use row 0,
      top/bottom row 1, near/far row 2. */
  function PlaneRow(p: int): int
  {
    if p < 2 then 0 else if p < 4 then 1 else 2
  }

  /** Whether plane p adds its row to row 3 (left, bottom, near) or
      subtracts it (right, top, far). */
  predicate PlaneAdds(p: int)
  {
    p == 0 || p == 3 || p == 4
  }

  /** Row 3's entry u combined with the plane's row entry v. */
  function Combine(p: int, u: real, v: real): real
  {
    if PlaneAdds(p) then u + v else u - v
  }

  /** Plane p before normalisation: entry c is m[4c + 3] plus or minus
      m[4c + PlaneRow(p)]. */
  function RawPlane(m: seq<real>, p: int): (r: seq<real>)
    requires |m| == 16 && 0 <= p < 6
    ensures |r| == 4
  {
    var row := PlaneRow(p);
    [Combine(p, m[3], m[row]), Combine(p, m[7], m[row + 4]),
     Combine(p, m[11], m[row + 8]), Combine(p, m[15], m[row + 12])]
  }

  /** The squared length of a plane's normal (a, b, c). */
  function SquaredNormal(pl: seq<real>): (r: real)
    requires |pl| == 4
    ensures r >= 0.0
  {
    pl[0] * pl[0] + pl[1] * pl[1] + pl[2] * pl[2]
  }

  /** Whether normalize_plane divides by a nonzero length for this plane. */
  predicate Normalizable(lib: Libm, pl: seq<real>)
    requires |pl| == 4
  {
    lib.sqrt(SquaredNormal(pl)) != 0.0
  }

  /** The scale factor normalize_plane applies: 1 / sqrt(sq). */
  function InverseLength(lib: Libm, sq: real): real
    requires lib.sqrt(sq) != 0.0
  {
    1.0 / lib.sqrt(sq)
  }

  /** What normalize_plane leaves in the row: all four entries multiplied by
      1 / sqrt(a*a + b*b + c*c). */
  function NormalizedPlane(lib: Libm, pl: seq<real>): (r: seq<real>)
    requires |pl| == 4 && Normalizable(lib, pl)
    ensures |r| == 4
  {
    var mag := InverseLength(lib, SquaredNormal(pl));
    [pl[0] * mag, pl[1] * mag, pl[2] * mag, pl[3] * mag]
  }

  /** Whether every plane of combined matrix m can be normalised. */
  predicate AllNormalizable(lib: Libm, m: seq<real>)
    requires |m| == 16
  {
    forall p :: 0 <= p < 6 ==> Normalizable(lib, RawPlane(m, p))
  }

  /** The six normalised planes of combined matrix m. */
  function Planes(lib: Libm, m: seq<real>): (r: seq<seq<real>>)
    requires |m| == 16 && AllNormalizable(lib, m)
    ensures |r| == 6 && forall p :: 0 <= p < 6 ==> |r[p]| == 4
  {
    seq(6, p requires 0 <= p < 6 => NormalizedPlane(lib, RawPlane(m, p)))
  }

  /** The frustum update_frustum stores: the planes of the product
      multiply_matrix(mmr, mvm, prjm). */
  function FrustumOf(lib: Libm, prjm: seq<real>, mvm: seq<real>): (r: seq<seq<real>>)
    requires |prjm| == 16 && |mvm| == 16 && AllNormalizable(lib, MatMul(mvm, prjm))
    ensures |r| == 6
  {
    Planes(lib, MatMul(mvm, prjm))
  }

  /** Row p of the frustum array. */
  function Row(fr: array2<real>, p: int): (r: seq<real>)
    requires fr.Length0 == 6 && fr.Length1 == 4 && 0 <= p < 6
    reads fr
    ensures |r| == 4
  {
    [fr[p, 0], fr[p, 1], fr[p, 2], fr[p, 3]]
  }

  /** normalize_plane applied to row p of the frustum. */
  method NormalizePlane(lib: Libm, fr: array2<real>, p: int)
    requires fr.Length0 == 6 && fr.Length1 == 4 && 0 <= p < 6
    requires Normalizable(lib, Row(fr, p))
    modifies fr
    ensures Row(fr, p) == NormalizedPlane(lib, old(Row(fr, p)))
    ensures forall q, c :: 0 <= q < 6 && q != p && 0 <= c < 4 ==> fr[q, c] == old(fr[q, c])
  {
    ghost var pl := Row(fr, p);
    var a, b, c, d := fr[p, 0], fr[p, 1], fr[p, 2], fr[p, 3];
    var sq := a * a + b * b + c * c;
    assert pl == [a, b, c, d] && SquaredNormal(pl) == sq;
    var mag := InverseLength(lib, sq);
    fr[p, 0] := a * mag;
    fr[p, 1] := b * mag;
    fr[p, 2] := c * mag;
    fr[p, 3] := d * mag;
    NormalizedEntries(lib, pl, a, b, c, d, mag);
    assert Row(fr, p) == [a * mag, b * mag, c * mag, d * mag];
  }

  /** NormalizedPlane of the plane (a, b, c, d), for its inverse length mag. */
  lemma NormalizedEntries(lib: Libm, pl: seq<real>, a: real, b: real, c: real, d: real, mag: real)
    requires pl == [a, b, c, d] && Normalizable(lib, pl)
    requires mag == InverseLength(lib, SquaredNormal(pl))
    ensures NormalizedPlane(lib, pl) == [a * mag, b * mag, c * mag, d * mag]
  {
    var np, e := NormalizedPlane(lib, pl), [a * mag, b * mag, c * mag, d * mag];
    assert np[0] == e[0];
    assert np[1] == e[1];
    assert np[2] == e[2];
    assert np[3] == e[3];
  }

  /** The four assignments of plane p from the combined matrix mmr. */
  method StorePlane(fr: array2<real>, mmr: array<real>, p: int)
    requires fr.Length0 == 6 && fr.Length1 == 4 && mmr.Length == 16 && 0 <= p < 6
    modifies fr
    ensures Row(fr, p) == RawPlane(mmr[..], p)
    ensures forall q, c :: 0 <= q < 6 && q != p && 0 <= c < 4 ==> fr[q, c] == old(fr[q, c])
  {
    var row := PlaneRow(p);
    if PlaneAdds(p) {
      fr[p, 0] := mmr[3] + mmr[row];
      fr[p, 1] := mmr[7] + mmr[4 + row];
      fr[p, 2] := mmr[11] + mmr[8 + row];
      fr[p, 3] := mmr[15] + mmr[12 + row];
    } else {
      fr[p, 0] := mmr[3] - mmr[row];
      fr[p, 1] := mmr[7] - mmr[4 + row];
      fr[p, 2] := mmr[11] - mmr[8 + row];
      fr[p, 3] := mmr[15] - mmr[12 + row];
    }
  }

  /** One block of update_frustum: plane p stored, then normalize_plane on
      that row. */
  method ExtractPlane(lib: Libm, fr: array2<real>, mmr: array<real>, p: int)
    requires fr.Length0 == 6 && fr.Length1 == 4 && mmr.Length == 16 && 0 <= p < 6
    requires Normalizable(lib, RawPlane(mmr[..], p))
    modifies fr
    ensures Row(fr, p) == NormalizedPlane(lib, RawPlane(mmr[..], p))
    ensures forall q :: 0 <= q < 6 && q != p ==> Row(fr, q) == old(Row(fr, q))
  {
    StorePlane(fr, mmr, p);
    NormalizePlane(lib, fr, p);
  }

  /** The six blocks of update_frustum: every row becomes the matching
      normalised plane of the combined matrix mmr. */
  method ExtractPlanes(lib: Libm, frustum: array2<real>, mmr: array<real>)
    requires frustum.Length0 == 6 && frustum.Length1 == 4 && mmr.Length == 16
    requires AllNormalizable(lib, mmr[..])
    modifies frustum
    ensures forall p :: 0 <= p < 6 ==> Row(frustum, p) == Planes(lib, mmr[..])[p]
  {
    ghost var planes := Planes(lib, mmr[..]);
    ExtractPlane(lib, frustum, mmr, 0);
    ghost var r0 := Row(frustum, 0);
    ExtractPlane(lib, frustum, mmr, 1);
    ghost var r1 := Row(frustum, 1);
    ExtractPlane(lib, frustum, mmr, 2);
    ghost var r2 := Row(frustum, 2);
    ExtractPlane(lib, frustum, mmr, 3);
    ghost var r3 := Row(frustum, 3);
    ExtractPlane(lib, frustum, mmr, 4);
    ghost var r4 := Row(frustum, 4);
    ExtractPlane(lib, frustum, mmr, 5);
    assert Row(frustum, 0) == r0 == planes[0] && Row(frustum, 1) == r1 == planes[1];
    assert Row(frustum, 2) == r2 == planes[2] && Row(frustum, 3) == r3 == planes[3];
    assert Row(frustum, 4) == r4 == planes[4];
  }

  /** update_frustum: every row of the frustum becomes the matching plane of
      FrustumOf. */
  method UpdateFrustum(lib: Libm, prjm: array<real>, mvm: array<real>, frustum: array2<real>)
    requires prjm.Length == 16 && mvm.Length == 16
    requires frustum.Length0 == 6 && frustum.Length1 == 4
    requires AllNormalizable(lib, MatMul(mvm[..], prjm[..]))
    modifies frustum
    ensures forall p :: 0 <= p < 6 ==> Row(frustum, p) == FrustumOf(lib, prjm[..], mvm[..])[p]
  {
    var mmr := new real[16];
    MultiplyMatrix(mmr, mvm, prjm);
    ExtractPlanes(lib, frustum, mmr);
  }

  /** The signed distance of point (x, y, z) from plane pl, scaled by the
      length of its normal. */
  function PlaneDistance(pl: seq<real>, x: real, y: real, z: real): real
    requires |pl| == 4
  {
    pl[0] * x + pl[1] * y + pl[2] * z + pl[3]
  }

  // Lemmas

  /** The planes of the canonical clip volume -w <= x, y, z <= w, in
      update_frustum's order: left, right, top, bottom, near, far. */
  const ClipCube: seq<seq<real>> :=
    [[1.0, 0.0, 0.0, 1.0], [-1.0, 0.0, 0.0, 1.0], [0.0, -1.0, 0.0, 1.0],
     [0.0, 1.0, 0.0, 1.0], [0.0, 0.0, 1.0, 1.0], [0.0, 0.0, -1.0, 1.0]]

  /** The raw planes of the identity are those of the clip volume. */
  lemma IdentityRawPlane(p: int)
    requires 0 <= p < 6
    ensures RawPlane(Identity, p) == ClipCube[p]
  {
    var r := RawPlane(Identity, p);
    assert Identity == [1.0, 0.0, 0.0, 0.0, 0.0, 1.0, 0.0, 0.0, 0.0, 0.0, 1.0, 0.0, 0.0, 0.0, 0.0, 1.0];
    assert PlaneRow(p) == 0 || PlaneRow(p) == 1 || PlaneRow(p) == 2;
    if p == 0 {
      assert r == [1.0, 0.0, 0.0, 1.0];
    } else if p == 1 {
      assert r == [-1.0, 0.0, 0.0, 1.0];
    } else if p == 2 {
      assert r == [0.0, -1.0, 0.0, 1.0];
    } else if p == 3 {
      assert r == [0.0, 1.0, 0.0, 1.0];
    } else if p == 4 {
      assert r == [0.0, 0.0, 1.0, 1.0];
    } else {
      assert r == [0.0, 0.0, -1.0, 1.0];
    }
  }

  /** A plane whose normal already has length 1 is left as it is. */
  lemma UnitPlaneUnchanged(lib: Libm, pl: seq<real>)
    requires |pl| == 4 && SquaredNormal(pl) == 1.0 && lib.sqrt(1.0) == 1.0
    ensures Normalizable(lib, pl) && NormalizedPlane(lib, pl) == pl
  {
    var np := NormalizedPlane(lib, pl);
    assert InverseLength(lib, SquaredNormal(pl)) == 1.0;
    assert np[0] == pl[0] && np[1] == pl[1] && np[2] == pl[2] && np[3] == pl[3];
  }

  /** With identity matrices the frustum is the canonical clip volume. */
  lemma IdentityFrustum(lib: Libm)
    requires lib.sqrt(1.0) == 1.0
    ensures AllNormalizable(lib, MatMul(Identity, Identity))
    ensures FrustumOf(lib, Identity, Identity) == ClipCube
  {
    MatMulIdentityLeft(Identity);
    IdentityPlanes(lib);
  }

  /** The planes of the identity are those of the clip volume. */
  lemma IdentityPlanes(lib: Libm)
    requires lib.sqrt(1.0) == 1.0
    ensures AllNormalizable(lib, Identity)
    ensures Planes(lib, Identity) == ClipCube
  {
    forall p | 0 <= p < 6
      ensures Normalizable(lib, RawPlane(Identity, p))
      ensures NormalizedPlane(lib, RawPlane(Identity, p)) == ClipCube[p]
    {
      IdentityRawPlane(p);
      UnitPlaneUnchanged(lib, ClipCube[p]);
    }
  }

  /** The normal of a plane normalised by a scale 1 / r with r * r equal to
      its squared length has length 1. */
  lemma UnitScaleHelper(a: real, b: real, c: real, r: real)
    requires r != 0.0 && r * r == a * a + b * b + c * c
    ensures (a * (1.0 / r)) * (a * (1.0 / r)) + (b * (1.0 / r)) * (b * (1.0 / r))
          + (c * (1.0 / r)) * (c * (1.0 / r)) == 1.0
  {
    var t := 1.0 / r;
    assert t * r == 1.0;
    calc {
      (a * t) * (a * t) + (b * t) * (b * t) + (c * t) * (c * t);
      (a * a + b * b + c * c) * (t * t);
      (r * r) * (t * t);
      (r * t) * (r * t);
    }
  }

  /** normalize_plane yields a unit normal whenever sqrt returns the square
      root of the squared length. */
  lemma NormalizedPlaneUnit(lib: Libm, pl: seq<real>)
    requires |pl| == 4 && Normalizable(lib, pl)
    requires lib.sqrt(SquaredNormal(pl)) * lib.sqrt(SquaredNormal(pl)) == SquaredNormal(pl)
    ensures SquaredNormal(NormalizedPlane(lib, pl)) == 1.0
  {
    var r := lib.sqrt(SquaredNormal(pl));
    UnitScaleHelper(pl[0], pl[1], pl[2], r);
    assert InverseLength(lib, SquaredNormal(pl)) == 1.0 / r;
  }

  /** A positive scale keeps the sign of a distance. */
  lemma PositiveScaleKeepsSign(d: real, t: real)
    requires t > 0.0
    ensures (d * t >= 0.0) <==> (d >= 0.0)
  {
    if d < 0.0 {
      assert d * t < 0.0;
    }
  }

  /** Normalising a plane with a positive length scales every distance by the
      inverse length, so each point stays on the same side of the plane. */
  lemma NormalizedPlaneKeepsSide(lib: Libm, pl: seq<real>, x: real, y: real, z: real)
    requires |pl| == 4 && lib.sqrt(SquaredNormal(pl)) > 0.0
    ensures PlaneDistance(NormalizedPlane(lib, pl), x, y, z)
         == PlaneDistance(pl, x, y, z) * InverseLength(lib, SquaredNormal(pl))
    ensures (PlaneDistance(NormalizedPlane(lib, pl), x, y, z) >= 0.0) <==> (PlaneDistance(pl, x, y, z) >= 0.0)
  {
    var t := InverseLength(lib, SquaredNormal(pl));
    assert t > 0.0;
    PositiveScaleKeepsSign(PlaneDistance(pl, x, y, z), t);
  }

  /** The distance from a combined plane is the combination of the distances
      u and v from its two halves. */
  lemma DistanceSplits(p: int, pl: seq<real>, a0: real, a1: real, a2: real, a3: real,
                       b0: real, b1: real, b2: real, b3: real, x: real, y: real, z: real, u: real, v: real)
    requires pl == [Combine(p, a0, b0), Combine(p, a1, b1), Combine(p, a2, b2), Combine(p, a3, b3)]
    requires u == x * a0 + y * a1 + z * a2 + 1.0 * a3 && v == x * b0 + y * b1 + z * b2 + 1.0 * b3
    ensures PlaneDistance(pl, x, y, z) == Combine(p, u, v)
  {
    if PlaneAdds(p) {
      assert (a0 + b0) * x + (a1 + b1) * y + (a2 + b2) * z + (a3 + b3) == u + v;
    } else {
      assert (a0 - b0) * x + (a1 - b1) * y + (a2 - b2) * z + (a3 - b3) == u - v;
    }
  }

  /** The raw plane p of matrix m measures the clip coordinates of a point:
      its distance is w + x (left), w - x (right), w - y (top), w + y
      (bottom), w + z (near) or w - z (far), with (x, y, z, w) the point
      transformed by m. */
  lemma RawPlaneMeasuresClip(m: seq<real>, p: int, x: real, y: real, z: real)
    requires |m| == 16 && 0 <= p < 6
    ensures var clip := MatVec(m, [x, y, z, 1.0]);
      PlaneDistance(RawPlane(m, p), x, y, z)
        == Combine(p, clip[3], clip[PlaneRow(p)])
  {
    var row := PlaneRow(p);
    var clip := MatVec(m, [x, y, z, 1.0]);
    DistanceSplits(p, RawPlane(m, p), m[3], m[7], m[11], m[15], m[row], m[row + 4], m[row + 8], m[row + 12],
                   x, y, z, clip[3], clip[row]);
  }

  /** Hence a point has a nonnegative distance from stored plane p exactly
      when its clip coordinates under the combined matrix satisfy that plane's
      inequality (w + x >= 0 for the left plane, and so on), given a positive
      length. */
  lemma FrustumSideMatchesClip(lib: Libm, prjm: seq<real>, mvm: seq<real>, p: int, x: real, y: real, z: real)
    requires |prjm| == 16 && |mvm| == 16 && AllNormalizable(lib, MatMul(mvm, prjm)) && 0 <= p < 6
    requires lib.sqrt(SquaredNormal(RawPlane(MatMul(mvm, prjm), p))) > 0.0
    ensures var clip := MatVec(MatMul(mvm, prjm), [x, y, z, 1.0]);
      (PlaneDistance(FrustumOf(lib, prjm, mvm)[p], x, y, z) >= 0.0) <==> (Combine(p, clip[3], clip[PlaneRow(p)]) >= 0.0)
  {
    var m := MatMul(mvm, prjm);
    RawPlaneMeasuresClip(m, p, x, y, z);
    NormalizedPlaneKeepsSide(lib, RawPlane(m, p), x, y, z);
  }
}
