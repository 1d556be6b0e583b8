/** project_matrix: the gluProject replacement that maps an object-space
    point to window coordinates through a model and a projection matrix. */
module Projection {
  import opened Vectors
  import opened Matrices

  datatype Option<T> = None | Some(value: T)

  /** The homogeneous point (x, y, z, 1) after the model matrix and then the
      projection matrix, as the two mult_matrix_vecf calls compute it. */
  function ClipCoords(obj: Vector, model: seq<real>, proj: seq<real>): (r: seq<real>)
    requires |model| == 16 && |proj| == 16
    ensures |r| == 4
  {
    MatVec(proj, MatVec(model, [obj.x, obj.y, obj.z, 1.0]))
  }

  /** What project_matrix reports: nothing when the homogeneous w is exactly 0;
      otherwise x and y divided by w, mapped from [-1, 1] to [0, 1] and then into
      the viewport (x0, y0, width, height), and z divided by w and mapped to
      [0, 1] only. */
  function Project(obj: Vector, model: seq<real>, proj: seq<real>, viewport: seq<int>): Option<Vector>
    requires |model| == 16 && |proj| == 16 && |viewport| == 4
  {
    var c := ClipCoords(obj, model, proj);
    WindowCoords(c[0], c[1], c[2], c[3], viewport[0], viewport[1], viewport[2], viewport[3])
  }

  /** The second half of project_matrix, from homogeneous clip coordinates
      (x, y, z, w) and the viewport (x0, y0, width, height). */
  function WindowCoords(x: real, y: real, z: real, w: real, x0: int, y0: int, width: int, height: int): Option<Vector>
  {
    if w == 0.0 then None
    else Some(Vector((x / w * 0.5 + 0.5) * width as real + x0 as real,
                     (y / w * 0.5 + 0.5) * height as real + y0 as real,
                     z / w * 0.5 + 0.5))
  }

  /** project_matrix. The three out-pointers are modelled as values passed in
      (winx0, winy0, winz0: what the caller's variables held) and handed back
      (winx, winy, winz): on failure they come back as they went in. */
  method ProjectMatrix(objx: real, objy: real, objz: real,
                       modelMatrix: array<real>, projMatrix: array<real>, viewport: array<int>,
                       winx0: real, winy0: real, winz0: real)
    returns (res: int, winx: real, winy: real, winz: real)
    requires modelMatrix.Length == 16 && projMatrix.Length == 16 && viewport.Length == 4
    ensures res == 0 || res == 1
    ensures res == 0 <==> Project(Vector(objx, objy, objz), modelMatrix[..], projMatrix[..], viewport[..]) == None
    ensures res == 0 ==> winx == winx0 && winy == winy0 && winz == winz0
    ensures res == 1 ==> Project(Vector(objx, objy, objz), modelMatrix[..], projMatrix[..], viewport[..])
                         == Some(Vector(winx, winy, winz))
  {
    var vin := new real[4];
    var vout := new real[4];
    winx, winy, winz := winx0, winy0, winz0;

    vin[0] := objx;
    vin[1] := objy;
    vin[2] := objz;
    vin[3] := 1.0;
    assert vin[..] == [objx, objy, objz, 1.0];

    MultMatrixVecF(modelMatrix, vin, vout);
    MultMatrixVecF(projMatrix, vout, vin);
    assert vin[..] == ClipCoords(Vector(objx, objy, objz), modelMatrix[..], projMatrix[..]);
    res, winx, winy, winz := ClipToWindow(vin, viewport, winx, winy, winz);
  }

  /** project_matrix after the two products: the check on w, then the
      in-place divide and remap of the clip coordinates held in vin. */
  method ClipToWindow(vin: array<real>, viewport: array<int>, winx0: real, winy0: real, winz0: real)
    returns (res: int, winx: real, winy: real, winz: real)
    requires vin.Length == 4 && viewport.Length == 4
    modifies vin
    ensures res == 0 || res == 1
    ensures res == 0 <==> old(vin[3]) == 0.0
    ensures res == 0 ==> winx == winx0 && winy == winy0 && winz == winz0
    ensures res == 1 ==> WindowCoords(old(vin[0]), old(vin[1]), old(vin[2]), old(vin[3]),
                                      viewport[0], viewport[1], viewport[2], viewport[3])
                         == Some(Vector(winx, winy, winz))
  {
    ghost var c0, c1, c2, c3 := vin[0], vin[1], vin[2], vin[3];
    winx, winy, winz := winx0, winy0, winz0;
    if vin[3] == 0.0 {
      return 0, winx, winy, winz;
    }

    vin[0] := vin[0] / vin[3];
    vin[1] := vin[1] / vin[3];
    vin[2] := vin[2] / vin[3];
    assert vin[0] == c0 / c3 && vin[1] == c1 / c3 && vin[2] == c2 / c3;

    vin[0] := vin[0] * 0.5 + 0.5;
    vin[1] := vin[1] * 0.5 + 0.5;
    vin[2] := vin[2] * 0.5 + 0.5;
    assert vin[0] == c0 / c3 * 0.5 + 0.5 && vin[1] == c1 / c3 * 0.5 + 0.5 && vin[2] == c2 / c3 * 0.5 + 0.5;

    vin[0] := vin[0] * viewport[2] as real + viewport[0] as real;
    vin[1] := vin[1] * viewport[3] as real + viewport[1] as real;

    winx := vin[0];
    winy := vin[1];
    winz := vin[2];
    WindowCoordsOf(c0, c1, c2, c3, viewport[0], viewport[1], viewport[2], viewport[3], winx, winy, winz);
    return 1, winx, winy, winz;
  }

  /** The window coordinates computed step by step are those of WindowCoords. */
  lemma WindowCoordsOf(x: real, y: real, z: real, w: real, x0: int, y0: int, width: int, height: int,
                       wx: real, wy: real, wz: real)
    requires w != 0.0
    requires wx == (x / w * 0.5 + 0.5) * width as real + x0 as real
    requires wy == (y / w * 0.5 + 0.5) * height as real + y0 as real
    requires wz == z / w * 0.5 + 0.5
    ensures WindowCoords(x, y, z, w, x0, y0, width, height) == Some(Vector(wx, wy, wz))
  {
  }

  // Lemmas

  /** With identity matrices the origin lands in the middle of the viewport,
      at depth 0.5. */
  lemma ProjectOriginThroughIdentity(viewport: seq<int>)
    requires |viewport| == 4
    ensures Project(Vector(0.0, 0.0, 0.0), Identity, Identity, viewport)
         == Some(Vector(viewport[0] as real + viewport[2] as real / 2.0,
                        viewport[1] as real + viewport[3] as real / 2.0, 0.5))
  {
    MatVecIdentity([0.0, 0.0, 0.0, 1.0]);
    assert ClipCoords(Vector(0.0, 0.0, 0.0), Identity, Identity) == [0.0, 0.0, 0.0, 1.0];
  }

  /** The depth is not mapped into the viewport: two viewports give the same
      z, and with z/w in [-1, 1] it lies in [0, 1]. */
  lemma ProjectDepth(obj: Vector, model: seq<real>, proj: seq<real>, vp1: seq<int>, vp2: seq<int>)
    requires |model| == 16 && |proj| == 16 && |vp1| == 4 && |vp2| == 4
    requires Project(obj, model, proj, vp1).Some?
    ensures Project(obj, model, proj, vp2).Some?
    ensures Project(obj, model, proj, vp1).value.z == Project(obj, model, proj, vp2).value.z
    ensures var c := ClipCoords(obj, model, proj);
      -1.0 <= c[2] / c[3] <= 1.0 ==> 0.0 <= Project(obj, model, proj, vp1).value.z <= 1.0
  {
  }
}
