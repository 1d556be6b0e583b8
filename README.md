# arcan_math in Dafny

A model of `arcan_math.c`, the fixed-size 3D math kernel of the Arcan engine:

- 3-vectors and quaternions as value types;
- 4x4 column-major matrices (entry of row r, column c at index 4c + r) in
  caller-owned 16-entry buffers that the operations rewrite in place;
- the gluProject replacement `project_matrix`;
- the even-odd point-in-polygon query `pinpoly`;
- the orientation record refreshed by `update_view`;
- six-plane frustum extraction with `update_frustum`.

Everything is over `real`. The C library's transcendental functions (`sqrt`,
`sin`, `cos`, `tan`, `acos`, `asin`, `atan2`) and `M_PI` are the fields of a
value `Libm` that every operation needing them takes as a parameter. Nothing is
assumed about them. A lemma that needs one of their values (sin 0 = 0,
sqrt(1) = 1, sqrt(s)^2 = s) takes it as a premise.

Modules, one per file:

| module | file | models |
|---|---|---|
| `Libm` | libm.dfy | the C math library functions as parameters |
| `Vectors` | vectors.dfy | `vector` and its operations, `lerp_val`, `lerp_fract` |
| `Quaternions` | quaternions.dfy | `quat` construction and algebra |
| `Interpolation` | interpolation.dfy | slerp and nlerp with their 180/360 wrappers |
| `Euler` | euler.dfy | `angle_quat`, `build_quat_euler`, the `update_view` product, `quat_lookat` |
| `Matrices` | matrices.dfy | `mult_matrix_vecf`, `multiply_matrix`, `scale_matrix`, `translate_matrix`, `identity_matrix` |
| `Rotations` | rotations.dfy | `matr_quatf` |
| `Camera` | camera.dfy | `matr_lookat`, `build_orthographic_matrix`, `build_projection_matrix` |
| `Projection` | projection.dfy | `project_matrix` |
| `Polygon` | polygon.dfy | `pinpoly` |
| `Frustum` | frustum.dfy | `normalize_plane`, `update_frustum` |
| `Orientation` | orientation.dfy | the `orientation` record and `update_view` |

Operations that write a buffer are methods on `array<real>`. Each such method
is specified by a function on sequences, with `ensures m[..] == F(old(m[..]))`.
The properties are proved about those functions.

- The frustum is an `array2<real>` of 6 x 4.
- The orientation record is a class whose embedded matrix is an array.
- `project_matrix`'s three out-pointers are modelled as values passed in and
  handed back. On failure they come back as they went in, which is what
  "left unwritten" means to the caller.

Quirks of the code are reproduced as written, with a lemma that shows each one:

- `norm_vector` multiplies by the length instead of dividing by it
  (`NormVector`, `NormVectorSquaredLength`).
- `div_quatf` takes `w` from `z` (`DivQuatFTakesWFromZ`).
- The long-path `nlerp` blends `a` with itself (`NlerpBlendLongPath`,
  `NlerpLongPathIgnoresB`).
- `update_view` composes its axis rotations in a different order from
  `build_quat_euler`. For three half turns the two give -1 and 1
  (`EulerOfHalfTurns`, `ViewOfHalfTurns`), although both map to the identity
  matrix (`ViewMatrixOfHalfTurns`).
- `matr_lookat` never clears entries 3, 7 and 11, and `translate_matrix`
  (arcan_math.c:68-74, called at 119) adds the old entries 12 to 14 into the
  new translation (`LookatKeepsBottomRow`; with the eye at the target, `LookatDegenerate` and
  `ZeroFrameMatrix`). This is why
  `LookatCameraCoordinates` requires those six entries to be 0.
- `angle_quat` passes its `asin` argument on unclamped, and the model follows
  the code there (`AngleQuatUnclamped`).

## Model

| member | source | states |
|---|---|---|
| Vectors.BuildVect | arcan_math.c:217-221 | the three components are stored as given |
| Vectors.BuildVectPolar | arcan_math.c:210-215 | z is sin(phi), and (x, y) is proportional to (cos theta, sin theta) |
| Vectors.PolarZIgnoresTheta | arcan_math.c:210-215 | the z component does not depend on theta |
| Vectors.Dotp | arcan_math.c:258-261 | a vector's dot product with itself is nonnegative |
| Vectors.DotpSymmetric | arcan_math.c:258-261 | dotp_vector is symmetric |
| Vectors.LenVector | arcan_math.c:243-246 | the length is sqrt of the vector's dot product with itself |
| Vectors.MulVectorF | arcan_math.c:223-227 | every component is multiplied by f; what that does to the length is stated by MulVectorFLength |
| Vectors.MulVectorFLength | arcan_math.c:223-227 | scaling by f scales the squared length by f*f |
| Vectors.Crossp | arcan_math.c:248-256 | the right-handed cross product; its orthogonality and anticommutation are stated by CrosspOrthogonal and CrosspAnticommutes |
| Vectors.CrosspOrthogonal | arcan_math.c:248-256 | the cross product is orthogonal to both operands |
| Vectors.CrosspAnticommutes | arcan_math.c:248-256 | a x b = -(b x a), and a x a = 0 |
| Vectors.AddVector | arcan_math.c:272-279 | sub_vector undoes add_vector: (a + b) - b = a |
| Vectors.AddVectorCommutes | arcan_math.c:272-279 | add_vector is commutative |
| Vectors.SubVector | arcan_math.c:263-270 | the difference is zero exactly when the operands are equal |
| Vectors.MulVector | arcan_math.c:281-290 | (1, 1, 1) is neutral and the zero vector absorbs |
| Vectors.NormVector | arcan_math.c:292-305 | zero vector when the length is below 1e-7, otherwise the input multiplied by its length |
| Vectors.NormVectorOfZero | arcan_math.c:292-305 | given sqrt 0 = 0, the zero vector normalises to the zero vector |
| Vectors.NormVectorSquaredLength | arcan_math.c:292-305 | given a true square root, the result's squared length is the square of the input's, so the result is a unit vector only when the input already was |
| Vectors.LerpVal | arcan_math.c:407-410 | lerp_val gives a at fact 0 and b at fact 1 |
| Vectors.LerpVector | arcan_math.c:398-405 | lerp_val on each component: a at fact 0, b at fact 1 |
| Vectors.LerpFract | arcan_math.c:524-535 | EPSILON cancels: the result is (min(ct, endt) - startt) / (endt - startt) |
| Vectors.LerpFractEndpoints | arcan_math.c:524-535 | 1 from endt on; at startt, 0 when startt < endt and 1 when startt > endt (clamped) |
| Quaternions.BuildQuat | arcan_math.c:229-241 | w is cos of the half angle in radians, and the vector part is the axis times sin of it |
| Quaternions.BuildQuatUnit | arcan_math.c:229-241 | a unit axis and sin^2 + cos^2 = 1 at the half angle give a unit quaternion |
| Quaternions.BuildQuatZero | arcan_math.c:229-241 | zero degrees about any axis gives (0, 0, 0, 1) |
| Quaternions.InvQuat | arcan_math.c:307-311 | q * inv_quat(q) = inv_quat(q) * q = (0, 0, 0, dot_quat(q, q)) |
| Quaternions.InvQuatInvolution | arcan_math.c:307-311 | inverting twice gives q back, and the squared length is kept |
| Quaternions.LenQuat | arcan_math.c:313-316 | the length is sqrt of dot_quat(q, q) |
| Quaternions.NormQuat | arcan_math.c:318-328 | unchanged when the squared length lies strictly between 0.99999 and 1.000001; otherwise the result times sqrt of the squared length is q |
| Quaternions.NormQuatSlowPathUnit | arcan_math.c:318-328 | off the fast path, with a true square root, the result has squared length 1 |
| Quaternions.NormQuatNearUnit | arcan_math.c:318-328 | with a true square root, the result always lies in the fast-path band |
| Quaternions.NormQuatIdempotent | arcan_math.c:318-328 | with a true square root, norm_quat is idempotent |
| Quaternions.DivQuatF | arcan_math.c:330-339 | multiplying the result back by v gives (a.x, a.y, a.z, a.z): w comes from z |
| Quaternions.DivQuatFTakesWFromZ | arcan_math.c:330-339 | dividing (1, 2, 3, 4) by 1 gives (1, 2, 3, 3) |
| Quaternions.MulQuatF | arcan_math.c:341-350 | scaling by 1 is the identity and scaling by 0 gives the zero quaternion |
| Quaternions.MulQuatFLength | arcan_math.c:341-350 | scaling by v scales the squared length by v*v |
| Quaternions.MulQuatFCompose | arcan_math.c:341-350 | scaling by u then v is scaling by u*v |
| Quaternions.MulQuatAssociative | arcan_math.c:352-360 | mul_quat is associative |
| Quaternions.MulQuat | arcan_math.c:352-360 | the Hamilton product; its identity and associativity are stated by MulQuatUnit and MulQuatAssociative |
| Quaternions.MulQuatUnit | arcan_math.c:352-360 | (0, 0, 0, 1) is a left and right identity |
| Quaternions.MulQuatNotCommutative | arcan_math.c:352-360 | i*j = k but j*i = -k |
| Quaternions.AddQuat | arcan_math.c:362-371 | the zero quaternion is neutral, and a + a = 2a |
| Quaternions.DotQuat | arcan_math.c:373-376 | a quaternion's dot product with itself is nonnegative |
| Interpolation.SlerpWeightsAtZero | arcan_math.c:412-440 | at fact 0 the weights are (1, 0) on both branches |
| Interpolation.SlerpWeightsAtOne | arcan_math.c:412-440 | at fact 1 the weights are (0, 1), or (0, -1) when b was flipped |
| Interpolation.SlerpQuatFl | arcan_math.c:412-440 | given sin 0 = 0, slerp starts at a and ends at b, or at -b on the flipped long path |
| Interpolation.SlerpSmallAngleIsLerp | arcan_math.c:412-440 | when sin(theta) <= 0.005 the 180-degree slerp is the componentwise lerp_val |
| Interpolation.SlerpQuat180 | arcan_math.c:455 | the short-path wrapper gives a at 0 and b at 1 |
| Interpolation.SlerpQuat360 | arcan_math.c:456 | the long-path wrapper gives a at 0, and at 1 gives -b when dot(a, b) < 1 and b otherwise |
| Interpolation.NlerpBlend | arcan_math.c:442-453 | the value nlerp_quatfl normalises is a at fact 0, and b at fact 1 unless the long path replaced b |
| Interpolation.NlerpBlendShortPath | arcan_math.c:442-453 | off the long path, the blend is the componentwise lerp_val of a and b |
| Interpolation.NlerpBlendLongPath | arcan_math.c:442-453 | on the long path the blend is a*(1 - 2*fact) |
| Interpolation.NlerpLongPathIgnoresB | arcan_math.c:442-453 | on the long path the result does not depend on b |
| Interpolation.NlerpLongPathHalfway | arcan_math.c:442-453 | halfway along the long path the blend is the zero quaternion |
| Interpolation.NlerpQuatFl | arcan_math.c:442-453 | a near-unit blend is returned as it is |
| Interpolation.NlerpQuat180 | arcan_math.c:457 | a near-unit a at 0 and a near-unit b at 1 are returned as they are |
| Interpolation.NlerpQuat360 | arcan_math.c:458 | a near-unit a at 0; at 1, with a negative dot product, -a |
| Euler.AngleQuat | arcan_math.c:378-396 | the identity quaternion has zero Euler angles, given atan2(0, 1) = 0 and asin 0 = 0 |
| Euler.AngleQuatNegation | arcan_math.c:378-396 | q and -q give the same Euler angles |
| Euler.AngleQuatUnclamped | arcan_math.c:378-396 | the asin argument is not clamped: (1, 0, -1, 0) evaluates asin at 2 |
| Euler.BuildQuatEuler | arcan_math.c:506-510 | the product (X(pitch) * Y(yaw)) * Z(roll): when one factor is the identity, the other two remain in that order |
| Euler.ViewQuat | arcan_math.c:512-522 | update_view's product (X(pitch) * Z(roll)) * Y(yaw): when one factor is the identity, the other two remain in that order |
| Euler.BuildQuatEulerZero | arcan_math.c:506-522 | both products are (0, 0, 0, 1) at zero angles |
| Euler.EulerOfHalfTurns | arcan_math.c:506-510 | three half turns give -1 under build_quat_euler |
| Euler.ViewOfHalfTurns | arcan_math.c:512-522 | the same three half turns give +1 under update_view's order |
| Euler.QuatLookat | arcan_math.c:87-95 | when the two points coincide (and sqrt 0 = 0), the direction normalises to zero and every angle is acos 0 |
| Euler.QuatLookatTranslated | arcan_math.c:87-95 | moving both points by the same offset gives the same quaternion: only the direction between them matters |
| Matrices.MultMatrixVecF | arcan_math.c:35-46 | out[i] is row i of the matrix times the input vector |
| Matrices.MatVecIdentity | arcan_math.c:35-46 | the identity leaves a vector unchanged |
| Matrices.MultiplyMatrix | arcan_math.c:49-58 | dst[i+j] = sum over k of b[i+k] * a[j+4k], for dst distinct from a and b |
| Matrices.MatMulIdentityLeft | arcan_math.c:49-58 | a = I gives dst = b |
| Matrices.MatMulIdentityRight | arcan_math.c:49-58 | b = I gives dst = a |
| Matrices.ScaleMatrix | arcan_math.c:60-66 | columns 0, 1 and 2 are scaled by xs, ys and zs; column 3 is unchanged |
| Matrices.ScaledIsProduct | arcan_math.c:60-66 | scale_matrix is multiplication on the right by diag(xs, ys, zs, 1) |
| Matrices.ScaledByOne | arcan_math.c:60-66 | scaling by (1, 1, 1) changes nothing |
| Matrices.TranslateMatrix | arcan_math.c:68-74 | only m[12..15] change: m[12+r] = m[r]*xt + m[4+r]*yt + m[8+r]*zt + m[12+r] |
| Matrices.TranslatedIsProduct | arcan_math.c:68-74 | translate_matrix is multiplication on the right by the translation matrix |
| Matrices.TranslatedByZero | arcan_math.c:68-74 | translating by (0, 0, 0) changes nothing |
| Matrices.TranslatedCompose | arcan_math.c:68-74 | two translations add up |
| Matrices.IdentityMatrix | arcan_math.c:76-85 | the buffer becomes midentity |
| Rotations.MatrQuatF | arcan_math.c:460-481 | null in, null out with nothing written; otherwise the buffer holds the rotation matrix of a |
| Rotations.QuatMatrixOfUnit | arcan_math.c:460-481 | (0, 0, 0, 1) yields the identity matrix |
| Rotations.QuatMatrixFixedEntries | arcan_math.c:460-481 | entries 3, 7, 11, 12, 13 and 14 are 0 and entry 15 is 1 for every quaternion |
| Rotations.QuatMatrixColumnLength | arcan_math.c:460-481 | the first column's squared length is 1 + 4(y^2 + z^2)(\|a\|^2 - 1): a unit column for a unit quaternion |
| Rotations.QuatMatrixColumnsOrthogonal | arcan_math.c:460-481 | the first two columns have dot product 4xy(1 - \|a\|^2): orthogonal for a unit quaternion |
| Rotations.QuatMatrixNegation | arcan_math.c:460-481 | a and -a give the same matrix |
| Camera.MatrLookat | arcan_math.c:98-120 | entries 0-2, 4-6, 8-10 and 15 are the side, up and negated forward axes and 1, then translate_matrix by -position |
| Camera.LookatCameraCoordinates | arcan_math.c:98-120 | on a buffer whose last row and column hold (0, 0, 0, w), a point p goes to (side.(p-eye), up.(p-eye), -fwd.(p-eye), 1) |
| Camera.LookatEyeToOrigin | arcan_math.c:98-120 | on such a buffer the eye goes to (0, 0, 0, 1) |
| Camera.LookatKeepsBottomRow | arcan_math.c:98-120 | entries 3, 7 and 11 keep the buffer's old values, and they leak into entry 15 |
| Camera.LookatFrameDegenerate | arcan_math.c:98-103 | with the eye at the target (and sqrt 0 = 0), the forward, side and up axes are all zero |
| Camera.LookatDegenerate | arcan_math.c:98-120 | with the eye at the target (and sqrt 0 = 0), the buffer is the zero frame's rotation translated by -position |
| Camera.ZeroFrameMatrix | arcan_math.c:105-119 | for the zero frame the nine rotation entries become 0 and translate_matrix leaves entries 12 to 14 at the buffer's old values |
| Camera.BuildOrthographicMatrix | arcan_math.c:122-147 | the buffer holds the orthographic matrix of the box |
| Camera.OrthoMapsCorners | arcan_math.c:122-147 | the corner (left, bottom, nearf) goes to (-1, -1, -1) and (right, top, farf) to (1, 1, 1) |
| Camera.OrthoOfUnitBox | arcan_math.c:122-147 | the box [-1, 1]^3 gives the identity |
| Camera.BuildProjectionMatrix | arcan_math.c:149-158 | the buffer holds the perspective matrix with h = 1/tan(fov*pi/360) |
| Camera.ProjectionDepthRange | arcan_math.c:149-158 | w' = -z; the near plane z = -nearv goes to clip (z, w) = (-nearv, nearv) and the far plane to (farv, farv) |
| Projection.ProjectMatrix | arcan_math.c:160-197 | returns 0 exactly when the transformed w is 0, leaving the outputs as they were; otherwise returns 1 with x and y mapped into the viewport and z mapped only to z/w*0.5 + 0.5 |
| Projection.ClipToWindow | arcan_math.c:175-196 | the check on w and the in-place divide and remap give the window coordinates of the clip coordinates |
| Projection.ProjectOriginThroughIdentity | arcan_math.c:160-197 | with identity matrices the origin goes to (vp[0] + vp[2]/2, vp[1] + vp[3]/2, 0.5) |
| Projection.ProjectDepth | arcan_math.c:185-196 | z does not depend on the viewport, and lies in [0, 1] when z/w lies in [-1, 1] |
| Polygon.Crosses | arcan_math.c:203-204 | a counted crossing has verty[i] != verty[j], so the division never divides by zero |
| Polygon.Crossings | arcan_math.c:201-206 | at most one crossing per edge examined |
| Polygon.PinPoly | arcan_math.c:199-208 | returns 0 or 1, 0 when nvert <= 0, and the parity of the number of crossing edges (i, i-1 cyclically) |
| Polygon.UnitSquare | arcan_math.c:199-208 | the unit square contains (0.5, 0.5) and not (2, 2) |
| Polygon.NoneAboveOutside | arcan_math.c:199-208 | no edge crosses when no vertex lies above testy |
| Polygon.AllLeftOutside | arcan_math.c:199-208 | no edge crosses when every vertex lies at or left of testx |
| Polygon.AllRightParity | arcan_math.c:199-208 | with every vertex right of testx, every straddling edge crosses, so the count's parity telescopes |
| Polygon.AllRightOutside | arcan_math.c:199-208 | a point left of every vertex is outside |
| Frustum.NormalizePlane | arcan_math.c:537-544 | the row is multiplied by 1/sqrt(a*a + b*b + c*c), and the other rows are unchanged |
| Frustum.NormalizedPlaneUnit | arcan_math.c:537-544 | with a true square root the normal becomes a unit vector |
| Frustum.UnitPlaneUnchanged | arcan_math.c:537-544 | a plane with a unit normal is left as it is, given sqrt(1) = 1 |
| Frustum.NormalizedPlaneKeepsSide | arcan_math.c:537-544 | normalising scales every distance by the positive inverse length, so each point stays on the same side |
| Frustum.StorePlane | arcan_math.c:552-555 | row p becomes row 3 of mmr plus or minus row PlaneRow(p), and the other rows are unchanged |
| Frustum.ExtractPlane | arcan_math.c:552-556 | row p becomes the normalised raw plane, and the other rows are unchanged |
| Frustum.ExtractPlanes | arcan_math.c:552-587 | the six extract-and-normalise blocks leave in row p the normalised raw plane p of mmr, for every p |
| Frustum.UpdateFrustum | arcan_math.c:546-588 | every row becomes the normalised plane of multiply_matrix(mmr, mvm, prjm) in the order left, right, top, bottom, near, far |
| Frustum.IdentityFrustum | arcan_math.c:546-588 | identity matrices give the planes of the clip cube -w <= x, y, z <= w |
| Frustum.RawPlaneMeasuresClip | arcan_math.c:552-587 | the raw planes' distances are w + x, w - x, w - y, w + y, w + z and w - z of the transformed point |
| Frustum.FrustumSideMatchesClip | arcan_math.c:546-588 | a point has a nonnegative distance from a stored plane exactly when its clip coordinates satisfy that plane's inequality |
| Orientation.UpdateView | arcan_math.c:512-522 | stores roll, pitch and yaw verbatim and overwrites the matrix with that of (X(pitch) * Z(roll)) * Y(yaw), re-establishing the record's invariant |
| Orientation.ViewMatrixAtRest | arcan_math.c:512-522 | at zero angles the cached matrix is the identity |
| Orientation.ViewMatrixOfHalfTurns | arcan_math.c:506-522 | three half turns give the identity matrix under both orders |

## Left out

- Single-precision float behaviour: rounding, infinities and NaN. Everything
  is over `real`, so `matr_quat` (arcan_math.c:483-504) is `Rotations.MatrQuatF`
  itself; its only difference is that it stores doubles.
- The values of `sqrt`, `sin`, `cos`, `tan`, `acos`, `asin`, `atan2` and
  `M_PI`. They are parameters, and trigonometric identities are premises of
  the lemmas that need them.
- Divisions the C code performs unguarded become preconditions instead of
  IEEE infinities:
  - `v != 0` for `div_quatf`;
  - a nonzero root for `norm_quat`, off its fast path;
  - nonzero box sides for `build_orthographic_matrix`;
  - `tan != 0`, `aspect != 0` and `nearv != farv` for `build_projection_matrix`;
  - a nonzero plane length for `normalize_plane` and `update_frustum`;
  - `startt != endt` for `lerp_fract`;
  - `M_PI != 0` for `angle_quat`.
- `restrict` aliasing: `MultiplyMatrix` requires `dst` to be distinct from `a`
  and `b`, as the `restrict` qualifiers of `multiply_matrix` demand.
- Matrices.MultMatrixVecF: requires distinct input and output buffers, so an
  in-place call is not modelled. `mult_matrix_vecf` has no `restrict`, and in C
  an in-place call is well defined and gives a different result from `MatVec`.
  Its only callers (arcan_math.c:174-175) pass distinct arrays.
- `arcan_math.h` is not part of this model. The record's layout (three angles
  and an embedded 16-entry matrix) and `EPSILON` (a parameter of `LerpFract`)
  are taken as the code uses them.
- `identity_matrix` copies `midentity` with `memcpy`, modelled as an
  entry-by-entry copy.
- `update_frustum`'s six unrolled blocks are six calls of `ExtractPlane`, one
  per plane.
- Whether the frustum planes face inward, and whether they are correct for
  culling: only the entries that form each plane and the sign of each plane's
  distance are modelled. `update_frustum` multiplies with `a = mvm` and
  `b = prjm`, and the model keeps that order.
- That applying two matrices in turn equals applying their `multiply_matrix`
  product is not proved.
- tests/frameservers/tui_test/tui_test.c: callback stubs for an external
  terminal UI library with no math in them.
- Interpolation.NlerpQuatFl: states only the near-unit fast path. Off it, the
  result is `NormQuat` of the blend, and `NormQuat`'s contract applies.
- Interpolation.SlerpQuat180: states only the endpoints, under the premise
  sin 0 = 0. In between, the weights depend on the uninterpreted `acos` and
  `sin`.
- Interpolation.SlerpQuat360: the same as SlerpQuat180.
- Vectors.BuildVectPolar: states the structure of the result only, because
  `sin` and `cos` are uninterpreted.
