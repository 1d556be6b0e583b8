/** pinpoly: the even-odd (crossing number) point-in-polygon query. */
module Polygon {

  /** The vertex before i on the closed boundary of an n-gon: n - 1 for 0. */
  function Prev(i: int, n: int): int
  {
    if i == 0 then n - 1 else i - 1
  }

  /** Edge (i, j) straddles the horizontal line through ty, and meets it to
      the right of tx. The short-circuit keeps the division away from a
      horizontal edge: a straddling edge has ys[i] != ys[j]. */
  predicate Crosses(xs: seq<real>, ys: seq<real>, i: int, j: int, tx: real, ty: real): (r: bool)
    requires 0 <= i < |xs| && 0 <= j < |xs| && |ys| == |xs|
    ensures r ==> ys[i] != ys[j]
  {
    ((ys[i] > ty) != (ys[j] > ty))
    && (tx < Intercept(xs[i], ys[i], xs[j], ys[j], ty))
  }

  /** The x coordinate at which the line through (xi, yi) and (xj, yj) meets
      y = ty, computed as pinpoly does. */
  function Intercept(xi: real, yi: real, xj: real, yj: real, ty: real): real
    requires yi != yj
  {
    (xj - xi) * (ty - yi) / (yj - yi) + xi
  }

  /** The number of the edges (i, Prev(i, n)), 0 <= i < k, that cross. */
  function Crossings(xs: seq<real>, ys: seq<real>, n: int, k: int, tx: real, ty: real): (r: nat)
    requires 0 <= k <= n <= |xs| && |ys| == |xs|
    ensures r <= k
    decreases k
  {
    if k == 0 then 0
    else Crossings(xs, ys, n, k - 1, tx, ty) + (if Crosses(xs, ys, k - 1, Prev(k - 1, n), tx, ty) then 1 else 0)
  }

  /** The value pinpoly returns for the first n vertices: 0 for no vertices,
      otherwise the parity of the crossing count. */
  function Inside(xs: seq<real>, ys: seq<real>, n: int, tx: real, ty: real): int
    requires n <= |xs| && |ys| == |xs|
  {
    if n <= 0 then 0 else Crossings(xs, ys, n, n, tx, ty) % 2
  }

  /** The number of vertices pinpoly reads: none when nvert is not positive. */
  function Used(nvert: int): nat
  {
    if nvert < 0 then 0 else nvert
  }

  /** pinpoly; nvert may be 0 or negative, in which case no vertex is read.
      Only the first nvert entries of each buffer are read. */
  method PinPoly(nvert: int, vertx: array<real>, verty: array<real>, testx: real, testy: real) returns (c: int)
    requires nvert <= vertx.Length && nvert <= verty.Length
    ensures c == 0 || c == 1
    ensures nvert <= 0 ==> c == 0
    ensures c == Inside(vertx[..Used(nvert)], verty[..Used(nvert)], nvert, testx, testy)
  {
    var xs, ys := vertx[..Used(nvert)], verty[..Used(nvert)];
    c := 0;
    var i, j := 0, nvert - 1;
    while i < nvert
      invariant 0 <= i && (0 < nvert ==> i <= nvert)
      invariant j == Prev(i, nvert) || i == nvert
      invariant c == 0 || c == 1
      invariant nvert <= 0 ==> c == 0
      invariant 0 < nvert ==> c == Crossings(xs, ys, nvert, i, testx, testy) % 2
    {
      if Crosses(xs, ys, i, j, testx, testy) {
        c := if c == 0 then 1 else 0;
      }
      j, i := i, i + 1;
    }
  }

  // Lemmas

  /** The unit square contains its centre and not the point (2, 2). */
  lemma UnitSquare(xs: seq<real>, ys: seq<real>)
    requires xs == [0.0, 1.0, 1.0, 0.0] && ys == [0.0, 0.0, 1.0, 1.0]
    ensures Inside(xs, ys, 4, 0.5, 0.5) == 1
    ensures Inside(xs, ys, 4, 2.0, 2.0) == 0
  {
    assert !Crosses(xs, ys, 0, 3, 0.5, 0.5);
    assert Crosses(xs, ys, 2, 1, 0.5, 0.5);
    assert Crossings(xs, ys, 4, 4, 0.5, 0.5) == 1;
    assert Crossings(xs, ys, 4, 4, 2.0, 2.0) == 0;
  }

  /** Scaling by a factor in [0, 1] stays between 0 and the scaled value. */
  lemma ScaleBetween(d: real, t: real)
    requires 0.0 <= t <= 1.0
    ensures (0.0 <= d * t || d <= d * t) && (d * t <= 0.0 || d * t <= d)
  {
    assert d - d * t == d * (1.0 - t);
    if d >= 0.0 {
      assert d * (1.0 - t) >= 0.0;
    } else {
      assert d * (1.0 - t) <= 0.0;
    }
  }

  /** A quotient of two numbers of the same sign, the divisor the larger in
      magnitude, lies in [0, 1]. */
  lemma RatioBetween(a: real, b: real)
    requires (0.0 <= a <= b && b > 0.0) || (b <= a <= 0.0 && b < 0.0)
    ensures 0.0 <= a / b <= 1.0
  {
    var t := a / b;
    assert t * b == a;
    if b > 0.0 {
      assert (1.0 - t) * b == b - a;
    } else {
      assert (1.0 - t) * b == b - a;
    }
  }

  /** Where a straddling edge meets the line y = ty lies between the x
      coordinates of its ends. */
  lemma InterceptBetween(xi: real, yi: real, xj: real, yj: real, ty: real)
    requires (yi > ty) != (yj > ty)
    ensures var x := Intercept(xi, yi, xj, yj, ty);
      (xi <= x || xj <= x) && (x <= xi || x <= xj)
  {
    var t := (ty - yi) / (yj - yi);
    RatioBetween(ty - yi, yj - yi);
    var d := xj - xi;
    assert d * (ty - yi) / (yj - yi) == d * t;
    ScaleBetween(d, t);
    assert Intercept(xi, yi, xj, yj, ty) == d * t + xi;
  }

  /** An edge with both ends at or left of tx does not cross the ray. */
  lemma EdgeLeftOfPoint(xs: seq<real>, ys: seq<real>, i: int, j: int, tx: real, ty: real)
    requires 0 <= i < |xs| && 0 <= j < |xs| && |ys| == |xs|
    requires xs[i] <= tx && xs[j] <= tx
    ensures !Crosses(xs, ys, i, j, tx, ty)
  {
    if (ys[i] > ty) != (ys[j] > ty) {
      InterceptBetween(xs[i], ys[i], xs[j], ys[j], ty);
    }
  }

  /** An edge with both ends right of tx crosses the ray exactly when it
      straddles the line y = ty. */
  lemma EdgeRightOfPoint(xs: seq<real>, ys: seq<real>, i: int, j: int, tx: real, ty: real)
    requires 0 <= i < |xs| && 0 <= j < |xs| && |ys| == |xs|
    requires tx < xs[i] && tx < xs[j]
    ensures Crosses(xs, ys, i, j, tx, ty) <==> (ys[i] > ty) != (ys[j] > ty)
  {
    if (ys[i] > ty) != (ys[j] > ty) {
      InterceptBetween(xs[i], ys[i], xs[j], ys[j], ty);
    }
  }

  /** No edge crosses when no vertex lies above the line y = ty. */
  lemma {:induction false} NoneAboveOutside(xs: seq<real>, ys: seq<real>, n: int, k: int, tx: real, ty: real)
    requires 0 <= k <= n <= |xs| && |ys| == |xs|
    requires forall m :: 0 <= m < n ==> ys[m] <= ty
    ensures Crossings(xs, ys, n, k, tx, ty) == 0
  {
    if k > 0 {
      NoneAboveOutside(xs, ys, n, k - 1, tx, ty);
    }
  }

  /** No edge crosses when every vertex lies at or left of tx. */
  lemma {:induction false} AllLeftOutside(xs: seq<real>, ys: seq<real>, n: int, k: int, tx: real, ty: real)
    requires 0 <= k <= n <= |xs| && |ys| == |xs|
    requires forall m :: 0 <= m < n ==> xs[m] <= tx
    ensures Crossings(xs, ys, n, k, tx, ty) == 0
  {
    if k > 0 {
      AllLeftOutside(xs, ys, n, k - 1, tx, ty);
      EdgeLeftOfPoint(xs, ys, k - 1, Prev(k - 1, n), tx, ty);
    }
  }

  /** One more edge from before to here flips the parity exactly when it
      changes side, so the parity keeps tracking first against the latest
      vertex. */
  lemma ParityStep(c: int, first: bool, last: bool, before: bool, here: bool)
    requires c % 2 == ((if first != last then 1 else 0) + (if first != before then 1 else 0)) % 2
    ensures (c + (if before != here then 1 else 0)) % 2
         == ((if first != last then 1 else 0) + (if first != here then 1 else 0)) % 2
  {
  }

  /** When every vertex lies right of tx, the first k edges cross an odd number
      of times exactly when vertex 0 is on the other side of the line from
      vertex n - 1, or (but not both) from vertex k - 1. */
  lemma {:induction false} AllRightParity(xs: seq<real>, ys: seq<real>, n: int, k: int, tx: real, ty: real)
    requires 1 <= k <= n <= |xs| && |ys| == |xs|
    requires forall m :: 0 <= m < n ==> tx < xs[m]
    ensures Crossings(xs, ys, n, k, tx, ty) % 2
         == ((if (ys[0] > ty) != (ys[n - 1] > ty) then 1 else 0)
           + (if (ys[0] > ty) != (ys[k - 1] > ty) then 1 else 0)) % 2
  {
    EdgeRightOfPoint(xs, ys, k - 1, Prev(k - 1, n), tx, ty);
    var first, last := ys[0] > ty, ys[n - 1] > ty;
    if k > 1 {
      AllRightParity(xs, ys, n, k - 1, tx, ty);
      var c := Crossings(xs, ys, n, k - 1, tx, ty);
      var before, here := ys[k - 2] > ty, ys[k - 1] > ty;
      assert Prev(k - 1, n) == k - 2;
      assert Crossings(xs, ys, n, k, tx, ty) == c + (if before != here then 1 else 0);
      ParityStep(c, first, last, before, here);
    } else {
      assert Crossings(xs, ys, n, k, tx, ty) == if first != last then 1 else 0;
    }
  }

  /** Hence a point left of every vertex is outside: the edges cross the ray
      from it an even number of times. */
  lemma AllRightOutside(xs: seq<real>, ys: seq<real>, n: int, tx: real, ty: real)
    requires n <= |xs| && |ys| == |xs|
    requires forall m :: 0 <= m < n ==> tx < xs[m]
    ensures Inside(xs, ys, n, tx, ty) == 0
  {
    if n > 0 {
      AllRightParity(xs, ys, n, n, tx, ty);
    }
  }
}
