/** The geometric predicates of SVG2TXT.py: the 2D cross product, the convexity
    test of a vertex and the odd-even (ray casting) point-in-polygon test. */
module Predicates {
  import opened Wrappers
  import opened ShapeGeometry

  /** The z component of the cross product of (x1, y1) and (x2, y2). */
  function Cross(x1: real, y1: real, x2: real, y2: real): (r: real)
  {
    x1 * y2 - x2 * y1
  }

  /** Parallel vectors, and the zero vector with any other, have cross product 0;
      swapping the two vectors negates the cross product. */
  lemma CrossParallel(x1: real, y1: real, k: real, x2: real, y2: real)
    ensures Cross(x1, y1, k * x1, k * y1) == 0.0
    ensures Cross(0.0, 0.0, x2, y2) == 0.0 && Cross(x2, y2, 0.0, 0.0) == 0.0
    ensures Cross(x1, y1, x2, y2) == -Cross(x2, y2, x1, y1)
  {
  }

  /** The turn at p1 of the path p0, p1, p2: the cross product of p1 - p2 and
      p0 - p1 (in that order) must be strictly positive. */
  predicate IsConvex(p0: Point, p1: Point, p2: Point)
    ensures IsConvex(p0, p1, p2) ==> p0 != p1 && p1 != p2 && p0 != p2
  {
    var x2 := p0.x - p1.x;
    var y2 := p0.y - p1.y;
    var x1 := p1.x - p2.x;
    var y1 := p1.y - p2.y;
    Cross(x1, y1, x2, y2) > 0.0
  }

  /** Twice the signed area of the triangle a, b, c: positive when a, b, c turn
      counter-clockwise in axes whose y points up. */
  function Orientation(a: Point, b: Point, c: Point): real {
    (b.x - a.x) * (c.y - a.y) - (c.x - a.x) * (b.y - a.y)
  }

  /** A vertex is convex exactly when its triangle has negative signed area,
      that is, turns clockwise with y up (counter-clockwise on an SVG page, whose
      y axis points down). */
  lemma ConvexIsNegativeOrientation(p0: Point, p1: Point, p2: Point)
    ensures IsConvex(p0, p1, p2) <==> Orientation(p0, p1, p2) < 0.0
  {
    assert Cross(p1.x - p2.x, p1.y - p2.y, p0.x - p1.x, p0.y - p1.y) == -Orientation(p0, p1, p2);
  }

  /** Convexity does not depend on which vertex of the triple is named first. */
  lemma ConvexUnderRotation(p0: Point, p1: Point, p2: Point)
    ensures IsConvex(p0, p1, p2) <==> IsConvex(p1, p2, p0)
  {
    ConvexIsNegativeOrientation(p0, p1, p2);
    ConvexIsNegativeOrientation(p1, p2, p0);
    assert Orientation(p0, p1, p2) == Orientation(p1, p2, p0);
  }

  /** Walking a convex triple backwards gives a non-convex one. */
  lemma ConvexUnderReversal(p0: Point, p1: Point, p2: Point)
    ensures IsConvex(p2, p1, p0) <==> Orientation(p0, p1, p2) > 0.0
    ensures IsConvex(p0, p1, p2) ==> !IsConvex(p2, p1, p0)
  {
    ConvexIsNegativeOrientation(p0, p1, p2);
    ConvexIsNegativeOrientation(p2, p1, p0);
    assert Orientation(p2, p1, p0) == -Orientation(p0, p1, p2);
  }

  /** Colinear triples, and so any triple that repeats a point, are never convex. */
  lemma DegenerateNotConvex(p0: Point, p1: Point, p2: Point)
    requires Orientation(p0, p1, p2) == 0.0 || p0 == p1 || p1 == p2 || p0 == p2
    ensures !IsConvex(p0, p1, p2)
  {
    ConvexIsNegativeOrientation(p0, p1, p2);
  }

  /** The crossing test of one edge, from (x1, y1) (the previous vertex) to
      (x2, y2): y lies in the half-open y range of the edge and x is left of the
      edge at height y. The range test comes first, so the division is only
      evaluated when y1 != y2 (Dafny checks that the divisor is not zero). */
  predicate EdgeCrosses(x: real, y: real, x1: real, y1: real, x2: real, y2: real)
    ensures EdgeCrosses(x, y, x1, y1, x2, y2) ==> y1 != y2 && Min(y1, y2) <= y < Max(y1, y2)
  {
    ((y2 <= y && y < y1) || (y1 <= y && y < y2)) && x < (x1 - x2) * (y - y2) / (y1 - y2) + x2
  }

  /** A horizontal edge is never crossed. */
  lemma HorizontalEdgeNotCrossed(x: real, y: real, x1: real, x2: real, y12: real)
    ensures !EdgeCrosses(x, y, x1, y12, x2, y12)
  {
  }

  /** A quotient of a numerator no larger than its denominator, of the same sign, lies in [0, 1]. */
  lemma QuotientInUnitInterval(n: real, d: real)
    requires (0.0 <= n <= d && d != 0.0) || (d <= n <= 0.0 && d != 0.0)
    ensures 0.0 <= n / d <= 1.0
  {
    var q := n / d;
    assert q * d == n;
    if d < 0.0 && q > 1.0 {
      assert q * d < d;
    }
  }

  /** A crossed edge has a vertex strictly right of the point. */
  lemma CrossedEdgeIsToTheRight(x: real, y: real, x1: real, y1: real, x2: real, y2: real)
    requires EdgeCrosses(x, y, x1, y1, x2, y2)
    ensures x < x1 || x < x2
  {
    var a, n, d := x1 - x2, y - y2, y1 - y2;
    QuotientInUnitInterval(n, d);
    var t := n / d;
    assert a * n / d == a * t by {
      assert t * d == n;
      assert (a * t) * d == a * n;
    }
    if a >= 0.0 {
      assert a * t <= a * 1.0;
    } else {
      assert a * t <= 0.0;
    }
  }

  /** The edge that ends at vertex j starts at the vertex before it, the last
      vertex for j = 0. */
  function PrevIndex(j: nat, n: nat): nat
    requires j < n
  {
    if j == 0 then n - 1 else j - 1
  }

  /** How many of the first k edges (last -> 0, 0 -> 1, ..., k-2 -> k-1) the
      ray from (x, y) towards +x crosses. */
  function Crossings(x: real, y: real, xs: seq<real>, ys: seq<real>, k: nat): (c: nat)
    requires 0 < |xs| == |ys| && k <= |xs|
    ensures c <= k
  {
    if k == 0 then 0
    else
      var j := k - 1;
      var i := PrevIndex(j, |xs|);
      Crossings(x, y, xs, ys, j) + (if EdgeCrosses(x, y, xs[i], ys[i], xs[j], ys[j]) then 1 else 0)
  }

  /** The nested helper of pointInPoly: tests the edge that ends at vertex vCt.
      Called with the count of the edges before it and the vertex before it, it
      returns the count of the edges up to it; a counted edge is not horizontal
      and has a vertex strictly right of the point. */
  function CheckCrossings(x: real, y: real, polygonX: seq<real>, polygonY: seq<real>,
                          vCt: nat, numOfCrossings: nat, x1: real, y1: real): (r: (nat, nat, real, real))
    requires vCt < |polygonX| == |polygonY|
    ensures (numOfCrossings == Crossings(x, y, polygonX, polygonY, vCt) &&
             x1 == polygonX[PrevIndex(vCt, |polygonX|)] && y1 == polygonY[PrevIndex(vCt, |polygonX|)]) ==>
      r.1 == Crossings(x, y, polygonX, polygonY, vCt + 1)
    ensures r.1 != numOfCrossings ==>
      r.1 == numOfCrossings + 1 && y1 != polygonY[vCt] && (x < x1 || x < polygonX[vCt])
  {
    var x2 := polygonX[vCt];
    var y2 := polygonY[vCt];
    var crossings :=
      if EdgeCrosses(x, y, x1, y1, x2, y2) then
        CrossedEdgeIsToTheRight(x, y, x1, y1, x2, y2);
        numOfCrossings + 1
      else numOfCrossings;
    (vCt + 1, crossings, x2, y2)
  }

  /** pointInPoly: 1 when the ray from (x, y) crosses an odd number of the
      polygon's edges, 0 otherwise. An empty polygon raises IndexError at
      `polygonX[-1]`. */
  method PointInPoly(x: real, y: real, polygonX: seq<real>, polygonY: seq<real>) returns (r: Result<int>)
    requires |polygonX| == |polygonY|
    ensures |polygonX| == 0 ==> r == Err(IndexError)
    ensures |polygonX| > 0 ==> r == Ok(Crossings(x, y, polygonX, polygonY, |polygonX|) % 2)
    ensures r.Ok? ==> r.value == 0 || r.value == 1
  {
    var numOfCrossings: nat := 0;
    var vCt: nat := 0;
    var numVerts := |polygonX|;
    if numVerts == 0 {
      return Err(IndexError);
    }
    var x1 := polygonX[numVerts - 1];
    var y1 := polygonY[numVerts - 1];
    var step := CheckCrossings(x, y, polygonX, polygonY, vCt, numOfCrossings, x1, y1);
    vCt, numOfCrossings, x1, y1 := step.0, step.1, step.2, step.3;
    while vCt < numVerts
      invariant 1 <= vCt <= numVerts
      invariant numOfCrossings == Crossings(x, y, polygonX, polygonY, vCt)
      invariant x1 == polygonX[vCt - 1] && y1 == polygonY[vCt - 1]
    {
      step := CheckCrossings(x, y, polygonX, polygonY, vCt, numOfCrossings, x1, y1);
      vCt, numOfCrossings, x1, y1 := step.0, step.1, step.2, step.3;
    }
    return Ok(numOfCrossings % 2);
  }

  function Xs(points: seq<Point>): (r: seq<real>)
    ensures |r| == |points|
  {
    seq(|points|, i requires 0 <= i < |points| => points[i].x)
  }

  function Ys(points: seq<Point>): (r: seq<real>)
    ensures |r| == |points|
  {
    seq(|points|, i requires 0 <= i < |points| => points[i].y)
  }

  /** The odd-even rule: p is inside when its ray crosses an odd number of edges. */
  predicate Inside(p: Point, poly: seq<Point>)
    requires |poly| > 0
  {
    Crossings(p.x, p.y, Xs(poly), Ys(poly), |poly|) % 2 == 1
  }

  /** InsidePolygon: pointInPoly on the coordinate lists of the points. */
  method InsidePolygon(px: real, py: real, points: seq<Point>) returns (r: Result<int>)
    ensures points == [] ==> r == Err(IndexError)
    ensures points != [] ==> r == Ok(if Inside(Point(px, py), points) then 1 else 0)
  {
    var polygonX := Xs(points);
    var polygonY := Ys(points);
    r := PointInPoly(px, py, polygonX, polygonY);
  }

  /** No edge is crossed, so the point is outside, when it lies at or right of
      every vertex, strictly below every vertex, or at or above every vertex. */
  lemma {:induction false} FarPointNotCrossing(x: real, y: real, xs: seq<real>, ys: seq<real>, k: nat)
    requires 0 < |xs| == |ys| && k <= |xs|
    requires (forall i :: 0 <= i < |xs| ==> xs[i] <= x) ||
             (forall i :: 0 <= i < |ys| ==> y < ys[i]) ||
             (forall i :: 0 <= i < |ys| ==> ys[i] <= y)
    ensures Crossings(x, y, xs, ys, k) == 0
  {
    if k > 0 {
      FarPointNotCrossing(x, y, xs, ys, k - 1);
      var j := k - 1;
      var i := PrevIndex(j, |xs|);
      if EdgeCrosses(x, y, xs[i], ys[i], xs[j], ys[j]) {
        CrossedEdgeIsToTheRight(x, y, xs[i], ys[i], xs[j], ys[j]);
        assert false;
      }
    }
  }

  /** A point beyond the polygon's bounding box on the right, above or below is
      not inside it. */
  lemma FarPointOutside(p: Point, poly: seq<Point>)
    requires |poly| > 0
    requires (forall q :: q in poly ==> q.x <= p.x) || (forall q :: q in poly ==> p.y < q.y) ||
             (forall q :: q in poly ==> q.y <= p.y)
    ensures !Inside(p, poly)
  {
    var xs, ys := Xs(poly), Ys(poly);
    assert forall i :: 0 <= i < |poly| ==> poly[i] in poly && xs[i] == poly[i].x && ys[i] == poly[i].y;
    FarPointNotCrossing(p.x, p.y, xs, ys, |poly|);
  }

  /** The centre of the unit square is inside it. */
  lemma UnitSquareCentreInside()
    ensures Inside(Point(0.5, 0.5), [Point(0.0, 0.0), Point(1.0, 0.0), Point(1.0, 1.0), Point(0.0, 1.0)])
  {
    var sq := [Point(0.0, 0.0), Point(1.0, 0.0), Point(1.0, 1.0), Point(0.0, 1.0)];
    var xs, ys := Xs(sq), Ys(sq);
    assert xs == [0.0, 1.0, 1.0, 0.0] && ys == [0.0, 0.0, 1.0, 1.0];
    assert Crossings(0.5, 0.5, xs, ys, 1) == 0;
    assert Crossings(0.5, 0.5, xs, ys, 2) == 0;
    assert Crossings(0.5, 0.5, xs, ys, 3) == 1;
    assert Crossings(0.5, 0.5, xs, ys, 4) == 1;
  }
}
