/** Points, affine maps, bounding boxes and the `Shape` and `SVGReader` classes
    of SVGReader.py, with the coordinates as exact reals. */
module ShapeGeometry {
  import opened Wrappers

  datatype Point = Point(x: real, y: real)

  /** The six-entry transform list [a, b, c, d, e, f] of SVG:
      x' = a*x + c*y + e and y' = b*x + d*y + f. */
  datatype Affine = Affine(a: real, b: real, c: real, d: real, e: real, f: real)

  /** The list [1, 0, 0, 1, 0, 0] every shape starts from. */
  const Identity := Affine(1.0, 0.0, 0.0, 1.0, 0.0, 0.0)

  /** The list [1, 0, 0, 1, dx, dy]. */
  function Translation(dx: real, dy: real): Affine {
    Affine(1.0, 0.0, 0.0, 1.0, dx, dy)
  }

  /** The image of one point, as the loop body of applyTransform computes it. */
  function Apply(t: Affine, p: Point): Point {
    Point(t.a * p.x + t.c * p.y + t.e, t.b * p.x + t.d * p.y + t.f)
  }

  /** Every point mapped by `t`, in the same order. */
  function Transformed(ps: seq<Point>, t: Affine): (r: seq<Point>)
    ensures |r| == |ps|
  {
    seq(|ps|, i requires 0 <= i < |ps| => Apply(t, ps[i]))
  }

  /** The identity transform leaves a point list as it is. */
  lemma IdentityLeavesPoints(ps: seq<Point>)
    ensures Transformed(ps, Identity) == ps
  {
    assert forall i :: 0 <= i < |ps| ==> Transformed(ps, Identity)[i] == ps[i];
  }

  /** Translating by (dx, dy) and then by (-dx, -dy) gives back the points. */
  lemma TranslationUndone(ps: seq<Point>, dx: real, dy: real)
    ensures Transformed(Transformed(ps, Translation(dx, dy)), Translation(-dx, -dy)) == ps
  {
    var back := Transformed(Transformed(ps, Translation(dx, dy)), Translation(-dx, -dy));
    assert forall i :: 0 <= i < |ps| ==> back[i] == ps[i];
  }

  /** A bounding box [minx, miny, maxx, maxy]. */
  datatype Box = Box(minx: real, miny: real, maxx: real, maxy: real)

  /** The magnitude of the sentinels that the extent folds start from. */
  const Limit: real := 999999.0

  /** The inverted box the folds start from, and what an empty fold returns. */
  const Sentinel := Box(Limit, Limit, -Limit, -Limit)

  /** Python's `min(a, b)` and `max(a, b)` on numbers. */
  function Min(a: real, b: real): real { if b < a then b else a }
  function Max(a: real, b: real): real { if b > a then b else a }

  /** A coordinate pair that the sentinels bound. */
  predicate InRange(p: Point) {
    -Limit <= p.x <= Limit && -Limit <= p.y <= Limit
  }

  /** One point folded into a running box: the loop body of initExtents. */
  function Include(b: Box, p: Point): Box {
    Box(Min(p.x, b.minx), Min(p.y, b.miny), Max(p.x, b.maxx), Max(p.y, b.maxy))
  }

  /** The box initExtents computes: the sentinel box with every point folded in,
      first to last. It encloses every point, whatever the points are. */
  function Extents(ps: seq<Point>): (b: Box)
    ensures forall i :: 0 <= i < |ps| ==> b.minx <= ps[i].x <= b.maxx && b.miny <= ps[i].y <= b.maxy
    ensures b.minx <= Limit && b.miny <= Limit && -Limit <= b.maxx && -Limit <= b.maxy
    decreases |ps|
  {
    if ps == [] then Sentinel else Include(Extents(ps[..|ps| - 1]), ps[|ps| - 1])
  }

  /** The centre initExtents stores: the midpoint of the box, not the centroid. */
  function Center(b: Box): (c: Point)
    ensures 2.0 * c.x == b.minx + b.maxx && 2.0 * c.y == b.miny + b.maxy
  {
    Point(b.minx + 0.5 * (b.maxx - b.minx), b.miny + 0.5 * (b.maxy - b.miny))
  }

  /** For points the sentinels bound, each side of the box is attained by a point. */
  lemma {:induction false} ExtentsAttained(ps: seq<Point>)
    requires ps != []
    requires forall i :: 0 <= i < |ps| ==> InRange(ps[i])
    ensures exists i :: 0 <= i < |ps| && ps[i].x == Extents(ps).minx
    ensures exists i :: 0 <= i < |ps| && ps[i].y == Extents(ps).miny
    ensures exists i :: 0 <= i < |ps| && ps[i].x == Extents(ps).maxx
    ensures exists i :: 0 <= i < |ps| && ps[i].y == Extents(ps).maxy
    decreases |ps|
  {
    var n := |ps|;
    var init := ps[..n - 1];
    var last := n - 1;
    var b, e := Extents(init), Extents(ps);
    if n == 1 {
      assert e == Include(Sentinel, ps[0]);
      assert ps[0].x == e.minx && ps[0].y == e.miny && ps[0].x == e.maxx && ps[0].y == e.maxy;
    } else {
      ExtentsAttained(init);
      assert forall i :: 0 <= i < n - 1 ==> init[i] == ps[i];
      var i0 :| 0 <= i0 < n - 1 && init[i0].x == b.minx;
      var i1 :| 0 <= i1 < n - 1 && init[i1].y == b.miny;
      var i2 :| 0 <= i2 < n - 1 && init[i2].x == b.maxx;
      var i3 :| 0 <= i3 < n - 1 && init[i3].y == b.maxy;
      assert ps[if e.minx == b.minx then i0 else last].x == e.minx;
      assert ps[if e.miny == b.miny then i1 else last].y == e.miny;
      assert ps[if e.maxx == b.maxx then i2 else last].x == e.maxx;
      assert ps[if e.maxy == b.maxy then i3 else last].y == e.maxy;
    }
  }

  /** An empty point list leaves the inverted sentinel box and its centre (0, 0). */
  lemma EmptyExtents()
    ensures Extents([]) == Box(999999.0, 999999.0, -999999.0, -999999.0)
    ensures Center(Extents([])) == Point(0.0, 0.0)
  {
  }

  /** The four corners _initFromRect lists, before the transform. */
  function RectCorners(x: real, y: real, width: real, height: real): (r: seq<Point>)
    ensures |r| == 4
  {
    [Point(x, y), Point(x + width, y), Point(x + width, y + height), Point(x, y + height)]
  }

  /** A rectangle of non-negative size inside the sentinels has the box [x, y, x+w, y+h]. */
  lemma RectExtents(x: real, y: real, width: real, height: real)
    requires 0.0 <= width && 0.0 <= height
    requires InRange(Point(x, y)) && InRange(Point(x + width, y + height))
    ensures Extents(RectCorners(x, y, width, height)) == Box(x, y, x + width, y + height)
  {
    var r := RectCorners(x, y, width, height);
    assert r[..1][..0] == [] && r[..2][..1] == r[..1] && r[..3][..2] == r[..2] && r[..4][..3] == r[..3];
    assert Extents(r[..1]) == Box(x, y, x, y);
    assert Extents(r[..2]) == Box(x, y, x + width, y);
    assert Extents(r[..3]) == Box(x, y, x + width, y + height);
    assert r[..4] == r;
  }

  /** One shape of the drawing. */
  class Shape {
    var points: seq<Point>
    var style: map<string, string>
    var id: Option<string>
    var labelText: string  // `label` in the source; the word is reserved in Dafny
    var connectionStart: string
    var connectionEnd: string
    var centerx: real
    var centery: real
    var minx: real
    var maxx: real
    var miny: real
    var maxy: real

    /** The box and the centre agree with the points, as initExtents leaves them. */
    ghost predicate Valid()
      reads this
    {
      Box(minx, miny, maxx, maxy) == Extents(points) && Point(centerx, centery) == Center(Box(minx, miny, maxx, maxy))
    }

    /** The field values set before the element's attributes are read. */
    constructor (id: Option<string>)
      ensures points == [] && style == map[] && this.id == id && labelText == ""
      ensures connectionStart == "" && connectionEnd == ""
      ensures centerx == 0.0 && centery == 0.0
      ensures GetBBox() == Box(0.0, 0.0, 0.0, 0.0)
    {
      points := [];
      style := map[];
      this.id := id;
      centerx, centery := 0.0, 0.0;
      minx, maxx, miny, maxy := 0.0, 0.0, 0.0, 0.0;
      labelText := "";
      connectionStart, connectionEnd := "", "";
    }

    /** getBBox: [minx, miny, maxx, maxy]; on a valid shape, the box of its points. */
    function GetBBox(): (b: Box)
      reads this
      ensures Valid() ==> b == Extents(points)
      ensures Valid() ==> forall i :: 0 <= i < |points| ==>
        b.minx <= points[i].x <= b.maxx && b.miny <= points[i].y <= b.maxy
    {
      Box(minx, miny, maxx, maxy)
    }

    /** getCenter: (centerx, centery); on a valid shape, the midpoint of its box. */
    function GetCenter(): (c: Point)
      reads this
      ensures Valid() ==> c == Center(Extents(points))
      ensures Valid() ==> 2.0 * c.x == minx + maxx && 2.0 * c.y == miny + maxy
    {
      Point(centerx, centery)
    }

    /** Recomputes the box from the sentinels and the centre as its midpoint. */
    method InitExtents()
      modifies this`minx, this`miny, this`maxx, this`maxy, this`centerx, this`centery
      ensures GetBBox() == Extents(points)
      ensures GetCenter() == Center(GetBBox())
      ensures Valid()
    {
      minx := 999999.0;
      miny := 999999.0;
      maxx := -999999.0;
      maxy := -999999.0;
      for i := 0 to |points|
        invariant GetBBox() == Extents(points[..i])
      {
        var p := points[i];
        minx := Min(p.x, minx);
        miny := Min(p.y, miny);
        maxx := Max(p.x, maxx);
        maxy := Max(p.y, maxy);
        assert points[..i + 1][..i] == points[..i];
      }
      assert points[..|points|] == points;
      centerx := minx + 0.5 * (maxx - minx);
      centery := miny + 0.5 * (maxy - miny);
    }

    /** Rewrites every point in place with `t`, then recomputes the extents. */
    method ApplyTransform(t: Affine)
      modifies this`points, this`minx, this`miny, this`maxx, this`maxy, this`centerx, this`centery
      ensures |points| == |old(points)|
      ensures forall i :: 0 <= i < |points| ==> points[i] == Apply(t, old(points)[i])
      ensures points == Transformed(old(points), t)
      ensures Valid()
    {
      for i := 0 to |points|
        invariant |points| == |old(points)|
        invariant forall j :: 0 <= j < i ==> points[j] == Apply(t, old(points)[j])
        invariant forall j :: i <= j < |points| ==> points[j] == old(points)[j]
      {
        var p := points[i];
        var x := t.a * p.x + t.c * p.y + t.e;
        var y := t.b * p.x + t.d * p.y + t.f;
        points := points[i := Point(x, y)];
      }
      InitExtents();
    }

    /** Appends the rectangle's four corners and applies the rectangle's transform. */
    method InitFromRect(x: real, y: real, width: real, height: real, transform: Affine)
      modifies this`points, this`minx, this`miny, this`maxx, this`maxy, this`centerx, this`centery
      ensures points == Transformed(old(points) + RectCorners(x, y, width, height), transform)
      ensures Valid()
    {
      points := points + [Point(x, y)];
      points := points + [Point(x + width, y)];
      points := points + [Point(x + width, y + height)];
      points := points + [Point(x, y + height)];
      ApplyTransform(transform);
    }
  }

  /** One shape's box folded into the running scene box: the loop body of computeBBox. */
  function Merge(b: Box, acc: Box): Box {
    Box(Min(b.minx, acc.minx), Min(b.miny, acc.miny), Max(b.maxx, acc.maxx), Max(b.maxy, acc.maxy))
  }

  /** The box computeBBox returns: the sentinel box with every shape's box folded in. */
  function SceneBox(boxes: seq<Box>): (r: Box)
    ensures r.minx <= Limit && r.miny <= Limit && -Limit <= r.maxx && -Limit <= r.maxy
    decreases |boxes|
  {
    if boxes == [] then Sentinel
    else
      Merge(boxes[|boxes| - 1], SceneBox(boxes[..|boxes| - 1]))
  }

  /** The scene box encloses every box, and each of its sides is a sentinel or
      the side of one of the boxes. */
  lemma {:induction false} SceneBoxEncloses(boxes: seq<Box>)
    ensures var r := SceneBox(boxes);
      forall i :: 0 <= i < |boxes| ==>
        r.minx <= boxes[i].minx && r.miny <= boxes[i].miny && boxes[i].maxx <= r.maxx && boxes[i].maxy <= r.maxy
    ensures var r := SceneBox(boxes);
      (r.minx == Limit || exists i :: 0 <= i < |boxes| && r.minx == boxes[i].minx) &&
      (r.miny == Limit || exists i :: 0 <= i < |boxes| && r.miny == boxes[i].miny) &&
      (r.maxx == -Limit || exists i :: 0 <= i < |boxes| && r.maxx == boxes[i].maxx) &&
      (r.maxy == -Limit || exists i :: 0 <= i < |boxes| && r.maxy == boxes[i].maxy)
    decreases |boxes|
  {
    if boxes != [] {
      var n := |boxes|;
      SceneBoxEncloses(boxes[..n - 1]);
      assert forall i :: 0 <= i < n - 1 ==> boxes[..n - 1][i] == boxes[i];
    }
  }

  /** The boxes getBBox reports, shape by shape. */
  function Boxes(shapes: seq<Shape>): (r: seq<Box>)
    reads shapes
    ensures |r| == |shapes|
  {
    seq(|shapes|, i reads shapes requires 0 <= i < |shapes| => shapes[i].GetBBox())
  }

  /** The reader's list of shapes. */
  class SVGReader {
    var shapes: seq<Shape>

    constructor ()
      ensures shapes == []
    {
      shapes := [];
    }

    /** getShapes: the reader's own shape objects, not copies, so a change made
        through them is a change to the reader's shapes. */
    function GetShapes(): seq<Shape>
      reads this
    {
      shapes
    }

    /** Folds every shape's box into one scene box. */
    method ComputeBBox() returns (bbox: Box)
      ensures bbox == SceneBox(Boxes(shapes))
      ensures forall i :: 0 <= i < |shapes| ==>
        bbox.minx <= shapes[i].minx && bbox.miny <= shapes[i].miny &&
        shapes[i].maxx <= bbox.maxx && shapes[i].maxy <= bbox.maxy
      ensures shapes == [] ==> bbox == Box(999999.0, 999999.0, -999999.0, -999999.0)
    {
      var minx, miny, maxx, maxy := 999999.0, 999999.0, -999999.0, -999999.0;
      ghost var boxes := Boxes(shapes);
      for i := 0 to |shapes|
        invariant Box(minx, miny, maxx, maxy) == SceneBox(boxes[..i])
      {
        var b := shapes[i].GetBBox();
        minx := Min(b.minx, minx);
        miny := Min(b.miny, miny);
        maxx := Max(b.maxx, maxx);
        maxy := Max(b.maxy, maxy);
        assert boxes[..i + 1][..i] == boxes[..i];
      }
      assert boxes[..|shapes|] == boxes;
      bbox := Box(minx, miny, maxx, maxy);
      SceneBoxEncloses(boxes);
      assert forall i :: 0 <= i < |shapes| ==> boxes[i] == shapes[i].GetBBox();
    }
  }
}
