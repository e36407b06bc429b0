/** The SVG2TXTExporter of SVG2TXT.py: the constructor that moves the drawing
    so that its scene box is centred on the origin, and the per-shape step of
    the export that triangulates a reversed copy of a shape's outline. */
module Exporter {
  import opened Wrappers
  import opened ShapeGeometry
  import opened EarClipping
  import ShapeParsing

  /** The point lists of all shapes, in order. */
  function PointLists(shapes: seq<Shape>): (r: seq<seq<Point>>)
    reads shapes
    ensures |r| == |shapes|
  {
    seq(|shapes|, i reads shapes requires 0 <= i < |shapes| => shapes[i].points)
  }

  /** The box of each point list, as initExtents computes it. */
  function ExtentsEach(pss: seq<seq<Point>>): (r: seq<Box>)
    ensures |r| == |pss|
  {
    seq(|pss|, i requires 0 <= i < |pss| => Extents(pss[i]))
  }

  /** Every point list mapped by `t`. */
  function TransformedEach(pss: seq<seq<Point>>, t: Affine): (r: seq<seq<Point>>)
    ensures |r| == |pss|
  {
    seq(|pss|, i requires 0 <= i < |pss| => Transformed(pss[i], t))
  }

  /** All points of all lists, first list first. */
  function Flatten(pss: seq<seq<Point>>): seq<Point>
    decreases |pss|
  {
    if pss == [] then [] else Flatten(pss[..|pss| - 1]) + pss[|pss| - 1]
  }

  /** The midpoint of the scene box of the point lists. */
  function SceneCentre(pss: seq<seq<Point>>): Point {
    Center(SceneBox(ExtentsEach(pss)))
  }

  /** The point lists moved by minus the scene centre, as the constructor moves them. */
  function Recentred(pss: seq<seq<Point>>): seq<seq<Point>> {
    var c := SceneCentre(pss);
    TransformedEach(pss, Translation(-c.x, -c.y))
  }

  /** What the constructor computes from the scene box is the scene centre. */
  lemma CentreFromBox(pss: seq<seq<Point>>, bbox: Box, x: real, y: real)
    requires bbox == SceneBox(ExtentsEach(pss))
    requires x == bbox.minx + (bbox.maxx - bbox.minx) / 2.0 && y == bbox.miny + (bbox.maxy - bbox.miny) / 2.0
    ensures Recentred(pss) == TransformedEach(pss, Translation(-x, -y))
  {
  }

  /** The boxes of shapes whose extents are up to date are the extents of their points. */
  lemma ValidBoxes(shapes: seq<Shape>)
    requires forall i :: 0 <= i < |shapes| ==> shapes[i].Valid()
    ensures Boxes(shapes) == ExtentsEach(PointLists(shapes))
  {
  }

  lemma RecentredBy(pss: seq<seq<Point>>, c: Point)
    requires c == SceneCentre(pss)
    ensures Recentred(pss) == TransformedEach(pss, Translation(-c.x, -c.y))
  {
  }

  /** The box of two point lists joined is the second one's box merged into the first one's. */
  lemma {:induction false} ExtentsAppend(a: seq<Point>, b: seq<Point>)
    ensures Extents(a + b) == Merge(Extents(b), Extents(a))
    decreases |b|
  {
    if b == [] {
      assert a + b == a;
    } else {
      var n := |b|;
      ExtentsAppend(a, b[..n - 1]);
      assert (a + b)[..|a + b| - 1] == a + b[..n - 1];
      assert (a + b)[|a + b| - 1] == b[n - 1];
    }
  }

  /** The scene box of the shapes' boxes is the box of all their points. */
  lemma {:induction false} SceneBoxIsExtents(pss: seq<seq<Point>>)
    ensures SceneBox(ExtentsEach(pss)) == Extents(Flatten(pss))
    decreases |pss|
  {
    if pss != [] {
      var n := |pss|;
      SceneBoxIsExtents(pss[..n - 1]);
      assert ExtentsEach(pss)[..n - 1] == ExtentsEach(pss[..n - 1]);
      ExtentsAppend(Flatten(pss[..n - 1]), pss[n - 1]);
    }
  }

  lemma TransformedAppend(a: seq<Point>, b: seq<Point>, t: Affine)
    ensures Transformed(a + b, t) == Transformed(a, t) + Transformed(b, t)
  {
    assert forall i :: 0 <= i < |a + b| ==> Transformed(a + b, t)[i] == (Transformed(a, t) + Transformed(b, t))[i];
  }

  /** Mapping every list and then joining them is joining and then mapping. */
  lemma {:induction false} FlattenTransformed(pss: seq<seq<Point>>, t: Affine)
    ensures Flatten(TransformedEach(pss, t)) == Transformed(Flatten(pss), t)
    decreases |pss|
  {
    if pss != [] {
      var n := |pss|;
      FlattenTransformed(pss[..n - 1], t);
      assert TransformedEach(pss, t)[..n - 1] == TransformedEach(pss[..n - 1], t);
      TransformedAppend(Flatten(pss[..n - 1]), pss[n - 1], t);
    }
  }

  /** On each axis some coordinate is at most the sentinel 999999 and some is at
      least -999999: no axis of the points lies wholly beyond one sentinel. */
  predicate NotBeyondSentinels(ps: seq<Point>) {
    (exists i :: 0 <= i < |ps| && ps[i].x <= Limit) && (exists i :: 0 <= i < |ps| && -Limit <= ps[i].x) &&
    (exists i :: 0 <= i < |ps| && ps[i].y <= Limit) && (exists i :: 0 <= i < |ps| && -Limit <= ps[i].y)
  }

  /** Each side of the box of any points is its sentinel or some point's coordinate. */
  lemma {:induction false} ExtentsSides(ps: seq<Point>)
    ensures Extents(ps).minx == Limit || exists i :: 0 <= i < |ps| && ps[i].x == Extents(ps).minx
    ensures Extents(ps).miny == Limit || exists i :: 0 <= i < |ps| && ps[i].y == Extents(ps).miny
    ensures Extents(ps).maxx == -Limit || exists i :: 0 <= i < |ps| && ps[i].x == Extents(ps).maxx
    ensures Extents(ps).maxy == -Limit || exists i :: 0 <= i < |ps| && ps[i].y == Extents(ps).maxy
    decreases |ps|
  {
    if ps != [] {
      var n := |ps|;
      var init := ps[..n - 1];
      ExtentsSides(init);
      assert forall i :: 0 <= i < n - 1 ==> init[i] == ps[i];
      assert ps[n - 1].x == Extents(ps).minx || Extents(ps).minx == Extents(init).minx;
      assert ps[n - 1].y == Extents(ps).miny || Extents(ps).miny == Extents(init).miny;
      assert ps[n - 1].x == Extents(ps).maxx || Extents(ps).maxx == Extents(init).maxx;
      assert ps[n - 1].y == Extents(ps).maxy || Extents(ps).maxy == Extents(init).maxy;
    }
  }

  /** When no axis lies beyond a sentinel, every side of the box is some point's coordinate. */
  lemma SidesAttained(ps: seq<Point>)
    requires NotBeyondSentinels(ps)
    ensures exists i :: 0 <= i < |ps| && ps[i].x == Extents(ps).minx
    ensures exists i :: 0 <= i < |ps| && ps[i].y == Extents(ps).miny
    ensures exists i :: 0 <= i < |ps| && ps[i].x == Extents(ps).maxx
    ensures exists i :: 0 <= i < |ps| && ps[i].y == Extents(ps).maxy
  {
    ExtentsSides(ps);
    var b := Extents(ps);
    var i0 :| 0 <= i0 < |ps| && ps[i0].x <= Limit;
    var i1 :| 0 <= i1 < |ps| && ps[i1].y <= Limit;
    var i2 :| 0 <= i2 < |ps| && -Limit <= ps[i2].x;
    var i3 :| 0 <= i3 < |ps| && -Limit <= ps[i3].y;
    assert b.minx == Limit ==> ps[i0].x == b.minx;
    assert b.miny == Limit ==> ps[i1].y == b.miny;
    assert b.maxx == -Limit ==> ps[i2].x == b.maxx;
    assert b.maxy == -Limit ==> ps[i3].y == b.maxy;
  }

  /** A box that encloses the points, whose sides are some points' coordinates
      and which the sentinel fold can reach, is the box of the points. */
  lemma ExtentsFromSides(ps: seq<Point>, b: Box)
    requires forall i :: 0 <= i < |ps| ==> b.minx <= ps[i].x <= b.maxx && b.miny <= ps[i].y <= b.maxy
    requires b.minx <= Limit && b.miny <= Limit && -Limit <= b.maxx && -Limit <= b.maxy
    requires exists i :: 0 <= i < |ps| && ps[i].x == b.minx
    requires exists i :: 0 <= i < |ps| && ps[i].y == b.miny
    requires exists i :: 0 <= i < |ps| && ps[i].x == b.maxx
    requires exists i :: 0 <= i < |ps| && ps[i].y == b.maxy
    ensures Extents(ps) == b
  {
    ExtentsSides(ps);
  }

  /** Translating points that stay within the sentinels translates their box. */
  lemma {:induction false} ExtentsShift(ps: seq<Point>, dx: real, dy: real)
    requires ps != []
    requires forall i :: 0 <= i < |ps| ==> InRange(ps[i]) && InRange(Apply(Translation(dx, dy), ps[i]))
    ensures var b := Extents(ps);
      Extents(Transformed(ps, Translation(dx, dy))) == Box(b.minx + dx, b.miny + dy, b.maxx + dx, b.maxy + dy)
    decreases |ps|
  {
    var n := |ps|;
    var t := Translation(dx, dy);
    var moved := Transformed(ps, t);
    assert moved[..n - 1] == Transformed(ps[..n - 1], t);
    if n > 1 {
      ExtentsShift(ps[..n - 1], dx, dy);
    }
  }

  /** The centring step: unless on some axis every coordinate lies beyond the
      same sentinel, the moved scene box has its midpoint at the origin and is
      symmetric about it. An empty drawing stays where it is. */
  lemma CentredScene(pss: seq<seq<Point>>)
    requires Flatten(pss) != [] ==> NotBeyondSentinels(Flatten(pss))
    ensures SceneCentre(Recentred(pss)) == Point(0.0, 0.0)
    ensures Flatten(pss) != [] ==>
      var b := SceneBox(ExtentsEach(pss));
      SceneBox(ExtentsEach(Recentred(pss))) ==
        Box(-(b.maxx - b.minx) / 2.0, -(b.maxy - b.miny) / 2.0, (b.maxx - b.minx) / 2.0, (b.maxy - b.miny) / 2.0)
  {
    var c := SceneCentre(pss);
    var t := Translation(-c.x, -c.y);
    RecentredBy(pss, c);
    MovedScene(pss, t);
    if Flatten(pss) == [] {
      assert Transformed(Flatten(pss), t) == [];
    } else {
      CentredSceneBox(pss, c);
    }
  }

  /** A drawing whose x coordinates all lie beyond the same sentinel is not
      centred. One point at x = X with 999999 < X <= 3 * 999999 gives the scene box [999999, y, X, y], whose x
      cap is the sentinel; moving by minus its midpoint leaves the new scene
      centre at ((X - 999999) / 2, 0), not at the origin. For X = 2000000 that
      is (500000.5, 0). */
  lemma FarDrawingNotCentred(p: Point)
    requires Limit < p.x <= 3.0 * Limit && -Limit <= p.y <= Limit
    ensures SceneCentre(Recentred([[p]])) == Point((p.x - Limit) / 2.0, 0.0)
    ensures SceneCentre(Recentred([[p]])) != Point(0.0, 0.0)
  {
    FarPointBox(p);
    var c := Center(Merge(Include(Sentinel, p), Sentinel));
    var q := Point(p.x - c.x, p.y - c.y);
    InRangePointBox(q);
    OnePointScene(p);
    OnePointScene(q);
  }

  /** A point to the right of the x sentinel, folded into the sentinel box: the
      box's left edge stays at the sentinel. */
  lemma FarPointBox(p: Point)
    requires Limit < p.x && -Limit <= p.y <= Limit
    ensures Merge(Include(Sentinel, p), Sentinel) == Box(Limit, p.y, p.x, p.y)
  {}

  /** A point the sentinels bound, folded into the sentinel box, is its own centre. */
  lemma InRangePointBox(q: Point)
    requires InRange(q)
    ensures Merge(Include(Sentinel, q), Sentinel) == Box(q.x, q.y, q.x, q.y)
    ensures Center(Merge(Include(Sentinel, q), Sentinel)) == q
  {}

  /** A drawing of one point: its scene box is the point folded into the
      sentinel box, and centring moves that point alone. */
  lemma OnePointScene(p: Point)
    ensures SceneBox(ExtentsEach([[p]])) == Merge(Include(Sentinel, p), Sentinel)
    ensures SceneCentre([[p]]) == Center(Merge(Include(Sentinel, p), Sentinel))
    ensures var c := SceneCentre([[p]]);
      Recentred([[p]]) == [[Point(p.x - c.x, p.y - c.y)]]
  {
    assert [p][..0] == [];
    assert Extents([p]) == Include(Sentinel, p);
    var b := Extents([p]);
    assert ExtentsEach([[p]]) == [b];
    assert [b][..0] == [];
    var c := SceneCentre([[p]]);
    assert Transformed([p], Translation(-c.x, -c.y)) == [Point(p.x - c.x, p.y - c.y)];
  }

  lemma CentredSceneBox(pss: seq<seq<Point>>, c: Point)
    requires Flatten(pss) != [] && NotBeyondSentinels(Flatten(pss))
    requires c == SceneCentre(pss)
    ensures var b := SceneBox(ExtentsEach(pss));
      Extents(Transformed(Flatten(pss), Translation(-c.x, -c.y))) ==
        Box(-(b.maxx - b.minx) / 2.0, -(b.maxy - b.miny) / 2.0, (b.maxx - b.minx) / 2.0, (b.maxy - b.miny) / 2.0)
  {
    SceneBoxIsExtents(pss);
    CentredBox(Flatten(pss), Extents(Flatten(pss)), c);
  }

  /** The scene box of moved shapes is the box of all their points, moved. */
  lemma MovedScene(pss: seq<seq<Point>>, t: Affine)
    ensures SceneBox(ExtentsEach(TransformedEach(pss, t))) == Extents(Transformed(Flatten(pss), t))
  {
    SceneBoxIsExtents(TransformedEach(pss, t));
    FlattenTransformed(pss, t);
  }

  /** The centring step on one list of points, no axis of which lies beyond a
      sentinel: the moved box is the old box, symmetric about the origin. */
  lemma CentredBox(ps: seq<Point>, b: Box, c: Point)
    requires NotBeyondSentinels(ps)
    requires b == Extents(ps) && c == Center(b)
    ensures Extents(Transformed(ps, Translation(-c.x, -c.y))) ==
      Box(-(b.maxx - b.minx) / 2.0, -(b.maxy - b.miny) / 2.0, (b.maxx - b.minx) / 2.0, (b.maxy - b.miny) / 2.0)
  {
    var moved := Transformed(ps, Translation(-c.x, -c.y));
    var m := Box(-(b.maxx - b.minx) / 2.0, -(b.maxy - b.miny) / 2.0, (b.maxx - b.minx) / 2.0, (b.maxy - b.miny) / 2.0);
    SidesAttained(ps);
    var i0 :| 0 <= i0 < |ps| && ps[i0].x == b.minx;
    var i1 :| 0 <= i1 < |ps| && ps[i1].y == b.miny;
    var i2 :| 0 <= i2 < |ps| && ps[i2].x == b.maxx;
    var i3 :| 0 <= i3 < |ps| && ps[i3].y == b.maxy;
    assert moved[i0].x == m.minx && moved[i1].y == m.miny && moved[i2].x == m.maxx && moved[i3].y == m.maxy;
    ExtentsFromSides(moved, m);
  }

  /** What the export writes for one shape, before the numbers are formatted. */
  datatype Line =
    | NoLine                                                         // the empty string
    | Line(color: string, triangles: seq<Triangle>, outline: seq<Point>)

  /** The fill colour of a style, black by default. */
  function Fill(style: map<string, string>): string {
    if "fill" in style then style["fill"] else "#000000"
  }

  /** The fill colour of a parsed style attribute: the value of its last
      "fill" segment, or black when no segment names "fill". */
  lemma FillOfStyle(segments: seq<string>)
    requires ShapeParsing.AllPairs(segments)
    ensures (forall i :: 0 <= i < |segments| ==> ShapeParsing.Key(segments[i]) != "fill") ==>
      Fill(ShapeParsing.StyleMap(segments)) == "#000000"
    ensures forall i :: 0 <= i < |segments| && ShapeParsing.Key(segments[i]) == "fill" && ShapeParsing.LastWithKey(segments, i) ==>
      Fill(ShapeParsing.StyleMap(segments)) == ShapeParsing.Val(segments[i])
  {
    ShapeParsing.StyleMapKeys(segments);
    forall i | 0 <= i < |segments| && ShapeParsing.Key(segments[i]) == "fill" && ShapeParsing.LastWithKey(segments, i)
      ensures Fill(ShapeParsing.StyleMap(segments)) == ShapeParsing.Val(segments[i])
    {
      ShapeParsing.StyleMapLastWins(segments, i);
    }
  }

  /** The line of a shape: nothing for an unfilled or empty shape; otherwise its
      colour, the triangles of the reversed outline, and the outline closed by
      its first point. */
  function ShapeLine(style: map<string, string>, points: seq<Point>): Line {
    if Fill(style) == "none" || points == [] then NoLine
    else Line(Fill(style), Triangulate(Reversed(points)), points + [points[0]])
  }

  /** Python's list indexing: -n <= i < n, negative indices counting from the end. */
  function PythonIndex(i: int, n: nat): Option<nat> {
    if 0 <= i < n then Some(i) else if i < 0 && 0 <= i + n then Some(i + n) else None
  }

  /** The triangles of a line use only the shape's own points, at most |points| - 2
      of them; the outline is the shape's points closed up by the first one. */
  lemma ShapeLineMeaning(style: map<string, string>, points: seq<Point>)
    ensures ShapeLine(style, points).NoLine? <==> Fill(style) == "none" || points == []
    ensures ShapeLine(style, points).Line? ==>
      var l := ShapeLine(style, points);
      l.color == Fill(style) && l.color != "none" &&
      l.outline[..|points|] == points && l.outline[|points|] == points[0] &&
      (forall k :: 0 <= k < |l.triangles| ==> var t := l.triangles[k]; t.a in points && t.b in points && t.c in points) &&
      (|points| < 3 ==> l.triangles == []) &&
      (|points| >= 3 ==> |l.triangles| <= |points| - 2)
  {
    if points != [] {
      var r := Reversed(points);
      TriangulateVertices(r);
      TriangleCount(r);
      ReversedSamePoints(points);
      assert (points + [points[0]])[..|points|] == points;
    }
  }

  /** Every shape keeps the fields applyTransform does not touch: its style,
      id, label and connection ends. */
  twostate predicate AttributesKept(shapes: seq<Shape>)
    reads shapes
  {
    forall i :: 0 <= i < |shapes| ==>
      shapes[i].style == old(shapes[i].style) && shapes[i].id == old(shapes[i].id) &&
      shapes[i].labelText == old(shapes[i].labelText) &&
      shapes[i].connectionStart == old(shapes[i].connectionStart) &&
      shapes[i].connectionEnd == old(shapes[i].connectionEnd)
  }

  /** The loop of the exporter's constructor: every shape, in turn, has the
      transform applied in place. The shapes must be distinct objects. */
  method TransformShapes(shapes: seq<Shape>, transform: Affine)
    requires forall i, j :: 0 <= i < j < |shapes| ==> shapes[i] != shapes[j]
    requires forall i :: 0 <= i < |shapes| ==> shapes[i].Valid()
    modifies shapes
    ensures PointLists(shapes) == TransformedEach(old(PointLists(shapes)), transform)
    ensures forall i :: 0 <= i < |shapes| ==> shapes[i].Valid()
    ensures AttributesKept(shapes)
  {
    ghost var pss := PointLists(shapes);
    for i := 0 to |shapes|
      invariant forall j :: 0 <= j < i ==> shapes[j].points == Transformed(pss[j], transform)
      invariant forall j :: i <= j < |shapes| ==> shapes[j].points == pss[j]
      invariant forall j :: 0 <= j < |shapes| ==> shapes[j].Valid()
      invariant AttributesKept(shapes)
    {
      assert forall j :: 0 <= j < |shapes| && j != i ==> shapes[j] != shapes[i];
      label Before:
      shapes[i].ApplyTransform(transform);
      assert AttributesKept@Before(shapes);
    }
    assert PointLists(shapes) == TransformedEach(pss, transform);
  }

  /** The first half of the exporter's constructor: the translation by minus
      the midpoint of the scene box, computed from the shapes' boxes. */
  method CentringTransform(reader: SVGReader) returns (transform: Affine)
    requires forall i :: 0 <= i < |reader.shapes| ==> reader.shapes[i].Valid()
    ensures transform == Translation(-SceneCentre(PointLists(reader.shapes)).x, -SceneCentre(PointLists(reader.shapes)).y)
    ensures Recentred(PointLists(reader.shapes)) == TransformedEach(PointLists(reader.shapes), transform)
  {
    var bbox := reader.ComputeBBox();
    ValidBoxes(reader.shapes);
    var width := bbox.maxx - bbox.minx;
    var height := bbox.maxy - bbox.miny;
    var x := bbox.minx + width / 2.0;
    var y := bbox.miny + height / 2.0;
    CentreFromBox(PointLists(reader.shapes), bbox, x, y);
    transform := Translation(-x, -y);
  }

  class SVG2TXTExporter {
    var reader: SVGReader

    /** Centres the drawing: every shape is moved by minus the midpoint of the
        scene box, and then the scene box is computed again. The shapes must be
        distinct objects, each with its box in step with its points. */
    constructor (reader: SVGReader)
      requires forall i, j :: 0 <= i < j < |reader.shapes| ==> reader.shapes[i] != reader.shapes[j]
      requires forall i :: 0 <= i < |reader.shapes| ==> reader.shapes[i].Valid()
      modifies reader.shapes
      ensures this.reader == reader && reader.shapes == old(reader.shapes)
      ensures PointLists(reader.shapes) == Recentred(old(PointLists(reader.shapes)))
      ensures forall i :: 0 <= i < |reader.shapes| ==> reader.shapes[i].Valid()
      ensures AttributesKept(reader.shapes)
    {
      ghost var pss := PointLists(reader.shapes);
      this.reader := reader;
      var transform := CentringTransform(reader);
      ghost var moved := TransformedEach(pss, transform);
      assert moved == Recentred(pss);
      var shapes := reader.GetShapes();
      assert shapes == reader.shapes;
      TransformShapes(shapes, transform);
      assert PointLists(shapes) == moved;
      var bbox := reader.ComputeBBox();
    }

    /** The line GetDataString builds for shape `shapeId`: the triangles come
        from a reversed copy of the points, so the shape itself is left as it is.
        An index out of Python's range is an IndexError. */
    method GetDataString(shapeId: int) returns (r: Result<Line>)
      ensures PythonIndex(shapeId, |reader.shapes|).None? ==> r == Err(IndexError)
      ensures PythonIndex(shapeId, |reader.shapes|).Some? ==>
        var shape := reader.shapes[PythonIndex(shapeId, |reader.shapes|).value];
        r == Ok(ShapeLine(shape.style, shape.points))
    {
      var shapes := reader.GetShapes();
      var index := PythonIndex(shapeId, |shapes|);
      if index.None? {
        return Err(IndexError);
      }
      var shape := shapes[index.value];
      var color := Fill(shape.style);
      if color == "none" {
        return Ok(NoLine);
      }
      var points := new PointList(shape.points);
      if |points.items| == 0 {
        return Ok(NoLine);
      }
      points.Reverse();
      var triangles := GetTriangleList(points);
      return Ok(Line(color, triangles, shape.points + [shape.points[0]]));
    }
  }
}
