/** The ear-clipping triangulator of SVG2TXT.py: ear tips (CacheEars), removal
    of one ear (ClipEar), the winding vote (CheckPointList) and the driver loop
    (GetTriangleList). */
module EarClipping {
  import opened Wrappers
  import opened ShapeGeometry
  import opened Predicates

  /** A triangle of three polygon vertices, in the order the clipper emits them. */
  datatype Triangle = Triangle(a: Point, b: Point, c: Point)

  function Corners(t: Triangle): seq<Point> {
    [t.a, t.b, t.c]
  }

  /** The index after i on a cycle of n vertices, that is (i + 1) % n. */
  function Succ(i: nat, n: nat): nat
    requires i < n
  {
    if i + 1 < n then i + 1 else 0
  }

  /** The source's modular indices are the successors on the cycle. */
  lemma SuccMod(i: nat, n: nat)
    requires i < n
    ensures Succ(i, n) < n && (i + 0) % n == i
    ensures (i + 1) % n == Succ(i, n) && (i + 2) % n == Succ(Succ(i, n), n)
  {
  }

  /** Distinct vertices have distinct successors, so CacheEars writes every entry once. */
  lemma SuccInjective(i: nat, j: nat, n: nat)
    requires i < n && j < n && i != j
    ensures Succ(i, n) != Succ(j, n)
  {
  }

  /** The cyclic triple at i: points[i], points[(i+1) % n], points[(i+2) % n]. */
  function TripleAt(s: seq<Point>, i: nat): Triangle
    requires i < |s|
  {
    var n := |s|;
    Triangle(s[i], s[Succ(i, n)], s[Succ(Succ(i, n), n)])
  }

  predicate ConvexAt(s: seq<Point>, i: nat)
    requires i < |s|
  {
    var t := TripleAt(s, i);
    IsConvex(t.a, t.b, t.c)
  }

  /** No vertex of `s` that differs in value from all three corners lies inside `t`. */
  predicate NoVertexInside(s: seq<Point>, t: Triangle) {
    forall j :: 0 <= j < |s| && s[j] != t.a && s[j] != t.b && s[j] != t.c ==> !Inside(s[j], Corners(t))
  }

  /** The middle vertex of the triple at i is an ear tip. */
  predicate IsEar(s: seq<Point>, i: nat)
    requires i < |s|
  {
    ConvexAt(s, i) && NoVertexInside(s, TripleAt(s, i))
  }

  /** CacheEars: entry (i+1) % n says whether the triple at i is an ear. */
  method CacheEars(points: seq<Point>) returns (results: seq<bool>)
    ensures |results| == |points|
    ensures forall i :: 0 <= i < |points| ==> results[Succ(i, |points|)] == IsEar(points, i)
  {
    results := [];
    var num := |points|;
    for i := 0 to num
      invariant results == seq(i, _ => false)
    {
      results := results + [false];
    }
    for i := 0 to num
      invariant |results| == num
      invariant forall j :: 0 <= j < i ==> results[Succ(j, num)] == IsEar(points, j)
      invariant forall j :: i <= j < num ==> !results[Succ(j, num)]
    {
      SuccMod(i, num);
      var p0 := points[(i + 0) % num];
      var p1 := points[(i + 1) % num];
      var p2 := points[(i + 2) % num];
      ghost var before := results;
      var k := (i + 1) % num;
      forall j | 0 <= j < num && j != i ensures Succ(j, num) != k {
        SuccInjective(i, j, num);
      }
      if IsConvex(p0, p1, p2) {
        results := results[k := true];
        var tri := [p0, p1, p2];
        assert tri == Corners(TripleAt(points, i));
        for m := 0 to num
          invariant |results| == num
          invariant forall j :: 0 <= j < num && j != k ==> results[j] == before[j]
          invariant results[k] == forall q :: 0 <= q < m && points[q] != p0 && points[q] != p1 && points[q] != p2 ==>
                                    !Inside(points[q], tri)
        {
          var p := points[m];
          if p == p0 || p == p1 || p == p2 {
            continue;
          }
          var inside := InsidePolygon(p.x, p.y, tri);
          if inside != Ok(0) {
            results := results[k := false];
          }
        }
      }
    }
  }

  /** The lowest index from i on whose triple is an ear, if there is one. */
  function FirstEarFrom(s: seq<Point>, i: nat): (r: Option<nat>)
    requires i <= |s|
    ensures r.Some? ==> i <= r.value < |s|
    decreases |s| - i
  {
    if i == |s| then None else if IsEar(s, i) then Some(i) else FirstEarFrom(s, i + 1)
  }

  /** FirstEarFrom finds an ear with no ear before it from i on, or reports that there is none. */
  lemma {:induction false} FirstEarFromMeaning(s: seq<Point>, i: nat)
    requires i <= |s|
    ensures var r := FirstEarFrom(s, i);
      r.Some? ==> IsEar(s, r.value) && forall j :: i <= j < r.value ==> !IsEar(s, j)
    ensures FirstEarFrom(s, i).None? ==> forall j :: i <= j < |s| ==> !IsEar(s, j)
    decreases |s| - i
  {
    if i < |s| && !IsEar(s, i) {
      FirstEarFromMeaning(s, i + 1);
    }
  }

  /** The position of the first element equal to v (Python's list.index). */
  function IndexOf(s: seq<Point>, v: Point): (k: nat)
    requires v in s
    ensures k < |s| && s[k] == v && v !in s[..k]
  {
    if s[0] == v then 0
    else
      assert v in s[1..] by { assert s == [s[0]] + s[1..]; }
      var k := IndexOf(s[1..], v);
      assert s[..k + 1] == [s[0]] + s[1..][..k];
      k + 1
  }

  /** Python's list.remove(v): drops the first element equal to v. */
  function RemoveFirst(s: seq<Point>, v: Point): (r: seq<Point>)
    requires v in s
    ensures r == s[..IndexOf(s, v)] + s[IndexOf(s, v) + 1..]
    ensures |r| == |s| - 1
    ensures multiset(r) == multiset(s) - multiset{v}
  {
    var k := IndexOf(s, v);
    assert s == s[..k] + [v] + s[k + 1..];
    s[..k] + s[k + 1..]
  }

  /** The three outcomes of ClipEar, with the list that remains to be clipped. */
  datatype Clip =
    | Final(tri: Triangle)                    // three points: they are the last triangle
    | Clipped(tri: Triangle, rest: seq<Point>) // an ear was cut off; the list lost its tip
    | Stalled                                 // not three points, and no ear

  /** What ClipEar does to a list of points: a three-point list is the last
      triangle; otherwise the first ear, scanning tip indices 1, 2, ..., n-1, 0,
      is emitted and the first point equal to its tip is removed; with no ear the
      clipper gives up. */
  function ClipStep(s: seq<Point>): (c: Clip)
    ensures c.Clipped? ==> |c.rest| == |s| - 1
  {
    if |s| == 3 then Final(Triangle(s[0], s[1], s[2]))
    else match FirstEarFrom(s, 0)
      case None => Stalled
      case Some(i) =>
        var t := TripleAt(s, i);
        Clipped(t, RemoveFirst(s, t.b))
  }

  /** ClipStep's outcomes: three points are the last triangle; otherwise it
      stalls exactly when no triple is an ear. */
  lemma ClipStepCases(s: seq<Point>)
    ensures var c := ClipStep(s);
      (|s| == 3 ==> c == Final(Triangle(s[0], s[1], s[2]))) &&
      (|s| != 3 ==> (c.Stalled? <==> forall i :: 0 <= i < |s| ==> !IsEar(s, i))) &&
      (c.Clipped? ==> |s| != 3)
  {
    FirstEarFromMeaning(s, 0);
  }

  /** A clip cuts off the first ear and removes the first point equal to its tip. */
  lemma ClipStepTakesFirstEar(s: seq<Point>)
    requires ClipStep(s).Clipped?
    ensures var c := ClipStep(s);
      exists i :: 0 <= i < |s| && IsEar(s, i) && (forall j :: 0 <= j < i ==> !IsEar(s, j)) &&
                  c.tri == TripleAt(s, i) && c.rest == RemoveFirst(s, c.tri.b)
  {
    FirstEarFromMeaning(s, 0);
    var i := FirstEarFrom(s, 0).value;
    assert ClipStep(s).tri == TripleAt(s, i);
  }

  /** A Python list of points that the triangulator changes in place. */
  class PointList {
    var items: seq<Point>

    /** `list(points)`: a fresh copy. */
    constructor (items: seq<Point>)
      ensures this.items == items
    {
      this.items := items;
    }

    /** list.reverse(). */
    method Reverse()
      modifies this
      ensures items == Reversed(old(items))
    {
      items := Reversed(items);
    }

    /** list.remove(v); the source only removes values the list holds. */
    method Remove(v: Point)
      requires v in items
      modifies this
      ensures items == RemoveFirst(old(items), v)
    {
      items := RemoveFirst(items, v);
    }
  }

  function Reversed(s: seq<Point>): (r: seq<Point>)
    ensures |r| == |s|
  {
    seq(|s|, i requires 0 <= i < |s| => s[|s| - 1 - i])
  }

  /** Reversal keeps exactly the same points. */
  lemma ReversedSamePoints(s: seq<Point>)
    ensures forall p :: p in Reversed(s) <==> p in s
  {
    var r := Reversed(s);
    forall p | p in s ensures p in r {
      var i :| 0 <= i < |s| && s[i] == p;
      assert r[|s| - 1 - i] == p;
    }
  }

  /** ClipEar: cuts the first ear off the list in place. */
  method ClipEar(points: PointList) returns (clip: Clip)
    modifies points
    ensures clip == ClipStep(old(points.items))
    ensures points.items == if clip.Clipped? then clip.rest else old(points.items)
  {
    if |points.items| == 3 {
      return Final(Triangle(points.items[0], points.items[1], points.items[2]));
    }
    var ears := CacheEars(points.items);
    var num := |points.items|;
    for i := 0 to num
      invariant points.items == old(points.items)
      invariant FirstEarFrom(points.items, 0) == FirstEarFrom(points.items, i)
    {
      SuccMod(i, num);
      var p0 := points.items[(i + 0) % num];
      var p1 := points.items[(i + 1) % num];
      var p2 := points.items[(i + 2) % num];
      var isEar := ears[(i + 1) % num];
      if isEar {
        var triangle := Triangle(p0, p1, p2);
        assert triangle == TripleAt(points.items, i);
        points.Remove(p1);
        return Clipped(triangle, points.items);
      }
    }
    return Stalled;
  }

  /** The number of convex triples among those at 0, ..., k-1. */
  function ConvexCount(s: seq<Point>, k: nat): (c: nat)
    requires k <= |s|
    ensures c <= k
  {
    if k == 0 then 0 else ConvexCount(s, k - 1) + (if ConvexAt(s, k - 1) then 1 else 0)
  }

  /** Strictly more cyclic triples are convex than not. */
  predicate MajorityConvex(s: seq<Point>) {
    ConvexCount(s, |s|) > |s| - ConvexCount(s, |s|)
  }

  /** CheckPointList: the winding vote over all cyclic triples. */
  method CheckPointList(points: seq<Point>) returns (ok: bool)
    ensures ok <==> MajorityConvex(points)
  {
    var correct := 0;
    var incorrect := 0;
    var num := |points|;
    for i := 0 to num
      invariant correct == ConvexCount(points, i) && incorrect == i - correct
    {
      SuccMod(i, num);
      var p0 := points[(i + 0) % num];
      var p1 := points[(i + 1) % num];
      var p2 := points[(i + 2) % num];
      if IsConvex(p0, p1, p2) {
        correct := correct + 1;
      } else {
        incorrect := incorrect + 1;
      }
    }
    ok := correct > incorrect;
  }

  /** The list the clipper works on: reversed unless the vote is won, so a tie reverses it too. */
  function Oriented(s: seq<Point>): seq<Point> {
    if MajorityConvex(s) then s else Reversed(s)
  }

  /** All the triangles the loop emits, and the list it leaves behind. */
  datatype Run = Run(triangles: seq<Triangle>, left: seq<Point>)

  /** ClipEar repeated until it reports a last triangle or no ear. */
  function ClipAll(s: seq<Point>): Run
    decreases |s|
  {
    match ClipStep(s)
    case Final(t) => Run([t], s)
    case Stalled => Run([], s)
    case Clipped(t, rest) =>
      var r := ClipAll(rest);
      Run([t] + r.triangles, r.left)
  }

  /** The triangles GetTriangleList returns for a list of points. */
  function Triangulate(s: seq<Point>): seq<Triangle> {
    ClipAll(Oriented(s)).triangles
  }

  /** The remainder of ClipEar's result: the clipped list, or a fresh empty one. */
  function Remainder(c: Clip): seq<Point> {
    if c.Clipped? then c.rest else []
  }

  /** One step of ClipAll, written in terms of what ClipEar returns and leaves behind. */
  lemma ClipAllStep(s: seq<Point>, c: Clip)
    requires c == ClipStep(s)
    ensures ClipAll(s).triangles == (if c.Stalled? then [] else [c.tri]) + ClipAll(Remainder(c)).triangles
    ensures ClipAll(s).left == if |Remainder(c)| > 0 then ClipAll(Remainder(c)).left else if c.Clipped? then [] else s
  {
    assert ClipStep([]) == Stalled;
  }

  /** GetTriangleList: fixes the winding in place, then clips ears until the list is used up. */
  method GetTriangleList(points: PointList) returns (triangles: seq<Triangle>)
    modifies points
    ensures triangles == Triangulate(old(points.items))
    ensures points.items == ClipAll(Oriented(old(points.items))).left
  {
    var ok := CheckPointList(points.items);
    if !ok {
      points.Reverse();
    }
    ghost var start := points.items;
    LoopStart(start);
    triangles := [];
    var clip := ClipEar(points);
    ClipLoopStep(start, triangles, start, clip, if clip.Stalled? then triangles else triangles + [clip.tri], points.items);
    var poly := Remainder(clip);
    if !clip.Stalled? {
      triangles := triangles + [clip.tri];
    }
    while |poly| > 0
      invariant LoopState(start, triangles, poly, points.items)
      decreases |poly|
    {
      ghost var before := poly;
      clip := ClipEar(points);
      ClipLoopStep(start, triangles, before, clip, if clip.Stalled? then triangles else triangles + [clip.tri], points.items);
      poly := Remainder(clip);
      if clip.Stalled? {
        continue;
      }
      triangles := triangles + [clip.tri];
    }
    LoopDone(start, triangles, points.items);
  }

  /** What GetTriangleList's loop keeps: the triangles collected so far and
      those still to come from `poly` make up the whole run from `start`, and
      the list it will leave is the run's; while `poly` is not empty it is the
      list being clipped. */
  ghost predicate LoopState(start: seq<Point>, ts: seq<Triangle>, poly: seq<Point>, items: seq<Point>) {
    (|poly| > 0 ==> poly == items) &&
    ClipAll(start).triangles == ts + ClipAll(poly).triangles &&
    ClipAll(start).left == if |poly| > 0 then ClipAll(poly).left else items
  }

  /** Before the first call nothing is collected and the whole list is still to clip. */
  lemma LoopStart(start: seq<Point>)
    ensures LoopState(start, [], start, start)
  {
    assert [] + ClipAll(start).triangles == ClipAll(start).triangles;
    assert ClipStep([]) == Stalled;
  }

  /** When nothing is left to clip, the triangles collected are the whole run. */
  lemma LoopDone(start: seq<Point>, ts: seq<Triangle>, items: seq<Point>)
    requires LoopState(start, ts, [], items)
    ensures ClipAll(start) == Run(ts, items)
  {
    assert ClipStep([]) == Stalled;
    assert ts + [] == ts;
  }

  /** What one ClipEar call in GetTriangleList adds to the triangles collected
      so far, when `before` is the list it clips and `c` is its answer: the
      triangles become `ts2` and the list `items2`. */
  lemma ClipLoopStep(start: seq<Point>, ts: seq<Triangle>, before: seq<Point>, c: Clip, ts2: seq<Triangle>, items2: seq<Point>)
    requires LoopState(start, ts, before, before)
    requires c == ClipStep(before)
    requires ts2 == if c.Stalled? then ts else ts + [c.tri]
    requires items2 == if c.Clipped? then c.rest else before
    ensures LoopState(start, ts2, Remainder(c), items2)
  {
    ClipAllStep(before, c);
    RunStep(ClipAll(start), ts, before, c, ClipAll(before), ClipAll(Remainder(c)), ts2, items2);
  }

  /** ClipLoopStep on the runs alone: `whole` is the run from the start, `cur`
      the run from `before` and `next` the run after the step `c`. */
  lemma RunStep(whole: Run, ts: seq<Triangle>, before: seq<Point>, c: Clip, cur: Run, next: Run,
                ts2: seq<Triangle>, items2: seq<Point>)
    requires whole.triangles == ts + cur.triangles
    requires whole.left == if |before| > 0 then cur.left else before
    requires c.Clipped? ==> |c.rest| + 1 == |before|
    requires cur.triangles == (if c.Stalled? then [] else [c.tri]) + next.triangles
    requires cur.left == if |Remainder(c)| > 0 then next.left else if c.Clipped? then [] else before
    requires ts2 == if c.Stalled? then ts else ts + [c.tri]
    requires items2 == if c.Clipped? then c.rest else before
    ensures |Remainder(c)| > 0 ==> Remainder(c) == items2
    ensures whole.triangles == ts2 + next.triangles
    ensures whole.left == if |Remainder(c)| > 0 then next.left else items2
  {
    if c.Stalled? {
      assert [] + next.triangles == next.triangles;
    } else {
      assert ts + ([c.tri] + next.triangles) == (ts + [c.tri]) + next.triangles;
    }
  }



  /** With fewer than three points every cyclic triple repeats a point, so none is an ear. */
  lemma ShortListHasNoEar(s: seq<Point>)
    requires |s| < 3
    ensures forall i :: 0 <= i < |s| ==> !IsEar(s, i)
  {
    forall i | 0 <= i < |s| ensures !ConvexAt(s, i) {
      var t := TripleAt(s, i);
      assert t.a == t.c;
      DegenerateNotConvex(t.a, t.b, t.c);
    }
  }

  /** How ClipAll ends: a list of fewer than three points is given up at once;
      otherwise the clipper stops at three points, having emitted |s| - 2
      triangles of which the last is those three points, or it stalls on a
      list of more than three points without an ear, having emitted one
      triangle per removed point. */
  lemma {:induction false} ClipAllOutcome(s: seq<Point>)
    ensures |s| < 3 ==> ClipAll(s) == Run([], s)
    ensures |s| >= 3 ==> |ClipAll(s).left| >= 3
    ensures |ClipAll(s).left| <= |s|
    ensures |ClipAll(s).triangles| + |ClipAll(s).left| == |s| + (if |ClipAll(s).left| == 3 then 1 else 0)
    ensures |ClipAll(s).left| == 3 ==>
      |ClipAll(s).triangles| >= 1 &&
      ClipAll(s).triangles[|ClipAll(s).triangles| - 1] ==
        Triangle(ClipAll(s).left[0], ClipAll(s).left[1], ClipAll(s).left[2])
    ensures |ClipAll(s).left| != 3 ==> forall i :: 0 <= i < |ClipAll(s).left| ==> !IsEar(ClipAll(s).left, i)
    decreases |s|
  {
    ClipStepCases(s);
    if |s| < 3 {
      ShortListHasNoEar(s);
    } else if ClipStep(s).Clipped? {
      var rest := ClipStep(s).rest;
      ClipAllOutcome(rest);
    }
  }

  /** Triangulate emits no triangle for fewer than three points, and at most
      |s| - 2 otherwise; exactly |s| - 2 when the clipper reaches three points,
      while a shortfall means it stalled on a list without an ear. */
  lemma TriangleCount(s: seq<Point>)
    ensures |s| < 3 ==> Triangulate(s) == []
    ensures |s| >= 3 ==> |Triangulate(s)| <= |s| - 2
    ensures |s| >= 3 ==> (|Triangulate(s)| == |s| - 2 <==> |ClipAll(Oriented(s)).left| == 3)
    ensures |s| >= 3 && |Triangulate(s)| < |s| - 2 ==>
      forall i :: 0 <= i < |ClipAll(Oriented(s)).left| ==> !IsEar(ClipAll(Oriented(s)).left, i)
  {
    ClipAllOutcome(Oriented(s));
  }

  /** A clip cuts off a triple of the list's own points, removes its tip, and
      ClipAll goes on from what is left. */
  lemma ClippedEar(s: seq<Point>)
    requires ClipStep(s).Clipped?
    ensures var c := ClipStep(s);
      c.tri.a in s && c.tri.b in s && c.tri.c in s && c.rest == RemoveFirst(s, c.tri.b) &&
      ClipAll(s) == Run([c.tri] + ClipAll(c.rest).triangles, ClipAll(c.rest).left)
  {
    var i := FirstEarFrom(s, 0).value;
    assert ClipStep(s).tri == TripleAt(s, i);
  }

  /** The corners of every triangle are points of the list, and the list left
      behind holds no point more often than the input did. */
  lemma {:induction false} ClipAllVertices(s: seq<Point>)
    ensures forall k :: 0 <= k < |ClipAll(s).triangles| ==>
      var t := ClipAll(s).triangles[k]; t.a in s && t.b in s && t.c in s
    ensures multiset(ClipAll(s).left) <= multiset(s)
    decreases |s|
  {
    var c := ClipStep(s);
    if c.Clipped? {
      ClippedEar(s);
      ClipAllVertices(c.rest);
      forall p | p in c.rest ensures p in s {
        assert p in multiset(c.rest);
      }
    } else {
      assert ClipAll(s).left == s;
    }
  }

  /** The tips of the triangles cut off as ears. */
  function Tips(ts: seq<Triangle>): (r: seq<Point>)
    ensures |r| == |ts|
  {
    seq(|ts|, i requires 0 <= i < |ts| => ts[i].b)
  }

  /** The triangles ClipAll cut off as ears: all but the last one when it ended on three points. */
  function EarsCut(r: Run): seq<Triangle> {
    if |r.left| == 3 && |r.triangles| > 0 then r.triangles[..|r.triangles| - 1] else r.triangles
  }

  lemma TipsCons(t: Triangle, ts: seq<Triangle>)
    ensures Tips([t] + ts) == [t.b] + Tips(ts)
  {
  }

  lemma EarsCutCons(t: Triangle, r: Run)
    requires |r.left| == 3 ==> |r.triangles| > 0
    ensures EarsCut(Run([t] + r.triangles, r.left)) == [t] + EarsCut(r)
  {
    if |r.left| == 3 {
      assert ([t] + r.triangles)[..|r.triangles|] == [t] + r.triangles[..|r.triangles| - 1];
    }
  }

  /** Every ear removes its own tip and nothing else: the tips of the clipped
      ears together with the list left behind are the input, as a multiset. */
  lemma {:induction false} TipsAndRemainder(s: seq<Point>)
    ensures multiset(Tips(EarsCut(ClipAll(s)))) + multiset(ClipAll(s).left) == multiset(s)
    decreases |s|
  {
    var c := ClipStep(s);
    if c.Clipped? {
      TipsAndRemainder(c.rest);
      var r := ClipAll(c.rest);
      ClippedTips(s, c, r);
      ghost var tips := Tips(EarsCut(r));
      assert multiset(tips) + multiset(r.left) == multiset(c.rest);
      assert multiset(c.rest) == multiset(s) - multiset{c.tri.b};
      assert c.tri.b in multiset(s);
    } else {
      ClipAllOutcome(s);
      assert ClipAll(s).left == s;
    }
  }

  /** The ears cut from a list whose first step clips: that ear's tip, then the
      tips of the ears cut from the rest. */
  lemma ClippedTips(s: seq<Point>, c: Clip, r: Run)
    requires c == ClipStep(s) && c.Clipped? && r == ClipAll(c.rest)
    ensures c.tri.b in s && c.rest == RemoveFirst(s, c.tri.b)
    ensures Tips(EarsCut(ClipAll(s))) == [c.tri.b] + Tips(EarsCut(r)) && ClipAll(s).left == r.left
  {
    ClippedEar(s);
    ClipAllOutcome(c.rest);
    assert ClipAll(s) == Run([c.tri] + r.triangles, r.left);
    EarsCutCons(c.tri, r);
    TipsCons(c.tri, EarsCut(r));
  }

  /** Every corner Triangulate emits is one of the input points. */
  lemma TriangulateVertices(s: seq<Point>)
    ensures forall k :: 0 <= k < |Triangulate(s)| ==>
      var t := Triangulate(s)[k]; t.a in s && t.b in s && t.c in s
  {
    ClipAllVertices(Oriented(s));
    ReversedSamePoints(s);
  }

  /** A three-point list is one triangle: its own order when it turns the convex
      way, the reverse order otherwise. */
  lemma ThreePointInput(a: Point, b: Point, c: Point)
    ensures Triangulate([a, b, c]) == [if IsConvex(a, b, c) then Triangle(a, b, c) else Triangle(c, b, a)]
  {
    var s := [a, b, c];
    ConvexUnderRotation(a, b, c);
    ConvexUnderRotation(b, c, a);
    assert ConvexAt(s, 0) == IsConvex(a, b, c);
    assert ConvexAt(s, 1) == IsConvex(b, c, a);
    assert ConvexAt(s, 2) == IsConvex(c, a, b);
    assert ConvexCount(s, 1) == if IsConvex(a, b, c) then 1 else 0;
    assert ConvexCount(s, 2) == if IsConvex(a, b, c) then 2 else 0;
    assert MajorityConvex(s) == IsConvex(a, b, c);
    assert Reversed(s) == [c, b, a];
  }

  /** The unit square, traced so that every corner turns the convex way. */
  function UnitSquare(): seq<Point> {
    [Point(0.0, 0.0), Point(0.0, 1.0), Point(1.0, 1.0), Point(1.0, 0.0)]
  }

  /** The unit square is cut into two triangles along the diagonal from its first point. */
  lemma UnitSquareTriangulated(s: seq<Point>)
    requires s == UnitSquare()
    ensures Triangulate(s) ==
      [Triangle(Point(0.0, 0.0), Point(0.0, 1.0), Point(1.0, 1.0)),
       Triangle(Point(0.0, 0.0), Point(1.0, 1.0), Point(1.0, 0.0))]
  {
    assert Oriented(s) == s by {
      UnitSquareVote(s);
    }
    assert ClipAll(s).triangles == [Triangle(s[0], s[1], s[2]), Triangle(s[0], s[2], s[3])] by {
      UnitSquareFirstEar(s);
      FourPointsOneEar(s);
    }
  }

  /** Four points whose first ear is the tip at index 1 become two triangles
      that share the diagonal from the first point. */
  lemma FourPointsOneEar(s: seq<Point>)
    requires |s| == 4 && ClipStep(s) == Clipped(Triangle(s[0], s[1], s[2]), [s[0], s[2], s[3]])
    ensures ClipAll(s).triangles == [Triangle(s[0], s[1], s[2]), Triangle(s[0], s[2], s[3])]
  {
    var rest := [s[0], s[2], s[3]];
    ClipAllStep(s, ClipStep(s));
    ClipStepCases(rest);
    ClipAllStep(rest, ClipStep(rest));
    assert ClipStep([]) == Stalled;
  }

  lemma UnitSquareVote(s: seq<Point>)
    requires s == UnitSquare()
    ensures MajorityConvex(s)
  {
    assert ConvexAt(s, 0) && ConvexAt(s, 1);
    assert ConvexAt(s, 2) by {
      assert TripleAt(s, 2) == Triangle(s[2], s[3], s[0]);
    }
    assert ConvexAt(s, 3) by {
      assert TripleAt(s, 3) == Triangle(s[3], s[0], s[1]);
    }
    assert ConvexCount(s, 2) == 2;
    assert ConvexCount(s, 4) == 4;
  }

  /** The first step on the unit square: the tip at index 1 is an ear and is cut off. */
  lemma UnitSquareFirstEar(s: seq<Point>)
    requires s == UnitSquare()
    ensures ClipStep(s) == Clipped(Triangle(s[0], s[1], s[2]), [s[0], s[2], s[3]])
  {
    UnitSquareEar(s);
    assert FirstEarFrom(s, 0) == Some(0);
    assert TripleAt(s, 0) == Triangle(s[0], s[1], s[2]);
    assert IndexOf(s, s[1]) == 1;
    assert RemoveFirst(s, s[1]) == [s[0], s[2], s[3]] by {
      assert s[..1] == [s[0]] && s[2..] == [s[2], s[3]];
    }
  }

  lemma UnitSquareEar(s: seq<Point>)
    requires s == UnitSquare()
    ensures IsEar(s, 0)
  {
    assert TripleAt(s, 0) == Triangle(s[0], s[1], s[2]);
    assert ConvexAt(s, 0);
    FarPointOutside(s[3], Corners(TripleAt(s, 0)));
  }
}
