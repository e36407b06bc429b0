# SVG floor plan triangulation, modelled in Dafny

The repository reads the shapes of an Inkscape floor plan (paths and
rectangles) from an SVG file. Each shape keeps its outline as a list of
points, its style as a dictionary and its bounding box. The exporter
centres the drawing on the origin. Then, for every filled shape, it cuts
a reversed copy of the outline into triangles with a simple ear-clipping
triangulator and writes the triangles and the closed outline as one text
line.

This project models that core with exact real coordinates:

- `Strings`: the few pieces of Python's `str` the parsers use, namely
  `split` on one character, `strip(chars)` and `in`.
- `ShapeGeometry`: points, the six-entry affine transform, bounding boxes.
  It also holds the classes `Shape` (points, style and box, updated in
  place by `applyTransform` and `initExtents`) and `SVGReader` (the shape
  list and `computeBBox`).
- `ShapeParsing`: `_parseStyle`, `_parsePointList` and `_parseTransform`.
  Python's `float(text)` is the parameter `num`; it answers `None` where
  `float()` raises ValueError.
- `Predicates`: `Cross`, `IsConvex` and the odd-even ray-casting test
  `pointInPoly` / `InsidePolygon`.
- `EarClipping`: `CacheEars`, `ClipEar`, `CheckPointList` and
  `GetTriangleList`. They work on a class `PointList` that stands for the
  Python list the clipper changes in place. The functions `ClipStep`,
  `ClipAll` and `Triangulate` specify them, and lemmas state what the
  triangulation is (triangle count, corners, the tips removed, the "no ear"
  exit).
- `Exporter`: the centring constructor of `SVG2TXTExporter` and
  `GetDataString` before number formatting.

Python exceptions are the error cases of a `Result`: `IndexError` or
`ValueError`.

Four behaviours of the code are modelled as written:

- The winding vote reverses the list unless convex triples strictly
  outnumber non-convex ones, so a tie reverses it.
- A three-point input is cut as one triangle in its own order when it
  turns the convex way, and in reverse order otherwise (the vote is then
  0 to 3). It is not always returned unchanged.
- The box folds start from the ±999999 sentinels, so a drawing whose x
  (or y) coordinates all lie beyond the same sentinel (all above 999999, or
  all below -999999) is not centred on the origin: that sentinel stays one
  side of the scene box. Any other drawing is centred.
- The crossing test checks the half-open y range before the division, so
  a horizontal edge is never divided by.

## Model

| member | source | states |
|---|---|---|
| Strings.Split | SVGReader.py:25-27 | `s.split(sep)` yields at least one piece and no piece holds the separator |
| Strings.JoinSplit | SVGReader.py:25 | joining the pieces of a split with the separator gives back the text |
| Strings.SplitJoin | SVGReader.py:25 | splitting a join of separator-free pieces gives back the pieces |
| Strings.SplitAppend | SVGReader.py:34-36 | text with a separator in the middle splits into the pieces of both sides |
| Strings.SplitFindsSeparator | SVGReader.py:27-28 | a text splits into more than one piece exactly when it holds the separator, so `pair[1]` exists exactly then |
| Strings.ContainsAt | SVGReader.py:58 | `sub in s` holds exactly when `sub` occurs at some position of `s` |
| Strings.StripLeft | SVGReader.py:59 | the result is a suffix of the text that does not start with a stripped character, and every character dropped in front of it is a stripped character |
| Strings.StripRight | SVGReader.py:59 | the result is a prefix of the text that does not end with a stripped character, and every character dropped after it is a stripped character |
| Strings.Strip | SVGReader.py:59 | `strip(chars)` is a slice of the text that neither starts nor ends with one of `chars`, and every character outside the slice is one of `chars` |
| ShapeGeometry.Transformed | SVGReader.py:131-136 | the transformed list has as many points as the original |
| ShapeGeometry.IdentityLeavesPoints | SVGReader.py:131-136 | the identity list [1, 0, 0, 1, 0, 0] leaves every point as it is |
| ShapeGeometry.TranslationUndone | SVGReader.py:131-136 | translating by (dx, dy) and then by (-dx, -dy) gives back the points |
| ShapeGeometry.Extents | SVGReader.py:145-154 | the box encloses every point, and each side is no further in than the ±999999 sentinel |
| ShapeGeometry.Center | SVGReader.py:156-157 | the centre is the midpoint of the box on both axes |
| ShapeGeometry.ExtentsAttained | SVGReader.py:145-154 | for non-empty points within ±999999, each of minx, miny, maxx and maxy is the coordinate of some point |
| ShapeGeometry.EmptyExtents | SVGReader.py:146-149 | an empty list leaves the inverted box [999999, 999999, -999999, -999999], whose centre is (0, 0) |
| ShapeGeometry.RectCorners | SVGReader.py:117-120 | a rectangle has exactly four corners |
| ShapeGeometry.RectExtents | SVGReader.py:117-120 | a rectangle of non-negative size inside the sentinels has the box [x, y, x+width, y+height] |
| ShapeGeometry.Shape.constructor | SVGReader.py:6-18 | a new shape has no points, an empty style, empty label and connection texts, centre (0, 0) and box [0, 0, 0, 0] |
| ShapeGeometry.Shape.InitExtents | SVGReader.py:145-157 | the box fields become the extents of the points and the centre fields its midpoint, so the shape is valid |
| ShapeGeometry.Shape.ApplyTransform | SVGReader.py:131-137 | the number of points is kept, point i becomes (a·x + c·y + e, b·x + d·y + f) of the old point i, and the extents are recomputed |
| ShapeGeometry.Shape.InitFromRect | SVGReader.py:117-121 | the four corners (x,y), (x+w,y), (x+w,y+h), (x,y+h) are appended in that order and then transformed, and the extents are recomputed |
| ShapeGeometry.Shape.GetBBox | SVGReader.py:139-140 | for a shape whose extents are up to date, the box is the extents of its points and encloses every point |
| ShapeGeometry.Shape.GetCenter | SVGReader.py:142-143 | for a shape whose extents are up to date, the centre is the midpoint of the box of its points |
| ShapeGeometry.SceneBox | SVGReader.py:177-190 | each side of the scene box is no further in than the ±999999 sentinel |
| ShapeGeometry.SceneBoxEncloses | SVGReader.py:177-190 | the scene box encloses every box, and each of its sides is the sentinel or the side of one of the boxes |
| ShapeGeometry.Boxes | SVGReader.py:183-184 | there is one box per shape |
| ShapeGeometry.SVGReader.constructor | SVGReader.py:161-162 | a new reader has no shapes |
| ShapeGeometry.SVGReader.GetShapes | SVGReader.py:192-193 | no contract of its own: it hands out the reader's own shape objects, not copies, which the constructor of SVG2TXTExporter relies on when it moves them in place (its `modifies reader.shapes`, its ensures on `PointLists(reader.shapes)` and AttributesKept) |
| ShapeGeometry.SVGReader.ComputeBBox | SVGReader.py:177-190 | the result is the fold of the shapes' boxes; it encloses every shape's box, and with no shapes it is [999999, 999999, -999999, -999999] |
| ShapeParsing.StyleMap | SVGReader.py:23-29 | no contract of its own: the reference fold that assigns each segment's value to its name, first to last; StyleMapKeys and StyleMapLastWins state what it holds |
| ShapeParsing.StyleMapKeys | SVGReader.py:23-29 | the dictionary's keys are exactly the `pair[0]` of the segments |
| ShapeParsing.StyleMapLastWins | SVGReader.py:26-28 | a key maps to `pair[1]` of the last segment with that key, so later duplicates overwrite earlier ones |
| ShapeParsing.ParseStyle | SVGReader.py:23-29 | it succeeds exactly when every `;` segment holds a ':'; otherwise it raises IndexError; on success it is the dictionary the segments build in order |
| ShapeParsing.CommaTokens | SVGReader.py:40 | a token is kept exactly when it is one of the tokens and holds a comma |
| ShapeParsing.ScanTokens | SVGReader.py:36-42 | no contract of its own: the reference scan of the tokens, one token at a time; ScanTokensMeaning and ScanStep state what it computes |
| ShapeParsing.ScanTokensMeaning | SVGReader.py:36-42 | the scan succeeds exactly when no token is empty and every comma token parses; it is relative exactly when some token starts with 'm'; it keeps one point per comma token, in order |
| ShapeParsing.ScanStep | SVGReader.py:36-42 | one more token: an empty token raises IndexError, a token without a comma only updates the 'm' flag, and a comma token appends its point or raises ValueError |
| ShapeParsing.ScanPrefixFails | SVGReader.py:36-42 | the first token that raises decides the outcome of the whole scan |
| ShapeParsing.Absolute | SVGReader.py:45-52 | the relative-to-absolute conversion keeps the number of points |
| ShapeParsing.ParsePointList | SVGReader.py:32-53 | the result is the points of the comma tokens of all tokens but the last; when a token starts with 'm', point i is the sum of the raw points 0..i; a relative list without points raises IndexError |
| ShapeParsing.RunningSums | SVGReader.py:45-52 | the in-place running sums turn point i into the sum of raw points 0..i |
| ShapeParsing.LastTokenIgnored | SVGReader.py:36 | the text after the last space plays no part in the point list |
| ShapeParsing.ParseFloats | SVGReader.py:60-66 | it succeeds exactly when the first `count` tokens exist and all parse, and then holds their values in order |
| ShapeParsing.ParseFloatsErrors | SVGReader.py:60-66 | it raises IndexError exactly when fewer than `count` tokens exist and all that exist parse, and ValueError exactly when one of the first `count` tokens that exist does not parse |
| ShapeParsing.ParseTransform | SVGReader.py:56-84 | `None` or text without a keyword gives the identity; `matrix` needs six numbers and sets b and c, and a, d, e, f unless a later keyword overwrites them; `translate` overwrites only e and f; `scale` overwrites a and d, with one factor for both when there is no two-number list; too few numbers for `matrix` or `translate` is an error; for text, the parse succeeds exactly when every keyword present has arguments that `float()` accepts |
| Predicates.Cross | SVG2TXT.py:58-59 | no contract of its own; its facts are stated by CrossParallel |
| Predicates.CrossParallel | SVG2TXT.py:58-59 | the cross product of parallel vectors, or with the zero vector, is 0, and swapping the two vectors negates it |
| Predicates.IsConvex | SVG2TXT.py:61-68 | a convex triple has three distinct points |
| Predicates.ConvexIsNegativeOrientation | SVG2TXT.py:61-68 | a vertex is convex exactly when its triangle's signed area is strictly negative |
| Predicates.ConvexUnderRotation | SVG2TXT.py:61-68 | convexity does not depend on which vertex of a cyclic triple is named first |
| Predicates.ConvexUnderReversal | SVG2TXT.py:61-68 | a reversed triple is convex exactly when the triple turns the other way, so a convex triple reversed is not convex |
| Predicates.DegenerateNotConvex | SVG2TXT.py:66 | colinear triples, and triples that repeat a point, are never convex |
| Predicates.HorizontalEdgeNotCrossed | SVG2TXT.py:37-38 | an edge with y1 == y2 is never counted, so the division is never reached for it |
| Predicates.EdgeCrosses | SVG2TXT.py:37-38 | a crossed edge has y1 != y2 and the point's y in the half-open y range of the edge |
| Predicates.CrossedEdgeIsToTheRight | SVG2TXT.py:37-38 | a counted edge has a vertex strictly right of the point |
| Predicates.CheckCrossings | SVG2TXT.py:28-45 | called with the crossing count of the edges before vertex vCt and the vertex before it, it returns the count of the edges up to vCt; a counted edge is not horizontal and has a vertex strictly right of the point |
| Predicates.Crossings | SVG2TXT.py:47-49 | at most one crossing is counted per edge examined |
| Predicates.PointInPoly | SVG2TXT.py:20-51 | the result is the parity of the number of crossed edges among exactly n edges, starting with (last vertex → vertex 0), so it is 0 or 1; an empty polygon raises IndexError |
| Predicates.InsidePolygon | SVG2TXT.py:53-56 | pointInPoly on the coordinate lists: 1 exactly when the point is inside by the odd-even rule |
| Predicates.FarPointNotCrossing | SVG2TXT.py:37-38 | no edge is crossed from a point at or right of, below, or at or above every vertex |
| Predicates.FarPointOutside | SVG2TXT.py:20-51 | such a point is outside the polygon |
| Predicates.UnitSquareCentreInside | SVG2TXT.py:20-51 | the centre of the unit square is inside it |
| EarClipping.SuccMod | SVG2TXT.py:77-79 | the indices (i+0)%n, (i+1)%n and (i+2)%n are i and its first and second successors on the cycle |
| EarClipping.SuccInjective | SVG2TXT.py:82 | distinct vertices have distinct successors, so each entry of the ear list is written for one triple only |
| EarClipping.CacheEars | SVG2TXT.py:70-88 | the list is as long as the points, and entry (i+1)%n holds exactly when the triple at i is convex and no vertex unequal to all three corners lies inside it |
| EarClipping.FirstEarFrom | SVG2TXT.py:101-111 | a found index lies in the range scanned |
| EarClipping.FirstEarFromMeaning | SVG2TXT.py:101-111 | the result is the lowest ear from i on, or there is no ear from i on |
| EarClipping.IndexOf | SVG2TXT.py:110 | the index is that of the first element equal to the value |
| EarClipping.RemoveFirst | SVG2TXT.py:110 | `list.remove` drops exactly one element, the first equal to the value, keeping the multiset minus that value |
| EarClipping.ClipStep | SVG2TXT.py:90-115 | a clipped list is one point shorter |
| EarClipping.ClipStepCases | SVG2TXT.py:90-115 | three points are the last triangle; otherwise the step stalls exactly when no triple is an ear |
| EarClipping.ClipStepTakesFirstEar | SVG2TXT.py:101-111 | a clip cuts off the first ear in scan order and removes the first point equal to its tip |
| EarClipping.PointList.constructor | SVG2TXT.py:179 | `list(points)` is a fresh copy of the points |
| EarClipping.PointList.Reverse | SVG2TXT.py:136 | the list holds its old points in reverse order |
| EarClipping.PointList.Remove | SVG2TXT.py:110 | the first element equal to the value is removed from the list |
| EarClipping.Reversed | SVG2TXT.py:184 | a reversed list has as many points as the original |
| EarClipping.ReversedSamePoints | SVG2TXT.py:184 | a reversed list holds exactly the same points |
| EarClipping.ClipEar | SVG2TXT.py:90-115 | the outcome is the specified step, and the caller's list loses the tip exactly when an ear is clipped; it is unchanged otherwise |
| EarClipping.ConvexCount | SVG2TXT.py:121-130 | the count of convex triples is at most the number of triples examined |
| EarClipping.CheckPointList | SVG2TXT.py:117-132 | the vote is won exactly when strictly more cyclic triples are convex than not |
| EarClipping.Oriented | SVG2TXT.py:135-136 | no contract of its own: the list as the vote leaves it, reversed unless convex triples win; CheckPointList, ThreePointInput and TriangulateVertices state its effect |
| EarClipping.ClipAll | SVG2TXT.py:138-146 | no contract of its own: the reference run of ClipStep until the list is used up; ClipAllStep, ClipAllOutcome, TriangleCount, ClippedEar, ClipAllVertices and TipsAndRemainder state what it produces |
| EarClipping.ClipAllStep | SVG2TXT.py:138-144 | one ClipEar call adds its triangle, if any, in front of the rest of the run |
| EarClipping.GetTriangleList | SVG2TXT.py:134-146 | the triangles are the run of the ear clipper on the list, reversed in place when the vote is lost; the list ends as the run leaves it |
| EarClipping.ClipLoopStep | SVG2TXT.py:139-145 | one ClipEar call keeps the loop's state: the triangles collected so far, plus those still to come, equal the whole run, and the list left over is the run's |
| EarClipping.ShortListHasNoEar | SVG2TXT.py:61-68 | with fewer than three points no triple is an ear |
| EarClipping.ClipAllOutcome | SVG2TXT.py:134-146 | fewer than three points give nothing; otherwise the run either ends on three points, emitting one triangle per removed point plus a last triangle of those three, or stalls on more than three points without an ear, emitting one triangle per removed point |
| EarClipping.TriangleCount | SVG2TXT.py:134-146 | under three points give no triangle; n ≥ 3 points give at most n-2 triangles, exactly n-2 when the run does not stall, and a shortfall means the list left has no ear |
| EarClipping.ClippedEar | SVG2TXT.py:101-111 | the corners of a clipped ear are points of the list, and the run continues on the list without its tip |
| EarClipping.ClipAllVertices | SVG2TXT.py:134-146 | every corner of every triangle is a point of the list, and the list left holds no point more often than the input |
| EarClipping.Tips | SVG2TXT.py:108-110 | there is one tip per triangle |
| EarClipping.TipsAndRemainder | SVG2TXT.py:108-110 | the tips of the ears cut, together with the list left behind, are the input as a multiset: each ear removes its own tip and nothing else |
| EarClipping.ClippedTips | SVG2TXT.py:108-110 | the tips of a run that starts with a clip are that ear's tip followed by the tips of the rest |
| EarClipping.Triangulate | SVG2TXT.py:134-146 | no contract of its own: ClipAll on the voted list; GetTriangleList is proved equal to it and TriangulateVertices states its corners |
| EarClipping.TriangulateVertices | SVG2TXT.py:134-146 | every corner of every triangle is one of the input points, whichever winding the vote chose |
| EarClipping.ThreePointInput | SVG2TXT.py:91-92 | three points yield one triangle, in their own order when convex and reversed otherwise |
| EarClipping.UnitSquareTriangulated | SVG2TXT.py:134-146 | the unit square is cut into two triangles along the diagonal from its first point |
| EarClipping.FourPointsOneEar | SVG2TXT.py:138-144 | four points whose first ear has its tip at index 1 become two triangles sharing the diagonal from the first point |
| EarClipping.UnitSquareVote | SVG2TXT.py:117-132 | the unit square, traced convexly, wins the vote |
| EarClipping.UnitSquareFirstEar | SVG2TXT.py:101-111 | the first step on the unit square clips the tip at index 1 |
| EarClipping.UnitSquareEar | SVG2TXT.py:81-87 | the triple at 0 of the unit square is an ear |
| Exporter.PointLists | SVG2TXT.py:161 | there is one point list per shape |
| Exporter.ExtentsEach | SVG2TXT.py:154 | there is one box per point list |
| Exporter.TransformedEach | SVG2TXT.py:161-162 | there is one transformed list per point list |
| Exporter.ExtentsAppend | SVGReader.py:150-154 | the box of two joined lists is the second list's box merged into the first list's |
| Exporter.SceneBoxIsExtents | SVGReader.py:177-190 | the scene box of the shapes is the box of all their points together |
| Exporter.ExtentsShift | SVGReader.py:145-154 | translating points that stay within the sentinels translates their box |
| Exporter.CentredScene | SVG2TXT.py:153-164 | for a drawing in which, on each axis, some coordinate is at most 999999 and some at least -999999, after centring the scene box has midpoint (0, 0) and is symmetric about the origin with the old width and height; an empty drawing stays centred on (0, 0) |
| Exporter.FarDrawingNotCentred | SVG2TXT.py:153-164 | a one-point drawing with 999999 < x <= 3·999999, whose x coordinates thus all lie beyond the upper sentinel, is not centred: its new scene centre is ((x - 999999) / 2, 0) |
| Exporter.CentredBox | SVG2TXT.py:153-159 | moving points, no axis of which lies wholly beyond one sentinel, by minus their box's midpoint makes the box symmetric about the origin |
| Exporter.ExtentsSides | SVGReader.py:145-154 | each side of the box is its sentinel or some point's coordinate |
| Exporter.SidesAttained | SVGReader.py:145-154 | when no axis lies wholly beyond a sentinel, every side of the box is some point's coordinate |
| Exporter.ExtentsFromSides | SVGReader.py:145-154 | a box within the sentinels' reach that encloses the points and whose every side is some point's coordinate is their box |
| Exporter.Fill | SVG2TXT.py:173 | no contract of its own: `style.get("fill", "#000000")`; FillOfStyle states what it gives for a parsed style, ShapeLineMeaning and GetDataString what the line does with it |
| Exporter.FillOfStyle | SVG2TXT.py:173 | the fill colour of a parsed style attribute is the value of its last "fill" segment, and black when no segment names "fill" |
| Exporter.ShapeLine | SVG2TXT.py:171-196 | no contract of its own: the reference line of one shape; ShapeLineMeaning states what it holds and GetDataString is proved equal to it |
| Exporter.ShapeLineMeaning | SVG2TXT.py:171-196 | no line exactly for an unfilled or empty shape; otherwise the fill colour, triangles whose corners are the shape's points, none below three points and at most n-2, and the outline closed by its first point |
| Exporter.TransformShapes | SVG2TXT.py:161-162 | every shape's points are transformed in place, in order, every shape keeps its box in step with its points, and its style, id, label and connection ends are kept |
| Exporter.CentringTransform | SVG2TXT.py:154-159 | the transform is the translation by minus the midpoint of the scene box of the shapes' points |
| Exporter.SVG2TXTExporter.constructor | SVG2TXT.py:150-164 | every shape is moved by minus the midpoint of the scene box, the reader keeps the same shapes, and each shape keeps its style, id, label and connection ends |
| Exporter.SVG2TXTExporter.GetDataString | SVG2TXT.py:171-196 | an index out of Python's range raises IndexError; otherwise it is the shape's line, built from a reversed copy, and no existing object is changed |

## Left out

- SVG2Maya.py is not part of this model: it is a script that prints Maya commands using floating-point trigonometry.
- File and XML handling: `load`, `findGroup`, `_initShapes`, the tag dispatch in `Shape.__init__`, `_initFromPath` and the iteration over element attributes. The parsers and the rectangle corners are modelled on plain strings and numbers instead.
- Text output: `Export`, `print`, `__repr__`, the `%.2f` formatting in `GetDataString` and the command-line handling. `GetDataString` returns the line's parts instead of the text.
- `isConnector` and the label and connection fields beyond their initial values.
- Floating-point rounding: coordinates are exact reals. Python's `float(text)` is the parameter `num` of the parsers and is not modelled.
- Exporter.SVG2TXTExporter.constructor: requires the shapes to be distinct objects and to have their boxes in step with their points (true of every shape built by `applyTransform`). A shape listed twice would be moved twice in the source; the model does not cover that aliasing.
- Exporter.TransformShapes: the same two requirements as the constructor, for the same reason.
- Exporter.SVG2TXTExporter.constructor: the second `computeBBox` result is discarded by the source and states nothing.
- Exporter.FarDrawingNotCentred: shows the failure to centre only for one point beyond the x sentinel, not for every drawing with an axis wholly beyond a sentinel.
- Predicates.PointInPoly: requires the two coordinate lists to have the same length, as `InsidePolygon` always passes them.
- EarClipping.TriangleCount: states the n-2 bound and when it is reached, not that every simple polygon reaches it. The clipper can stall on lists with repeated or colinear points.
