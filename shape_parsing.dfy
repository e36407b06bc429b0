/** The static text parsers of `Shape` in SVGReader.py: style attributes, path
    point lists and transform attributes. Python's `float(text)` is the parameter
    `num`, which answers None where float() raises ValueError. */
module ShapeParsing {
  import opened Wrappers
  import opened Strings
  import opened ShapeGeometry

  // ---------------------------------------------------------------- style

  /** `pair[0]` of a style segment split at ':'. */
  function Key(segment: string): string {
    Split(segment, ':')[0]
  }

  /** `pair[1]` of a style segment split at ':'; it exists exactly when the segment holds a ':'. */
  function Val(segment: string): string
    requires ':' in segment
  {
    SplitFindsSeparator(segment, ':');
    Split(segment, ':')[1]
  }

  /** Every segment holds a ':', so `pair[1]` exists for each. */
  predicate AllPairs(segments: seq<string>) {
    forall i :: 0 <= i < |segments| ==> ':' in segments[i]
  }

  /** The dictionary the loop of _parseStyle fills: each segment in turn sets
      its key to its value. */
  function StyleMap(segments: seq<string>): map<string, string>
    requires AllPairs(segments)
    decreases |segments|
  {
    if segments == [] then map[]
    else
      var n := |segments|;
      assert AllPairs(segments[..n - 1]) by {
        assert forall i :: 0 <= i < n - 1 ==> segments[..n - 1][i] == segments[i];
      }
      StyleMap(segments[..n - 1])[Key(segments[n - 1]) := Val(segments[n - 1])]
  }

  /** No later segment has the same key as segment `i`. */
  predicate LastWithKey(segments: seq<string>, i: nat)
    requires i < |segments|
  {
    forall j :: i < j < |segments| ==> Key(segments[j]) != Key(segments[i])
  }

  /** The keys of the dictionary are the keys of the segments. */
  lemma {:induction false} StyleMapKeys(segments: seq<string>)
    requires AllPairs(segments)
    ensures forall k :: k in StyleMap(segments) <==> exists i :: 0 <= i < |segments| && Key(segments[i]) == k
    decreases |segments|
  {
    if segments != [] {
      var n := |segments|;
      var init := segments[..n - 1];
      assert forall i :: 0 <= i < n - 1 ==> init[i] == segments[i];
      assert AllPairs(init);
      StyleMapKeys(init);
      var m := StyleMap(init);
      assert StyleMap(segments) == m[Key(segments[n - 1]) := Val(segments[n - 1])];
      forall k
        ensures k in StyleMap(segments) <==> exists i :: 0 <= i < n && Key(segments[i]) == k
      {
        if k in m {
          var i :| 0 <= i < n - 1 && Key(init[i]) == k;
          assert Key(segments[i]) == k;
        }
        if exists i :: 0 <= i < n && Key(segments[i]) == k {
          var i :| 0 <= i < n && Key(segments[i]) == k;
          if i < n - 1 {
            assert Key(init[i]) == k;
          }
        }
      }
    }
  }

  /** The key of a segment that no later segment repeats maps to its value:
      later segments overwrite earlier ones. */
  lemma {:induction false} StyleMapLastWins(segments: seq<string>, i: nat)
    requires AllPairs(segments)
    requires i < |segments| && LastWithKey(segments, i)
    ensures Key(segments[i]) in StyleMap(segments)
    ensures StyleMap(segments)[Key(segments[i])] == Val(segments[i])
    decreases |segments|
  {
    var n := |segments|;
    var init := segments[..n - 1];
    assert forall j :: 0 <= j < n - 1 ==> init[j] == segments[j];
    assert AllPairs(init);
    assert StyleMap(segments) == StyleMap(init)[Key(segments[n - 1]) := Val(segments[n - 1])];
    if i < n - 1 {
      assert Key(segments[n - 1]) != Key(segments[i]);
      assert LastWithKey(init, i);
      StyleMapLastWins(init, i);
      assert init[i] == segments[i];
    }
  }

  /** _parseStyle: splits at ';' and maps every segment's key to its value. A
      segment without ':' (an empty text, a trailing ';') raises IndexError. */
  method ParseStyle(value: string) returns (r: Result<map<string, string>>)
    ensures r.Ok? <==> AllPairs(Split(value, ';'))
    ensures r.Err? ==> r.error == IndexError
    ensures r.Ok? ==> r.value == StyleMap(Split(value, ';'))
  {
    var style := map[];
    var valuePairs := Split(value, ';');
    for n := 0 to |valuePairs|
      invariant AllPairs(valuePairs[..n])
      invariant style == StyleMap(valuePairs[..n])
    {
      var pair := Split(valuePairs[n], ':');
      SplitFindsSeparator(valuePairs[n], ':');
      if |pair| < 2 {
        assert valuePairs[n] == Split(value, ';')[n];
        return Err(IndexError);
      }
      assert valuePairs[..n + 1][..n] == valuePairs[..n];
      assert valuePairs[..n + 1][n] == valuePairs[n];
      style := style[pair[0] := pair[1]];
    }
    assert valuePairs[..|valuePairs|] == valuePairs;
    return Ok(style);
  }

  // ---------------------------------------------------------------- point lists

  /** The point a comma token denotes: float() of the text before and after the first comma. */
  function TokenPoint(token: string, num: string -> Option<real>): Option<Point>
    requires ',' in token
  {
    SplitFindsSeparator(token, ',');
    var pt := Split(token, ',');
    match (num(pt[0]), num(pt[1]))
    case (Some(x), Some(y)) => Some(Point(x, y))
    case _ => None
  }

  /** The tokens that hold a comma, in order. */
  function CommaTokens(tokens: seq<string>): (r: seq<string>)
    ensures forall i :: 0 <= i < |r| ==> ',' in r[i]
    ensures forall t :: t in r <==> t in tokens && ',' in t
    decreases |tokens|
  {
    if tokens == [] then []
    else CommaTokens(tokens[..|tokens| - 1]) + (if ',' in tokens[|tokens| - 1] then [tokens[|tokens| - 1]] else [])
  }

  /** What the token loop of _parsePointList has built: the points as written and
      whether some token began with 'm'. */
  datatype Scan = Scan(points: seq<Point>, relative: bool)

  /** The token loop of _parsePointList over `tokens`, in order. An empty token
      (two spaces in a row) raises IndexError at `token[0]`; a comma token whose
      numbers float() rejects raises ValueError; the first failure wins. */
  function ScanTokens(tokens: seq<string>, num: string -> Option<real>): Result<Scan>
    decreases |tokens|
  {
    if tokens == [] then Ok(Scan([], false))
    else
      var token := tokens[|tokens| - 1];
      var acc :- ScanTokens(tokens[..|tokens| - 1], num);
      if |token| == 0 then Err(IndexError)
      else
        var relative := acc.relative || token[0] == 'm';
        if ',' in token then
          match TokenPoint(token, num)
          case Some(p) => Ok(Scan(acc.points + [p], relative))
          case None => Err(ValueError)
        else Ok(Scan(acc.points, relative))
  }

  /** The scan succeeds exactly when no token is empty and every comma token
      parses; it is relative exactly when some token begins with 'm'; and it keeps
      one point per comma token, in order. */
  lemma {:induction false} ScanTokensMeaning(tokens: seq<string>, num: string -> Option<real>)
    ensures ScanTokens(tokens, num).Ok? <==>
      (forall i :: 0 <= i < |tokens| ==> |tokens[i]| > 0) &&
      (forall i :: 0 <= i < |tokens| && ',' in tokens[i] ==> TokenPoint(tokens[i], num).Some?)
    ensures ScanTokens(tokens, num).Ok? ==>
      (ScanTokens(tokens, num).value.relative <==> exists i :: 0 <= i < |tokens| && tokens[i][0] == 'm')
    ensures ScanTokens(tokens, num).Ok? ==> |ScanTokens(tokens, num).value.points| == |CommaTokens(tokens)|
    ensures ScanTokens(tokens, num).Ok? ==> forall i :: 0 <= i < |CommaTokens(tokens)| ==>
      TokenPoint(CommaTokens(tokens)[i], num) == Some(ScanTokens(tokens, num).value.points[i])
    decreases |tokens|
  {
    if tokens != [] {
      var init := tokens[..|tokens| - 1];
      var token := tokens[|tokens| - 1];
      assert forall i :: 0 <= i < |init| ==> init[i] == tokens[i];
      assert tokens == init + [token];
      ScanTokensMeaning(init, num);
    }
  }

  /** One more token scanned: what the loop body does to the scan so far. */
  lemma ScanStep(tokens: seq<string>, i: nat, num: string -> Option<real>, acc: Scan)
    requires i < |tokens| && ScanTokens(tokens[..i], num) == Ok(acc)
    ensures |tokens[i]| == 0 ==> ScanTokens(tokens[..i + 1], num) == Err(IndexError)
    ensures |tokens[i]| > 0 && ',' !in tokens[i] ==>
      ScanTokens(tokens[..i + 1], num) == Ok(Scan(acc.points, acc.relative || tokens[i][0] == 'm'))
    ensures |tokens[i]| > 0 && ',' in tokens[i] ==>
      ScanTokens(tokens[..i + 1], num) ==
        if TokenPoint(tokens[i], num).None? then Err(ValueError)
        else Ok(Scan(acc.points + [TokenPoint(tokens[i], num).value], acc.relative || tokens[i][0] == 'm'))
  {
    assert tokens[..i + 1][..i] == tokens[..i];
    assert tokens[..i + 1][i] == tokens[i];
  }

  /** A failure in a prefix of the tokens is the failure of all of them. */
  lemma {:induction false} ScanPrefixFails(tokens: seq<string>, k: nat, num: string -> Option<real>)
    requires k <= |tokens|
    requires ScanTokens(tokens[..k], num).Err?
    ensures ScanTokens(tokens, num) == ScanTokens(tokens[..k], num)
    decreases |tokens| - k
  {
    if k < |tokens| {
      assert tokens[..k + 1][..k] == tokens[..k];
      ScanPrefixFails(tokens, k + 1, num);
    } else {
      assert tokens[..k] == tokens;
    }
  }

  /** The sum of the points of `ps`. */
  function SumPoints(ps: seq<Point>): Point
    decreases |ps|
  {
    if ps == [] then Point(0.0, 0.0)
    else
      var s := SumPoints(ps[..|ps| - 1]);
      Point(s.x + ps[|ps| - 1].x, s.y + ps[|ps| - 1].y)
  }

  /** The point list the scanned tokens denote: the points as written, or, when a
      token began with 'm', point i is the sum of the written points 0..i; a
      relative list without any point raises IndexError at `points[0]`. */
  function PointsFromTokens(tokens: seq<string>, num: string -> Option<real>): Result<seq<Point>>
  {
    var scan :- ScanTokens(tokens, num);
    if !scan.relative then Ok(scan.points)
    else if scan.points == [] then Err(IndexError)
    else Ok(Absolute(scan.points))
  }

  /** Relative coordinates made absolute: point i is the sum of points 0..i. */
  function Absolute(raw: seq<Point>): (r: seq<Point>)
    ensures |r| == |raw|
  {
    seq(|raw|, i requires 0 <= i < |raw| => SumPoints(raw[..i + 1]))
  }

  /** Every space-separated token but the last, which repeats the first point. */
  function Body(value: string): seq<string> {
    var tokens := Split(value, ' ');
    tokens[..|tokens| - 1]
  }

  /** _parsePointList: scans the tokens once, then turns relative coordinates into
      absolute ones with a running sum, in place. */
  method ParsePointList(value: string, num: string -> Option<real>) returns (r: Result<seq<Point>>)
    ensures r == PointsFromTokens(Body(value), num)
  {
    var points: seq<Point> := [];
    var tokens := Split(value, ' ');
    var relative := false;
    var body := tokens[..|tokens| - 1];
    assert body == Body(value);
    for i := 0 to |body|
      invariant ScanTokens(body[..i], num) == Ok(Scan(points, relative))
    {
      var token := body[i];
      ScanStep(body, i, num, Scan(points, relative));
      if |token| == 0 {
        ScanPrefixFails(body, i + 1, num);
        return Err(IndexError);
      }
      if token[0] == 'm' {
        relative := true;
      }
      if ',' in token {
        var pt := Split(token, ',');
        SplitFindsSeparator(token, ',');
        var x := num(pt[0]);
        var y := num(pt[1]);
        if x.None? || y.None? {
          assert TokenPoint(token, num) == None;
          ScanPrefixFails(body, i + 1, num);
          return Err(ValueError);
        }
        assert TokenPoint(token, num) == Some(Point(x.value, y.value));
        points := points + [Point(x.value, y.value)];
      }
    }
    assert body[..|body|] == body;
    assert ScanTokens(Body(value), num) == Ok(Scan(points, relative));
    if relative {
      if |points| == 0 {
        return Err(IndexError);
      }
      points := RunningSums(points);
    }
    return Ok(points);
  }

  /** The relative branch of _parsePointList: each point from the second on has
      the previous, already absolute, point added to it, in place. */
  method RunningSums(raw: seq<Point>) returns (points: seq<Point>)
    requires |raw| > 0
    ensures points == Absolute(raw)
  {
    points := raw;
    var start := points[0];
    assert raw[..1][..0] == [];
    for i := 1 to |points|
      invariant |points| == |raw|
      invariant forall j :: 0 <= j < i ==> points[j] == SumPoints(raw[..j + 1])
      invariant forall j :: i <= j < |points| ==> points[j] == raw[j]
      invariant start == points[i - 1]
    {
      var x := points[i].x + start.x;
      var y := points[i].y + start.y;
      assert raw[..i + 1][..i] == raw[..i];
      points := points[i := Point(x, y)];
      start := Point(x, y);
    }
  }

  /** The last token plays no part: whatever follows the last space is ignored. */
  lemma LastTokenIgnored(value: string, last: string, num: string -> Option<real>)
    requires ' ' !in last
    ensures Body(value + " " + last) == Split(value, ' ')
    ensures PointsFromTokens(Body(value + " " + last), num) == PointsFromTokens(Split(value, ' '), num)
  {
    assert value + " " + last == value + [' '] + last;
    SplitAppend(value, last, ' ');
    SplitWithoutSeparator(last, ' ');
  }

  // ---------------------------------------------------------------- transforms

  /** float() of `tokens[0]`, ..., `tokens[count - 1]`, in that order: IndexError at
      the first missing token, ValueError at the first text float() rejects. */
  function ParseFloats(tokens: seq<string>, count: nat, num: string -> Option<real>): (r: Result<seq<real>>)
    ensures r.Ok? <==> count <= |tokens| && forall i :: 0 <= i < count ==> num(tokens[i]).Some?
    ensures r.Ok? ==> |r.value| == count && forall i :: 0 <= i < count ==> num(tokens[i]) == Some(r.value[i])
    decreases count
  {
    if count == 0 then Ok([])
    else
      var init :- ParseFloats(tokens, count - 1, num);
      if count - 1 >= |tokens| then Err(IndexError)
      else match num(tokens[count - 1])
        case None => Err(ValueError)
        case Some(v) => Ok(init + [v])
  }

  /** Which error ParseFloats raises: IndexError when the tokens run out
      before one of them fails to parse, ValueError at a token float() rejects. */
  lemma {:induction false} ParseFloatsErrors(tokens: seq<string>, count: nat, num: string -> Option<real>)
    ensures ParseFloats(tokens, count, num) == Err(IndexError) <==>
      count > |tokens| && forall i :: 0 <= i < |tokens| ==> num(tokens[i]).Some?
    ensures ParseFloats(tokens, count, num) == Err(ValueError) <==>
      exists i :: 0 <= i < count && i < |tokens| && num(tokens[i]).None?
    decreases count
  {
    if count > 0 {
      ParseFloatsErrors(tokens, count - 1, num);
    }
  }

  /** The text names none of the three transforms. */
  predicate NoTransformKeyword(v: string) {
    !Contains(v, "matrix") && !Contains(v, "translate") && !Contains(v, "scale")
  }

  /** The comma-separated numbers left after stripping `keyword()`'s letters. */
  function Arguments(v: string, chars: string): seq<string> {
    Split(Strip(v, chars), ',')
  }

  /** Every keyword the text names has arguments that read as numbers: six for
      matrix, two for translate, and for scale either two or, when the text
      does not split into two, the whole stripped text as one number. */
  predicate TransformParses(v: string, num: string -> Option<real>) {
    (Contains(v, "matrix") ==> ParseFloats(Arguments(v, "matrix()"), 6, num).Ok?) &&
    (Contains(v, "translate") ==> ParseFloats(Arguments(v, "translate()"), 2, num).Ok?) &&
    (Contains(v, "scale") ==>
      if |Arguments(v, "scale()")| == 2 then ParseFloats(Arguments(v, "scale()"), 2, num).Ok?
      else num(Strip(v, "scale()")).Some?)
  }

  /** _parseTransform: starts from the identity and, in the order matrix,
      translate, scale, overwrites what each keyword found in the text sets. */
  method ParseTransform(value: Option<string>, num: string -> Option<real>) returns (r: Result<Affine>)
    ensures value.None? ==> r == Ok(Identity)
    ensures value.Some? && NoTransformKeyword(value.value) ==> r == Ok(Identity)
    ensures value.Some? ==> (r.Ok? <==> TransformParses(value.value, num))
    // matrix(a,b,c,d,e,f) sets all six entries; b and c nothing later touches
    ensures value.Some? && Contains(value.value, "matrix") && |Arguments(value.value, "matrix()")| < 6 ==> r.Err?
    ensures r.Ok? && value.Some? && Contains(value.value, "matrix") ==>
      var m := Arguments(value.value, "matrix()");
      |m| >= 6 && num(m[1]) == Some(r.value.b) && num(m[2]) == Some(r.value.c) &&
      (!Contains(value.value, "scale") ==> num(m[0]) == Some(r.value.a) && num(m[3]) == Some(r.value.d)) &&
      (!Contains(value.value, "translate") ==> num(m[4]) == Some(r.value.e) && num(m[5]) == Some(r.value.f))
    ensures r.Ok? && value.Some? && !Contains(value.value, "matrix") ==> r.value.b == 0.0 && r.value.c == 0.0
    // translate(e,f) overwrites entries 4 and 5 only
    ensures value.Some? && Contains(value.value, "translate") && |Arguments(value.value, "translate()")| < 2 ==> r.Err?
    ensures r.Ok? && value.Some? && Contains(value.value, "translate") ==>
      var t := Arguments(value.value, "translate()");
      num(t[0]) == Some(r.value.e) && num(t[1]) == Some(r.value.f)
    ensures r.Ok? && value.Some? && !Contains(value.value, "matrix") && !Contains(value.value, "translate") ==>
      r.value.e == 0.0 && r.value.f == 0.0
    // scale(a,d) or scale(s) overwrites entries 0 and 3 only
    ensures r.Ok? && value.Some? && Contains(value.value, "scale") ==>
      var s := Arguments(value.value, "scale()");
      if |s| == 2 then num(s[0]) == Some(r.value.a) && num(s[1]) == Some(r.value.d)
      else num(Strip(value.value, "scale()")) == Some(r.value.a) && r.value.d == r.value.a
    ensures r.Ok? && value.Some? && !Contains(value.value, "matrix") && !Contains(value.value, "scale") ==>
      r.value.a == 1.0 && r.value.d == 1.0
  {
    var transform := Identity;
    if value.Some? && Contains(value.value, "matrix") {
      var pruned := Strip(value.value, "matrix()");
      var tokens := Split(pruned, ',');
      var m :- ParseFloats(tokens, 6, num);
      transform := Affine(m[0], m[1], m[2], m[3], m[4], m[5]);
    }
    if value.Some? && Contains(value.value, "translate") {
      var pruned := Strip(value.value, "translate()");
      var tokens := Split(pruned, ',');
      var t :- ParseFloats(tokens, 2, num);
      transform := transform.(e := t[0], f := t[1]);
    }
    if value.Some? && Contains(value.value, "scale") {
      var pruned := Strip(value.value, "scale()");
      var tokens := Split(pruned, ',');
      if |tokens| == 2 {
        var s :- ParseFloats(tokens, 2, num);
        transform := transform.(a := s[0], d := s[1]);
      } else {
        var s := num(pruned);
        if s.None? {
          return Err(ValueError);
        }
        transform := transform.(a := s.value, d := s.value);
      }
    }
    return Ok(transform);
  }
}
