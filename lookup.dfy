/**
 * Hover lookups over the SVG an external renderer produced: which problem
 * markers span a pixel column, and which value each data set shows at or
 * before that column. The DOM is abstracted into the attribute values the
 * lookups read; nothing here changes it.
 */
module Lookup {
  import opened Wrappers
  import opened PathToken

  // ---------------------------------------------------------------------
  // Problem markers
  // ---------------------------------------------------------------------

  /** A `[data-info]` rectangle: its `x` and `width` attributes and its JSON payload text. */
  datatype ProblemMarker = ProblemMarker(x: int, width: int, info: string)

  /** The marker's span strictly contains column `x`; both edges are outside. */
  predicate Covers(m: ProblemMarker, x: int)
  {
    x > m.x && m.x + m.width > x
  }

  /** Payloads of the markers covering `x`, in document order. */
  function ProblemsAt(markers: seq<ProblemMarker>, x: int): (r: seq<string>)
    ensures |r| <= |markers|
  {
    if |markers| == 0 then []
    else
      var last := markers[|markers| - 1];
      ProblemsAt(markers[..|markers| - 1], x) + (if Covers(last, x) then [last.info] else [])
  }

  /** The lookup distributes over a split of the document: results keep document order. */
  lemma {:induction false} ProblemsAtAppend(a: seq<ProblemMarker>, b: seq<ProblemMarker>, x: int)
    ensures ProblemsAt(a + b, x) == ProblemsAt(a, x) + ProblemsAt(b, x)
  {
    if |b| > 0 {
      assert (a + b)[..|a + b| - 1] == a + b[..|b| - 1];
      ProblemsAtAppend(a, b[..|b| - 1], x);
    } else {
      assert a + b == a;
    }
  }

  /** A payload is reported exactly when some marker carrying it covers `x`. */
  lemma {:induction false} ProblemsAtMembership(markers: seq<ProblemMarker>, x: int, info: string)
    ensures info in ProblemsAt(markers, x) <==>
            exists k :: 0 <= k < |markers| && Covers(markers[k], x) && markers[k].info == info
  {
    if |markers| > 0 {
      var init := markers[..|markers| - 1];
      ProblemsAtMembership(init, x, info);
      if info in ProblemsAt(markers, x) && info !in ProblemsAt(init, x) {
        assert Covers(markers[|markers| - 1], x) && markers[|markers| - 1].info == info;
      }
      if exists k :: 0 <= k < |markers| && Covers(markers[k], x) && markers[k].info == info {
        var k :| 0 <= k < |markers| && Covers(markers[k], x) && markers[k].info == info;
        if k < |markers| - 1 {
          assert init[k] == markers[k];
        }
      }
    }
  }

  /** One result per covering marker, so never more results than markers. */
  lemma {:induction false} ProblemsAtBound(markers: seq<ProblemMarker>, x: int)
    ensures |ProblemsAt(markers, x)| <= |markers|
    ensures |ProblemsAt(markers, x)| == |markers| <==> forall k :: 0 <= k < |markers| ==> Covers(markers[k], x)
  {
    if |markers| > 0 {
      var init := markers[..|markers| - 1];
      ProblemsAtBound(init, x);
      if forall k :: 0 <= k < |markers| ==> Covers(markers[k], x) {
        assert forall k :: 0 <= k < |init| ==> Covers(init[k], x) by {
          forall k | 0 <= k < |init| ensures Covers(init[k], x) { assert init[k] == markers[k]; }
        }
      }
      if |ProblemsAt(markers, x)| == |markers| {
        forall k | 0 <= k < |markers| ensures Covers(markers[k], x) {
          if k < |init| { assert init[k] == markers[k]; }
        }
      }
    }
  }

  /** findProblems: scans the markers in document order and collects those covering `x`. */
  method FindProblems(markers: seq<ProblemMarker>, x: int) returns (problems: seq<string>)
    ensures problems == ProblemsAt(markers, x)
    ensures forall info :: info in problems <==>
              exists k :: 0 <= k < |markers| && Covers(markers[k], x) && markers[k].info == info
  {
    problems := [];
    for i := 0 to |markers|
      invariant problems == ProblemsAt(markers[..i], x)
    {
      assert markers[..i + 1][..i] == markers[..i];
      var problemStart, problemWidth := markers[i].x, markers[i].width;
      if x > problemStart && problemStart + problemWidth > x {
        problems := problems + [markers[i].info];
      }
    }
    assert markers[..|markers|] == markers;
    forall info ensures info in problems <==>
        exists k :: 0 <= k < |markers| && Covers(markers[k], x) && markers[k].info == info
    {
      ProblemsAtMembership(markers, x, info);
    }
  }

  // ---------------------------------------------------------------------
  // Data sets
  // ---------------------------------------------------------------------

  /** A `circle` of a point series: its `cx` and `cy` attributes and its `label` attribute (None when absent). */
  datatype Circle = Circle(cx: int, cy: int, labelAttr: Option<string>)

  /**
   * One `.svg-graph-line` path of a line or staircase series: its `d`
   * attribute split at spaces and its `data-label` attribute split at commas.
   */
  datatype PathNode = PathNode(commands: seq<string>, labels: seq<string>)

  /**
   * What a `[data-set]` node holds, by the value of that attribute. For
   * points, `lastCx` is the `cx` of the node's last child element.
   */
  datatype Series =
    | Points(circles: seq<Circle>, lastCx: int)
    | Line(paths: seq<PathNode>)
    | Staircase(paths: seq<PathNode>)
    | Other

  /** A data set node together with the hover tolerance, in pixels, its markers have. */
  datatype DataSet = DataSet(series: Series, tolerance: int)

  /** The value text found: a label, JavaScript's `null` (nothing found), or `undefined` (index past the labels). */
  datatype Label = Null | Undefined | Text(text: string)

  /** Pixel position and value text found for one data set. */
  datatype Value = Value(x: int, y: int, v: Label)

  /** What a data set reports when nothing lies at or before the column. */
  const NoValue := Value(-10, -10, Null)

  function Min(a: int, b: int): int { if a <= b then a else b }

  function Abs(a: int): nat { if a < 0 then -a else a }

  /** Index of the last of the first `n` circles whose `cx` is at most `t`. */
  function LastCircle(circles: seq<Circle>, n: nat, t: int): (r: Option<nat>)
    requires n <= |circles|
    ensures r.Some? ==> r.value < n && circles[r.value].cx <= t
    ensures r.Some? ==> forall j :: r.value < j < n ==> circles[j].cx > t
    ensures r.None? ==> forall j :: 0 <= j < n ==> circles[j].cx > t
  {
    if n == 0 then None
    else if circles[n - 1].cx <= t then Some(n - 1)
    else LastCircle(circles, n - 1, t)
  }

  /** Every path command read as a point, in order. */
  function ParsedTokens(tokens: seq<string>): (r: seq<Option<Coord>>)
    ensures |r| == |tokens|
  {
    if |tokens| == 0 then [] else ParsedTokens(tokens[..|tokens| - 1]) + [ParseToken(tokens[|tokens| - 1])]
  }

  lemma {:induction false} ParsedTokensAt(tokens: seq<string>, i: nat)
    requires i < |tokens|
    ensures ParsedTokens(tokens)[i] == ParseToken(tokens[i])
  {
    if i < |tokens| - 1 {
      ParsedTokensAt(tokens[..|tokens| - 1], i);
    }
  }

  /** The command parsed to a point whose x is at or before column `x`. */
  predicate Matches(point: Option<Coord>, x: int)
  {
    point.Some? && point.value.x <= x
  }

  /** Index of the last of the first `n` parsed commands that matches column `x`. */
  function LastToken(points: seq<Option<Coord>>, n: nat, x: int): (r: Option<nat>)
    requires n <= |points|
    ensures r.Some? ==> r.value < n && Matches(points[r.value], x)
    ensures r.Some? ==> forall j :: r.value < j < n ==> !Matches(points[j], x)
    ensures r.None? ==> forall j :: 0 <= j < n ==> !Matches(points[j], x)
  {
    if n == 0 then None
    else if Matches(points[n - 1], x) then Some(n - 1)
    else LastToken(points, n - 1, x)
  }

  /** All path commands of a series, path after path (the joined `d` attributes split at spaces). */
  function Commands(paths: seq<PathNode>): seq<string>
  {
    if |paths| == 0 then [] else Commands(paths[..|paths| - 1]) + paths[|paths| - 1].commands
  }

  /** All labels of a series, path after path (the joined `data-label` attributes split at commas). */
  function Labels(paths: seq<PathNode>): seq<string>
  {
    if |paths| == 0 then [] else Labels(paths[..|paths| - 1]) + paths[|paths| - 1].labels
  }

  function LabelAt(labels: seq<string>, i: nat): Label
  {
    if i < |labels| then Text(labels[i]) else Undefined
  }

  /**
   * The label index of path command `index`: the command index itself for a
   * line; `ceil(index / 2)` for a staircase, whose every value is drawn by
   * two commands.
   */
  function LabelIndex(index: nat, staircase: bool): nat
  {
    if staircase then (index + 1) / 2 else index
  }

  function CircleValue(c: Circle): Value
  {
    Value(c.cx, c.cy, if c.labelAttr.Some? then Text(c.labelAttr.value) else Null)
  }

  function PathValue(tokens: seq<string>, labels: seq<string>, x: int, staircase: bool): Value
  {
    var points := ParsedTokens(tokens);
    match LastToken(points, |points|, x)
    case None => NoValue
    case Some(i) =>
      var c := points[i].value;
      Value(c.x, c.y, LabelAt(labels, LabelIndex(i, staircase)))
  }

  /** The value a data set shows for column `x`. */
  function SeriesValue(s: Series, x: int): Value
  {
    match s
    case Points(circles, lastCx) =>
      (match LastCircle(circles, |circles|, Min(x, lastCx))
       case None => NoValue
       case Some(k) => CircleValue(circles[k]))
    case Line(paths) => PathValue(Commands(paths), Labels(paths), x, false)
    case Staircase(paths) => PathValue(Commands(paths), Labels(paths), x, true)
    case Other => NoValue
  }

  /**
   * The points branch of findValues: collect every circle at or before
   * `min(x, lastCx)` in document order and report the last one collected.
   */
  method PointLookup(circles: seq<Circle>, lastCx: int, x: int) returns (v: Value)
    ensures v == SeriesValue(Points(circles, lastCx), x)
    ensures v != NoValue ==> exists k :: 0 <= k < |circles| && v == CircleValue(circles[k])
                                       && circles[k].cx <= Min(x, lastCx)
                                       && forall j :: k < j < |circles| ==> circles[j].cx > Min(x, lastCx)
  {
    var testX := Min(x, lastCx);
    var points: seq<Circle> := [];
    for c := 0 to |circles|
      invariant |points| > 0 <==> LastCircle(circles, c, testX).Some?
      invariant |points| > 0 ==> points[|points| - 1] == circles[LastCircle(circles, c, testX).value]
    {
      if testX >= circles[c].cx {
        points := points + [circles[c]];
      }
    }
    v := NoValue;
    if |points| > 0 {
      v := CircleValue(points[|points| - 1]);
    }
  }

  /**
   * The line and staircase branch of findValues: join the commands and
   * labels of all paths, then scan the commands backwards for the first one
   * at or before `x`. The commands are read as points before the scan;
   * reading has no side effects, so this finds the same command.
   */
  method PathLookup(paths: seq<PathNode>, x: int, staircase: bool) returns (v: Value)
    ensures v == PathValue(Commands(paths), Labels(paths), x, staircase)
    ensures v != NoValue ==> exists i :: 0 <= i < |Commands(paths)| && Matches(ParsedTokens(Commands(paths))[i], x)
                                       && v.v == LabelAt(Labels(paths), LabelIndex(i, staircase))
                                       && forall j :: i < j < |Commands(paths)| ==> !Matches(ParsedTokens(Commands(paths))[j], x)
  {
    var direction: seq<string> := [];
    var labelList: seq<string> := [];
    for index := 0 to |paths|
      invariant direction == Commands(paths[..index])
      invariant labelList == Labels(paths[..index])
    {
      assert paths[..index + 1][..index] == paths[..index];
      direction := direction + paths[index].commands;
      labelList := labelList + paths[index].labels;
    }
    assert paths[..|paths|] == paths;
    v := NoValue;
    var points := ParsedTokens(direction);
    var index := |direction|;
    while index > 0
      invariant 0 <= index <= |direction|
      invariant LastToken(points, |points|, x) == LastToken(points, index, x)
      invariant v == NoValue
    {
      index := index - 1;
      var point := points[index];
      if point.Some? && x >= point.value.x {
        v := Value(point.value.x, point.value.y, LabelAt(labelList, LabelIndex(index, staircase)));
        assert LastToken(points, |points|, x) == Some(index);
        break;
      }
    }
    if v != NoValue {
      var i := LastToken(points, |points|, x).value;
      assert Matches(points[i], x);
    }
  }

  /** findValues: one value per data set node, in node order. */
  method FindValues(sets: seq<DataSet>, x: int) returns (values: seq<Value>)
    ensures |values| == |sets|
    ensures forall i :: 0 <= i < |sets| ==> values[i] == SeriesValue(sets[i].series, x)
  {
    values := [];
    for i := 0 to |sets|
      invariant |values| == i
      invariant forall k :: 0 <= k < i ==> values[k] == SeriesValue(sets[k].series, x)
    {
      var found := NoValue;
      match sets[i].series {
        case Points(circles, lastCx) =>
          found := PointLookup(circles, lastCx, x);
        case Line(paths) =>
          found := PathLookup(paths, x, false);
        case Staircase(paths) =>
          found := PathLookup(paths, x, true);
        case Other =>
      }
      values := values + [found];
    }
  }

  /**
   * When the commands' x-coordinates never decrease from left to right (a
   * line, or a staircase whose vertical steps repeat x), the backward scan
   * finds the largest x at or before the column.
   */
  lemma LineFindsLargestWhenSorted(points: seq<Option<Coord>>, x: int)
    requires forall j :: 0 <= j < |points| ==> points[j].Some?
    requires forall i, j :: 0 <= i < j < |points| ==> points[i].value.x <= points[j].value.x
    ensures LastToken(points, |points|, x).None? <==> (|points| == 0 || points[0].value.x > x)
    ensures LastToken(points, |points|, x).Some? ==>
              forall j :: 0 <= j < |points| && points[j].value.x <= x ==>
                points[j].value.x <= points[LastToken(points, |points|, x).value].value.x
  {
  }
}
