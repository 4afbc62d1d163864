/**
 * What the hover hint shows: the problems listed under the graph canvas or
 * the values of the data sets at the pointer column, capped at the
 * configured number of rows with a "Displaying N of M found" footer.
 */
module Hint {
  import opened Wrappers
  import opened Lookup

  /** The footer "Displaying `shown` of `found` found". */
  datatype Footer = Footer(shown: int, found: nat)

  /** A value row: the data set it belongs to and the value text printed after its metric name. */
  datatype Row = Row(dataSet: nat, v: Label)

  /** The table or list put into the hint box. */
  datatype Content =
    | ProblemTable(problems: seq<string>, footer: Option<Footer>)
    | ValueList(rows: seq<Row>, footer: Option<Footer>)

  /** Drawing rectangle of the graph, in pixels relative to the graph element. */
  datatype Dims = Dims(x: int, y: int, w: int, h: int)

  /**
   * The pointer of a mouse event: `offsetX`/`offsetY` as the browser reports
   * them, and `graphX`, the client x minus the graph element's left offset.
   */
  datatype Pointer = Pointer(offsetX: int, offsetY: int, graphX: int)

  /** The SVG nodes the hint reads: problem markers and data sets, in document order. */
  datatype Svg = Svg(markers: seq<ProblemMarker>, sets: seq<DataSet>)

  /** Height of the problem band under the graph canvas. */
  const ProblemBandHeight := 15

  /** How many of `count` items fit under a cap of `maxRows` rows. */
  function Shown(count: nat, maxRows: int): nat
  {
    if maxRows <= 0 then 0 else if count <= maxRows then count else maxRows
  }

  function MaybeFooter(count: nat, maxRows: int): Option<Footer>
  {
    if count > maxRows then Some(Footer(maxRows, count)) else None
  }

  // ---------------------------------------------------------------------
  // Problem hint
  // ---------------------------------------------------------------------

  /** The problem table: the first `maxRows` problems found, then the footer when some were cut. */
  function ProblemRows(found: seq<string>, maxRows: int): Content
  {
    ProblemTable(found[..Shown(|found|, maxRows)], MaybeFooter(|found|, maxRows))
  }

  /** A problem hint exists only when some problem was found. */
  function ProblemHint(found: seq<string>, maxRows: int): Option<Content>
  {
    if |found| == 0 then None else Some(ProblemRows(found, maxRows))
  }

  /** The `forEach` that fills the problem table row by row. */
  method BuildProblemRows(found: seq<string>, maxRows: int) returns (c: Content)
    requires |found| > 0
    ensures c == ProblemRows(found, maxRows)
    ensures c.ProblemTable? && |c.problems| <= |found| && c.problems <= found
    ensures maxRows >= 0 ==> |c.problems| <= maxRows
    ensures |found| <= maxRows ==> c.problems == found
    ensures c.footer.Some? <==> |found| > maxRows
    ensures c.footer.Some? ==> c.footer.value == Footer(maxRows, |found|)
  {
    var rows: seq<string> := [];
    var foot: Option<Footer> := None;
    for i := 0 to |found|
      invariant rows == found[..Shown(i, maxRows)]
      invariant foot.Some? <==> i > 0 && i > maxRows
      invariant foot.Some? ==> foot == Some(Footer(maxRows, |found|))
    {
      if i >= maxRows {
        foot := Some(Footer(maxRows, |found|));
        continue;
      }
      rows := rows + [found[i]];
    }
    c := ProblemTable(rows, foot);
  }

  // ---------------------------------------------------------------------
  // Value hint
  // ---------------------------------------------------------------------

  /** The value has a text and the pointer lies strictly inside the tolerance box around it. */
  predicate Near(v: Value, tolerance: int, ox: int, oy: int)
    ensures Near(v, tolerance, ox, oy) <==>
              v.v != Null && Abs(ox - v.x) < tolerance && Abs(oy - v.y) < tolerance
  {
    v.v != Null
    && v.x + tolerance > ox && ox > v.x - tolerance
    && v.y + tolerance > oy && oy > v.y - tolerance
  }

  /** The first of the first `n` values the pointer is near: the one value the hint then singles out. */
  function FirstNear(values: seq<Value>, sets: seq<DataSet>, ox: int, oy: int, n: nat): (r: Option<nat>)
    requires |values| == |sets| && n <= |values|
    ensures r.Some? ==> r.value < n && Near(values[r.value], sets[r.value].tolerance, ox, oy)
    ensures r.Some? ==> forall j :: 0 <= j < r.value ==> !Near(values[j], sets[j].tolerance, ox, oy)
    ensures r.None? ==> forall j :: 0 <= j < n ==> !Near(values[j], sets[j].tolerance, ox, oy)
  {
    if n == 0 then None
    else
      var before := FirstNear(values, sets, ox, oy, n - 1);
      if before.Some? then before
      else if Near(values[n - 1], sets[n - 1].tolerance, ox, oy) then Some(n - 1)
      else None
  }

  /**
   * Rows for the first `n` values: a value is listed when nothing is singled
   * out or when it is the one singled out, and its index is below the cap.
   */
  function Rows(values: seq<Value>, pick: Option<nat>, maxRows: int, n: nat): seq<Row>
    requires n <= |values|
  {
    if n == 0 then []
    else
      var i := n - 1;
      Rows(values, pick, maxRows, i)
      + (if (pick.None? || pick == Some(i)) && maxRows > i then [Row(i, values[i].v)] else [])
  }

  predicate AnyValue(values: seq<Value>)
  {
    exists i :: 0 <= i < |values| && values[i].v != Null
  }

  /**
   * The value list: none while the hint is frozen or when no data set has a
   * value; otherwise the rows for the value singled out (or for all values),
   * with the footer when more data sets exist than the cap.
   */
  function ValueHint(values: seq<Value>, sets: seq<DataSet>, ox: int, oy: int, maxRows: int, frozen: bool): Option<Content>
    requires |values| == |sets|
  {
    if frozen || !AnyValue(values) then None
    else
      Some(ValueList(Rows(values, FirstNear(values, sets, ox, oy, |values|), maxRows, |values|),
                     MaybeFooter(|values|, maxRows)))
  }

  /** With nothing singled out, the rows are the first values up to the cap, in data set order. */
  lemma {:induction false} RowsUnpicked(values: seq<Value>, maxRows: int, n: nat)
    requires n <= |values|
    ensures |Rows(values, None, maxRows, n)| == Shown(n, maxRows)
    ensures forall k :: 0 <= k < Shown(n, maxRows) ==> Rows(values, None, maxRows, n)[k] == Row(k, values[k].v)
  {
    if n > 0 {
      RowsUnpicked(values, maxRows, n - 1);
    }
  }

  /** With value `p` singled out, it is the only row, and only when its index is below the cap. */
  lemma {:induction false} RowsPicked(values: seq<Value>, p: nat, maxRows: int, n: nat)
    requires n <= |values|
    ensures Rows(values, Some(p), maxRows, n) == if p < n && p < maxRows then [Row(p, values[p].v)] else []
  {
    if n > 0 {
      RowsPicked(values, p, maxRows, n - 1);
    }
  }

  /** The two `forEach` passes over the values: find the singled-out value, then fill the list. */
  method BuildValueHint(values: seq<Value>, sets: seq<DataSet>, ox: int, oy: int, maxRows: int, frozen: bool)
    returns (c: Option<Content>)
    requires |values| == |sets|
    ensures c == ValueHint(values, sets, ox, oy, maxRows, frozen)
  {
    var showHint := false;
    var xyPoint: Option<nat> := None;
    if !frozen {
      for i := 0 to |values|
        invariant showHint <==> exists j :: 0 <= j < i && values[j].v != Null
        invariant xyPoint == FirstNear(values, sets, ox, oy, i)
      {
        if !showHint && values[i].v != Null {
          showHint := true;
        }
        if xyPoint.None? && Near(values[i], sets[i].tolerance, ox, oy) {
          xyPoint := Some(i);
        }
      }
    }
    var rows: seq<Row> := [];
    for i := 0 to |values|
      invariant rows == (if showHint then Rows(values, xyPoint, maxRows, i) else [])
    {
      if xyPoint.None? || xyPoint == Some(i) {
        if showHint && maxRows > i {
          rows := rows + [Row(i, values[i].v)];
        }
      }
    }
    var foot := MaybeFooter(|values|, maxRows);
    c := if showHint then Some(ValueList(rows, foot)) else None;
  }

  /** The values every data set shows at column `x`, in node order. */
  function ValuesAt(sets: seq<DataSet>, x: int): (r: seq<Value>)
    ensures |r| == |sets|
  {
    seq(|sets|, i requires 0 <= i < |sets| => SeriesValue(sets[i].series, x))
  }

  // ---------------------------------------------------------------------
  // Which hint the pointer calls for
  // ---------------------------------------------------------------------

  /**
   * The hint content for a pointer while no selection is being dragged: the
   * problem table in the band under the canvas (when problems are shown and
   * the hint is not frozen), else the value list over the canvas, else none.
   */
  function HintAt(d: Dims, showProblems: bool, maxRows: int, frozen: bool, svg: Svg, p: Pointer): (c: Option<Content>)
    ensures frozen ==> c.None?
    ensures c.Some? ==> d.x <= p.graphX <= d.x + d.w
    ensures match c
            case Some(ProblemTable(_, _)) =>
              showProblems && d.y + d.h <= p.offsetY <= d.y + d.h + ProblemBandHeight
              && ProblemsAt(svg.markers, p.offsetX) != []
            case Some(ValueList(_, _)) => d.y <= p.offsetY <= d.y + d.h
            case None => true
    ensures (!frozen && d.x <= p.graphX <= d.x + d.w && showProblems
             && d.y + d.h <= p.offsetY <= d.y + d.h + ProblemBandHeight
             && ProblemsAt(svg.markers, p.offsetX) != []) ==>
              c == Some(ProblemRows(ProblemsAt(svg.markers, p.offsetX), maxRows))
    ensures (!frozen && d.x <= p.graphX <= d.x + d.w && d.y <= p.offsetY <= d.y + d.h
             && !(showProblems && d.y + d.h <= p.offsetY <= d.y + d.h + ProblemBandHeight)
             && AnyValue(ValuesAt(svg.sets, p.graphX))) ==>
              c.Some? && c.value.ValueList?
  {
    var inx := d.x <= p.graphX <= d.x + d.w;
    if showProblems && !frozen && inx && d.y + d.h <= p.offsetY <= d.y + d.h + ProblemBandHeight then
      ProblemHint(ProblemsAt(svg.markers, p.offsetX), maxRows)
    else if inx && d.y <= p.offsetY <= d.y + d.h then
      ValueHint(ValuesAt(svg.sets, p.graphX), svg.sets, p.offsetX, p.offsetY, maxRows, frozen)
    else None
  }

  /**
   * Neither hint ever lists more rows than the cap allows. The problem table
   * has its footer exactly when more problems were found than the cap; the
   * value list has it exactly when there are more data sets than the cap,
   * even when a single value is singled out.
   */
  lemma HintRowCap(d: Dims, showProblems: bool, maxRows: int, frozen: bool, svg: Svg, p: Pointer)
    requires maxRows >= 0
    ensures match HintAt(d, showProblems, maxRows, frozen, svg, p)
            case Some(ProblemTable(ps, foot)) =>
              |ps| <= maxRows && (foot.Some? <==> |ProblemsAt(svg.markers, p.offsetX)| > maxRows)
            case Some(ValueList(rows, foot)) =>
              |rows| <= maxRows && (foot.Some? <==> |svg.sets| > maxRows)
            case None => true
  {
    var c := HintAt(d, showProblems, maxRows, frozen, svg, p);
    if c.Some? && c.value.ValueList? {
      var values := ValuesAt(svg.sets, p.graphX);
      var pick := FirstNear(values, svg.sets, p.offsetX, p.offsetY, |values|);
      if pick.None? {
        RowsUnpicked(values, maxRows, |values|);
      } else {
        RowsPicked(values, pick.value, maxRows, |values|);
      }
    }
  }
}
