/**
 * Per-graph interaction state: the selection box ("SBox") dragged to pick
 * a time range, and the hover hint that a click can freeze in place. Event
 * handlers are methods; which handlers are currently bound is part of the
 * state, because binding decides which handler runs on the next event.
 */
module SvgGraph {
  import opened Wrappers
  import opened Lookup
  import opened Hint

  function Max(a: int, b: int): int { if a >= b then a else b }

  /** Key code of the Escape key, which cancels a drag. */
  const EscapeKey := 27

  /** Payload of the "timeselector.rangeoffset" publication, in seconds. */
  datatype RangeOffsets = RangeOffsets(fromOffset: int, toOffset: int)

  /**
   * What endSBoxDrag publishes for a drag from pixel `start` to pixel `end`
   * of a drawing area `dimW` pixels wide, at `spp` seconds per pixel: the
   * seconds cut off on the left and on the right, provided the selection
   * lasts longer than `minPeriod` and cuts off something.
   */
  function Publication(start: int, end: int, dimW: int, spp: nat, minPeriod: int): (r: Option<RangeOffsets>)
    ensures r.Some? ==> Abs(end - start) * spp > minPeriod
    ensures r.Some? ==> r.value.fromOffset + Abs(end - start) * spp + r.value.toOffset == dimW * spp
  {
    var seconds := Abs(end - start) * spp;
    var fromOffset := Min(start, end) * spp;
    var toOffset := (dimW - Max(start, end)) * spp;
    if seconds > minPeriod && (fromOffset > 0 || toOffset > 0) then Some(RangeOffsets(fromOffset, toOffset))
    else None
  }

  /**
   * A range is published exactly when the selection lasts longer than the
   * minimum period and does not reach both edges of the drawing area; in
   * particular a selection of the whole width is never published.
   */
  lemma PublishedExactly(start: int, end: int, dimW: int, spp: nat, minPeriod: int)
    requires spp > 0
    ensures Publication(start, end, dimW, spp, minPeriod).Some? <==>
              Abs(end - start) * spp > minPeriod && (Min(start, end) > 0 || Max(start, end) < dimW)
  {
  }

  /**
   * The right offset is never negative while both ends lie at or left of
   * the right edge; the left offset is negative exactly when an end lies
   * left of the drawing area.
   */
  lemma PublishedOffsetSigns(start: int, end: int, dimW: int, spp: nat, minPeriod: int)
    requires spp > 0
    ensures start <= dimW && end <= dimW ==>
              match Publication(start, end, dimW, spp, minPeriod)
              case Some(o) => o.toOffset >= 0
              case None => true
    ensures match Publication(start, end, dimW, spp, minPeriod)
            case Some(o) => o.fromOffset < 0 <==> Min(start, end) < 0
            case None => true
  {
    MulSign(Min(start, end), spp);
    MulSign(dimW - Max(start, end), spp);
  }

  /** A product with a positive factor has the sign of the other factor. */
  lemma {:induction false} MulSign(a: int, b: int)
    requires b > 0
    ensures a * b < 0 <==> a < 0
    decreases Abs(a)
  {
    if a > 0 {
      MulSign(a - 1, b);
      assert a * b == (a - 1) * b + b;
    } else if a < 0 {
      MulSign(a + 1, b);
      assert a * b == (a + 1) * b - b;
    }
  }

  /** Without seconds per pixel, or for a zero-width or too short drag, nothing is published. */
  lemma NothingPublishedWhenTooShort(start: int, end: int, dimW: int, spp: nat, minPeriod: int)
    requires minPeriod >= 0
    requires spp == 0 || start == end || Abs(end - start) * spp <= minPeriod
    ensures Publication(start, end, dimW, spp, minPeriod).None?
  {
  }

  /**
   * The left offset is not clamped: a drag released left of the drawing
   * area publishes a negative left offset.
   */
  lemma ReleasedLeftOfArea(start: int, end: int, dimW: int, spp: nat, minPeriod: int)
    requires 0 <= start < dimW && end < 0 && spp > 0
    requires (start - end) * spp > minPeriod
    ensures Publication(start, end, dimW, spp, minPeriod) == Some(RangeOffsets(end * spp, (dimW - start) * spp))
    ensures end * spp < 0
  {
  }

  /** The rectangle and duration label drawn while dragging from `start` to `end`. */
  datatype SelectionBox = SelectionBox(x: int, y: int, width: nat, height: int, seconds: nat, belowMinimum: bool)

  function DragBox(start: int, end: int, dimX: int, dimY: int, dimH: int, spp: nat, minPeriod: int): (b: SelectionBox)
    ensures (b.x - dimX == start && b.x - dimX + b.width == end) || (b.x - dimX == end && b.x - dimX + b.width == start)
    ensures b.y == dimY && b.height == dimH
    ensures b.seconds == b.width * spp && (b.belowMinimum <==> b.seconds < minPeriod)
  {
    var seconds := Abs(end - start) * spp;
    SelectionBox(Min(start, end) + dimX, dimY, Abs(end - start), dimH, seconds, seconds < minPeriod)
  }

  /**
   * A drag lasting exactly the minimum period carries no "[min 1m]" warning
   * while drawn, yet releasing it publishes nothing.
   */
  lemma ExactMinimumNeitherWarnsNorPublishes(start: int, end: int, dimX: int, dimY: int, dimW: int, dimH: int,
                                             spp: nat, minPeriod: int)
    requires Abs(end - start) * spp == minPeriod
    ensures !DragBox(start, end, dimX, dimY, dimH, spp, minPeriod).belowMinimum
    ensures Publication(start, end, dimW, spp, minPeriod).None?
  {
  }

  /** Initialisation options; None stands for an option not given, which takes its default. */
  datatype Options = Options(dims: Dims, spp: nat, sbox: Option<bool>, showProblems: Option<bool>,
                             hintMaxRows: Option<int>, minPeriod: Option<int>)

  function OrDefault<T>(o: Option<T>, default: T): T
  {
    if o.Some? then o.value else default
  }

  class Graph {
    // Configuration, fixed at initialisation.
    const dimX: int
    const dimY: int
    const dimW: int
    const dimH: int
    /** Seconds per pixel; 0 when not configured (the browser then computes with null, i.e. 0). */
    const spp: nat
    const sbox: bool
    const showProblems: bool
    const hintMaxRows: int
    const minPeriod: int

    // Selection box.
    var start: int
    var end: int
    var boxing: bool
    /** The mouse move and mouse up handlers of a drag are bound. */
    var tracking: bool

    // Hover hint.
    var hasHintbox: bool
    var isHintBoxFrozen: bool
    /** A mouse up freezes the hint (makeHintboxStatic is bound). */
    var freezeOnClick: bool
    /** A mouse up relocates the frozen hint (hintboxSilentMode is bound). */
    var relocateOnClick: bool
    /** Hint boxes still on screen that the graph no longer keeps track of. */
    var strayBoxes: nat

    ghost predicate Valid()
      reads this
    {
      SBoxValid() && HintValid()
    }

    /** A drag in progress has its start, and a box its end, inside the drawing area. */
    ghost predicate SBoxValid()
      reads this
    {
      (boxing ==> tracking && 0 < end <= dimW)
      && (tracking ==> 0 <= start <= dimW)
    }

    /** Only an existing hint can be frozen, and only an unfrozen one is frozen by a click. */
    ghost predicate HintValid()
      reads this
    {
      (isHintBoxFrozen ==> hasHintbox)
      && (freezeOnClick ==> hasHintbox && !isHintBoxFrozen)
    }

    function Drawing(): Dims
    {
      Dims(dimX, dimY, dimW, dimH)
    }

    function SBoxState(): (int, int, bool, bool)
      reads this
    {
      (start, end, boxing, tracking)
    }

    function HintState(): (bool, bool, bool, bool)
      reads this
    {
      (hasHintbox, isHintBoxFrozen, freezeOnClick, relocateOnClick)
    }

    /** init: options merged over the defaults; no drag, no hint. */
    constructor (options: Options)
      ensures Valid()
      ensures Drawing() == options.dims && spp == options.spp
      ensures sbox == OrDefault(options.sbox, false)
      ensures showProblems == OrDefault(options.showProblems, true)
      ensures hintMaxRows == OrDefault(options.hintMaxRows, 20)
      ensures minPeriod == OrDefault(options.minPeriod, 60)
      ensures !boxing && !tracking
      ensures HintState() == (false, false, false, false) && strayBoxes == 0
    {
      dimX, dimY, dimW, dimH := options.dims.x, options.dims.y, options.dims.w, options.dims.h;
      spp := options.spp;
      sbox := OrDefault(options.sbox, false);
      showProblems := OrDefault(options.showProblems, true);
      hintMaxRows := OrDefault(options.hintMaxRows, 20);
      minPeriod := OrDefault(options.minPeriod, 60);
      start, end := 0, 0;
      boxing, tracking := false, false;
      hasHintbox, isHintBoxFrozen, freezeOnClick, relocateOnClick := false, false, false, false;
      strayBoxes := 0;
    }

    /** destroySBox: cancel the drag and unbind its handlers. */
    method DestroySBox()
      requires HintValid()
      modifies this
      ensures strayBoxes == old(strayBoxes)
      ensures Valid()
      ensures !boxing && !tracking
      ensures start == old(start) && end == old(end)
      ensures HintState() == old(HintState())
    {
      boxing := false;
      tracking := false;
    }

    /**
     * The Escape handler. Once bound by a mouse down it stays bound (its
     * removal does not match it), so it may run with no drag in progress,
     * where destroySBox changes nothing.
     */
    method SBoxKeyDown(keyCode: int)
      requires Valid()
      modifies this
      ensures strayBoxes == old(strayBoxes)
      ensures Valid()
      ensures keyCode == EscapeKey ==> !boxing && !tracking && start == old(start) && end == old(end)
      ensures keyCode == EscapeKey && !old(tracking) ==> SBoxState() == old(SBoxState())
      ensures keyCode != EscapeKey ==> SBoxState() == old(SBoxState())
      ensures HintState() == old(HintState())
    {
      if keyCode == EscapeKey {
        DestroySBox();
      }
    }

    /** destroyHintbox: remove the hint, unless it is frozen. */
    method DestroyHintbox()
      requires Valid()
      modifies this
      ensures strayBoxes == old(strayBoxes)
      ensures Valid()
      ensures SBoxState() == old(SBoxState())
      ensures isHintBoxFrozen == old(isHintBoxFrozen) && relocateOnClick == old(relocateOnClick)
      ensures if old(hasHintbox) && !old(isHintBoxFrozen) then !hasHintbox && !freezeOnClick
              else hasHintbox == old(hasHintbox) && freezeOnClick == old(freezeOnClick)
    {
      if hasHintbox && !isHintBoxFrozen {
        freezeOnClick := false;
        hasHintbox := false;
      }
    }

    /**
     * startSBoxDrag: a mouse down inside the drawing area (edges included)
     * records where the drag starts and binds the drag handlers.
     */
    method StartSBoxDrag(offsetX: int, offsetY: int)
      requires Valid() && sbox
      modifies this
      ensures strayBoxes == old(strayBoxes)
      ensures Valid()
      ensures if dimX <= offsetX <= dimX + dimW && dimY <= offsetY <= dimY + dimH
              then tracking && start == offsetX - dimX && 0 <= start <= dimW
                   && boxing == old(boxing) && end == old(end) && HintState() == old(HintState())
              else SBoxState() == old(SBoxState()) && HintState() == old(HintState())
    {
      if dimX <= offsetX && offsetX <= dimX + dimW && dimY <= offsetY && offsetY <= dimY + dimH {
        tracking := true;
        start := offsetX - dimX;
      }
    }

    /**
     * moveSBoxMouse: while the pointer is right of the area's left edge and
     * not past its right edge, move the end of the selection there. Coming
     * back to the start cancels the drag; anything else starts boxing, which
     * unfreezes and removes the hint, and draws the box.
     */
    method MoveSBoxMouse(offsetX: int) returns (drawn: Option<SelectionBox>)
      requires Valid() && tracking
      modifies this
      ensures strayBoxes == old(strayBoxes)
      ensures Valid()
      ensures start == old(start)
      ensures !(0 < offsetX - dimX <= dimW) ==>
                SBoxState() == old(SBoxState()) && HintState() == old(HintState()) && drawn.None?
      ensures 0 < offsetX - dimX <= dimW && offsetX - dimX == start ==>
                end == start && !boxing && !tracking && HintState() == old(HintState()) && drawn.None?
      ensures 0 < offsetX - dimX <= dimW && offsetX - dimX != start ==>
                end == offsetX - dimX && 0 < end <= dimW && boxing && tracking
                && !hasHintbox && !isHintBoxFrozen && !freezeOnClick && relocateOnClick == old(relocateOnClick)
                && drawn == Some(DragBox(start, end, dimX, dimY, dimH, spp, minPeriod))
    {
      drawn := None;
      if offsetX - dimX > 0 && dimW + dimX >= offsetX {
        end := offsetX - dimX;
        if start != end {
          isHintBoxFrozen := false;
          boxing := true;
          DestroyHintbox();
        } else {
          DestroySBox();
          return;
        }
        end := Min(offsetX - dimX, dimW);
        drawn := Some(DragBox(start, end, dimX, dimY, dimH, spp, minPeriod));
      }
    }

    /**
     * endSBoxDrag: on mouse up while boxing, clamp the end to the right edge,
     * cancel the drag and publish the range offsets when Publication allows.
     */
    method EndSBoxDrag(offsetX: int) returns (published: Option<RangeOffsets>)
      requires Valid() && sbox
      modifies this
      ensures strayBoxes == old(strayBoxes)
      ensures Valid()
      ensures !old(boxing) ==> SBoxState() == old(SBoxState()) && HintState() == old(HintState()) && published.None?
      ensures old(boxing) ==>
                start == old(start) && end == Min(offsetX - dimX, dimW) && !boxing && !tracking
                && HintState() == old(HintState())
                && published == Publication(start, end, dimW, spp, minPeriod)
      ensures old(boxing) && published.Some? ==>
                0 <= published.value.toOffset && published.value.fromOffset <= dimW * spp
    {
      published := None;
      if boxing {
        end := Min(offsetX - dimX, dimW);
        DestroySBox();
        published := Publication(start, end, dimW, spp, minPeriod);
        if spp > 0 {
          PublishedOffsetSigns(start, end, dimW, spp, minPeriod);
        }
      }
    }

    /** Leaving the graph removes an unfrozen hint and cancels the drag. */
    method MouseLeave()
      requires Valid()
      modifies this
      ensures strayBoxes == old(strayBoxes)
      ensures Valid()
      ensures !boxing && !tracking && start == old(start) && end == old(end)
      ensures hasHintbox == old(isHintBoxFrozen) && isHintBoxFrozen == old(isHintBoxFrozen)
      ensures !freezeOnClick && relocateOnClick == old(relocateOnClick)
    {
      DestroyHintbox();
      DestroySBox();
    }

    /**
     * showHintbox: while not boxing, show the hint the pointer calls for,
     * creating the hint box (and binding the click that freezes it) when
     * there is none; when there is nothing to show, destroy the hint.
     */
    method ShowHintbox(svg: Svg, p: Pointer) returns (content: Option<Content>)
      requires Valid()
      modifies this
      ensures strayBoxes == old(strayBoxes)
      ensures Valid()
      ensures content == if boxing then None else HintAt(Drawing(), showProblems, hintMaxRows, isHintBoxFrozen, svg, p)
      ensures SBoxState() == old(SBoxState())
      ensures isHintBoxFrozen == old(isHintBoxFrozen) && relocateOnClick == old(relocateOnClick)
      ensures content.Some? ==> hasHintbox && !isHintBoxFrozen
                                && freezeOnClick == (old(freezeOnClick) || !old(hasHintbox))
      ensures content.None? ==>
                if isHintBoxFrozen then hasHintbox == old(hasHintbox) && freezeOnClick == old(freezeOnClick)
                else !hasHintbox && !freezeOnClick
    {
      content := None;
      if !boxing {
        var inx := dimX <= p.graphX <= dimX + dimW;
        if showProblems && !isHintBoxFrozen && inx && dimY + dimH <= p.offsetY <= dimY + dimH + ProblemBandHeight {
          var found := FindProblems(svg.markers, p.offsetX);
          if |found| > 0 {
            var rows := BuildProblemRows(found, hintMaxRows);
            content := Some(rows);
          }
        } else if inx && dimY <= p.offsetY <= dimY + dimH {
          var values := FindValues(svg.sets, p.graphX);
          assert values == ValuesAt(svg.sets, p.graphX);
          content := BuildValueHint(values, svg.sets, p.offsetX, p.offsetY, hintMaxRows, isHintBoxFrozen);
        }
        if content.Some? {
          if !hasHintbox {
            hasHintbox := true;
            freezeOnClick := true;
          }
        }
      }
      if content.None? {
        DestroyHintbox();
      }
    }

    /**
     * makeHintboxStatic: replace the hint by a frozen one and make the next
     * click relocate it. destroyHintbox keeps a frozen hint, so when the
     * hint is already frozen the new box takes its place in the graph's
     * data while the old box stays on screen. With no hint at all the
     * browser code fails before changing anything, so nothing changes.
     */
    method MakeHintboxStatic()
      requires Valid()
      modifies this
      ensures Valid()
      ensures SBoxState() == old(SBoxState())
      ensures old(hasHintbox) ==> hasHintbox && isHintBoxFrozen && relocateOnClick && !freezeOnClick
      ensures old(hasHintbox) ==> strayBoxes == old(strayBoxes) + (if old(isHintBoxFrozen) then 1 else 0)
      ensures !old(hasHintbox) ==> HintState() == old(HintState()) && strayBoxes == old(strayBoxes)
    {
      if !hasHintbox {
        return;
      }
      var wasFrozen := isHintBoxFrozen;
      DestroyHintbox();
      if wasFrozen {
        strayBoxes := strayBoxes + 1;
      }
      hasHintbox := true;
      isHintBoxFrozen := true;
      relocateOnClick := true;
    }

    /**
     * makeHintboxStatic as its comment intends it: the old box is destroyed
     * whether or not it is frozen, so the graph never shows more than one
     * hint box.
     */
    method MakeSingleHintboxStatic()
      requires Valid()
      modifies this
      ensures Valid()
      ensures SBoxState() == old(SBoxState()) && strayBoxes == old(strayBoxes)
      ensures old(hasHintbox) ==> hasHintbox && isHintBoxFrozen && relocateOnClick && !freezeOnClick
      ensures !old(hasHintbox) ==> HintState() == old(HintState())
    {
      if !hasHintbox {
        return;
      }
      isHintBoxFrozen := false;
      DestroyHintbox();
      hasHintbox := true;
      isHintBoxFrozen := true;
      relocateOnClick := true;
    }

    /** The close action of a frozen hint: unfreeze, stop relocating on click, remove the hint. */
    method HintDeleted()
      requires Valid()
      modifies this
      ensures strayBoxes == old(strayBoxes)
      ensures Valid()
      ensures SBoxState() == old(SBoxState())
      ensures HintState() == (false, false, false, false)
    {
      isHintBoxFrozen := false;
      relocateOnClick := false;
      DestroyHintbox();
    }

    /**
     * hintboxSilentMode: a click while the hint is frozen unfreezes it,
     * recomputes it for the new pointer and freezes it again, so the one hint
     * moves to where the user clicked; when there is nothing to show there,
     * the hint is gone and stays unfrozen.
     */
    method HintboxSilentMode(svg: Svg, p: Pointer) returns (content: Option<Content>)
      requires Valid() && relocateOnClick
      modifies this
      ensures strayBoxes == old(strayBoxes)
      ensures Valid()
      ensures SBoxState() == old(SBoxState())
      ensures content == if boxing then None else HintAt(Drawing(), showProblems, hintMaxRows, false, svg, p)
      ensures content.Some? ==> hasHintbox && isHintBoxFrozen && relocateOnClick && !freezeOnClick
      ensures content.None? ==> !hasHintbox && !isHintBoxFrozen && !freezeOnClick && relocateOnClick
    {
      isHintBoxFrozen := false;
      content := ShowHintbox(svg, p);
      MakeHintboxStatic();
    }
  }
}
