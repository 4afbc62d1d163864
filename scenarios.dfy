/**
 * Event sequences on one graph, in the order a browser dispatches them,
 * proved from the handlers' contracts alone.
 */
module Scenarios {
  import opened Wrappers
  import opened Hint
  import opened SvgGraph

  /**
   * Mouse down inside the drawing area, move to another column (which draws
   * a box), move back onto the starting column, release anywhere: the move
   * back cancels the drag, so nothing is published.
   */
  method ZeroWidthDrag(dims: Dims, atX: int, atY: int, awayX: int, releaseX: int)
    returns (boxed: bool, published: Option<RangeOffsets>)
    requires dims.x < atX <= dims.x + dims.w && dims.y <= atY <= dims.y + dims.h
    requires dims.x < awayX <= dims.x + dims.w && awayX != atX
    ensures boxed && published.None?
  {
    var g := new Graph(Options(dims, 60, Some(true), None, None, None));
    g.StartSBoxDrag(atX, atY);
    var drawn := g.MoveSBoxMouse(awayX);
    boxed := g.boxing;
    drawn := g.MoveSBoxMouse(atX);
    published := g.EndSBoxDrag(releaseX);
  }

  /**
   * Hover shows a hint, a click freezes it, further hovering leaves it
   * alone, and a click elsewhere shows there what hovering there would
   * show, and freezes it again, without leaving a second box behind.
   */
  method FreezeThenRelocate(dims: Dims, svg: Svg, first: Pointer, second: Pointer)
    returns (hover: Option<Content>, moved: Option<Content>, present: bool, frozen: bool, strays: nat)
    requires HintAt(dims, true, 20, false, svg, first).Some?
    requires HintAt(dims, true, 20, false, svg, second).Some?
    ensures hover.None? && present && frozen && strays == 0
    ensures moved == HintAt(dims, true, 20, false, svg, second)
  {
    var g := new Graph(Options(dims, 60, None, None, None, None));
    var shown := g.ShowHintbox(svg, first);
    g.MakeHintboxStatic();
    hover := g.ShowHintbox(svg, second);
    moved := g.HintboxSilentMode(svg, second);
    present, frozen, strays := g.hasHintbox, g.isHintBoxFrozen, g.strayBoxes;
  }

  /**
   * A frozen hint, a click where nothing shows (the hint goes, the
   * relocating click stays bound), a hover that creates a new hint (binding
   * the freezing click), then one more click. That click runs the
   * relocating handler, which freezes the hint, and then the freezing
   * handler from the same click's handler list, on the frozen hint: the old
   * box is left on screen.
   */
  method StrayFrozenBox(dims: Dims, svg: Svg, first: Pointer, empty: Pointer, third: Pointer, fourth: Pointer)
    returns (strays: nat, frozen: bool)
    requires HintAt(dims, true, 20, false, svg, first).Some?
    requires HintAt(dims, true, 20, false, svg, empty).None?
    requires HintAt(dims, true, 20, false, svg, third).Some?
    requires HintAt(dims, true, 20, false, svg, fourth).Some?
    ensures strays == 1 && frozen
  {
    var g := new Graph(Options(dims, 60, None, None, None, None));
    var shown := g.ShowHintbox(svg, first);
    g.MakeHintboxStatic();
    shown := g.HintboxSilentMode(svg, empty);
    shown := g.ShowHintbox(svg, third);
    shown := g.HintboxSilentMode(svg, fourth);
    g.MakeHintboxStatic();
    strays, frozen := g.strayBoxes, g.isHintBoxFrozen;
  }

  /** The same events with makeHintboxStatic replacing a frozen box too: one box throughout. */
  method SingleFrozenBox(dims: Dims, svg: Svg, first: Pointer, empty: Pointer, third: Pointer, fourth: Pointer)
    returns (strays: nat, frozen: bool)
    requires HintAt(dims, true, 20, false, svg, first).Some?
    requires HintAt(dims, true, 20, false, svg, empty).None?
    requires HintAt(dims, true, 20, false, svg, third).Some?
    requires HintAt(dims, true, 20, false, svg, fourth).Some?
    ensures strays == 0 && frozen
  {
    var g := new Graph(Options(dims, 60, None, None, None, None));
    var shown := g.ShowHintbox(svg, first);
    g.MakeSingleHintboxStatic();
    shown := g.HintboxSilentMode(svg, empty);
    shown := g.ShowHintbox(svg, third);
    shown := g.HintboxSilentMode(svg, fourth);
    g.MakeSingleHintboxStatic();
    strays, frozen := g.strayBoxes, g.isHintBoxFrozen;
  }
}
