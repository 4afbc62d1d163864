# SVG graph interaction, modelled in Dafny

This project models the interactive part of the SVG graph widget of the
Zabbix web frontend (`frontends/php/js/class.csvggraph.js`): the jQuery
plugin that, per graph element,

- looks up what lies under the pointer: the problem markers whose span
  contains the pointer column (`findProblems`), and for every data set the
  value at or before that column (`findValues`), reading circle attributes
  of point series and the path commands (`M10,20`, `L30,40`, ...) of line
  and staircase series;
- shows that as a hint: a problem table in the 15-pixel band under the
  canvas or a value list over the canvas, both capped at `hint_max_rows`
  rows with a "Displaying N of M found" footer (`showHintbox`);
- lets a click freeze the hint in place and a later click move it
  (`makeHintboxStatic`, `hintboxSilentMode`, `destroyHintbox`);
- lets a drag select a time range (the "SBox": `startSBoxDrag`,
  `moveSBoxMouse`, `endSBoxDrag`, `destroySBox`), publishing the seconds cut
  off on the left and the right as `timeselector.rangeoffset`.

Modules:

- `PathToken` (token.dfy): reading a path token the way the lookup does
  (drop the command letter, split at commas, JavaScript `parseInt`), and
  the token the renderer writes, with the round trip between them.
- `Lookup` (lookup.dfy): the two lookups as loop methods, each proved equal
  to a recursive specification function whose meaning is proved separately
  ("the last circle at or before the column", "the last command at or
  before the column", "exactly the markers that cover the column, in
  document order").
- `Hint` (hint.dfy): the hint contents and the branch `showHintbox` takes.
- `SvgGraph` (graph.dfy): the published range (`Publication`) and the
  per-graph state, a class `Graph` whose methods are the event handlers.
  Which handlers are bound is state too (`tracking`, `freezeOnClick`,
  `relocateOnClick`), because the next event's effect depends on it.
- `Scenarios` (scenarios.dfy): event sequences on one graph, proved from
  the handlers' contracts alone.

The DOM is abstracted into the attribute values the code reads; the
external hint-box widget, the publish bus and the browser geometry become
inputs or outputs. Pixel values and seconds per pixel (`spp`) are
integers, so `Math.round`, `Math.floor` and `Math.ceil` leave them
unchanged. `spp` is 0 when not configured: the code then computes with
`null`, which JavaScript's arithmetic treats as 0.

Three behaviours of the code are worth stating outright:

- The end of a drag is clamped only at the right edge (line 181), and the
  left offset is computed from it unclamped (line 186), so a drag released
  left of the drawing area publishes a negative `from_offset`
  (`SvgGraph.ReleasedLeftOfArea`, `SvgGraph.PublishedOffsetSigns`). The
  right offset is never negative.
- A mouse down outside the drawing area is ignored: no drag starts
  (line 117, `SvgGraph.Graph.StartSBoxDrag`).
- Leaving the graph calls `destroyHintbox` (line 520), which removes only
  an unfrozen hint (line 57), so a frozen hint stays
  (`SvgGraph.Graph.MouseLeave`).

The duration label warns when the selection is shorter than `min_period`
(line 162), but a range is published only when it is longer (line 189). A
selection of exactly `min_period` seconds therefore shows no warning and
publishes nothing (`SvgGraph.ExactMinimumNeitherWarnsNorPublishes`).

## Model

| member | source | states |
|---|---|---|
| `PathToken.TokenRoundTrip` | frontends/php/js/class.csvggraph.js:249-253 | reading back a token `<letter><x>,<y>` (drop the letter, split at commas, parseInt) gives the point it was written for |
| `PathToken.ParseInt` | frontends/php/js/class.csvggraph.js:252 | `parseInt` with radix 10 is NaN (None) exactly when the text does not start with a digit or a sign followed by a digit; a number read after `-` is at most 0, any other at least 0 |
| `PathToken.ParseIntRoundTrip` | frontends/php/js/class.csvggraph.js:252 | the model's `ParseInt` of a decimal integer followed by any non-digit text gives that integer (JavaScript's `parseInt` also reads `0x...` as hexadecimal, which the model leaves out) |
| `PathToken.ParseToken` | frontends/php/js/class.csvggraph.js:251-252 | a token yields a point exactly when, after the command letter, both the first and the second comma-separated field read as numbers; x is `parseInt` of the first field (the text between the letter and the first comma) and y of the second |
| `Lookup.ProblemsAt` | frontends/php/js/class.csvggraph.js:275-282 | the lookup reports at most one payload per marker |
| `Lookup.FindProblems` | frontends/php/js/class.csvggraph.js:269-285 | the payloads returned are those of the markers with `x > start && start + width > x`, in document order; a payload is returned exactly when some covering marker carries it |
| `Lookup.ProblemsAtMembership` | frontends/php/js/class.csvggraph.js:279-281 | both directions: a payload is reported iff a marker carrying it strictly contains the column, so a column on either edge never reports the marker |
| `Lookup.ProblemsAtAppend` | frontends/php/js/class.csvggraph.js:275-282 | the lookup over two consecutive runs of markers is the first run's result followed by the second's: results keep document order |
| `Lookup.ProblemsAtBound` | frontends/php/js/class.csvggraph.js:275-282 | at most one result per marker, and one per marker exactly when every marker covers the column |
| `Lookup.LastCircle` | frontends/php/js/class.csvggraph.js:215-221 | the index found is the last circle with `cx` at or before the limit; none found means every circle lies right of it |
| `Lookup.PointLookup` | frontends/php/js/class.csvggraph.js:210-227 | a point series reports the last circle with `cx <= min(x, lastChild.cx)`, else the sentinel `(-10, -10, null)` |
| `Lookup.ParsedTokensAt` | frontends/php/js/class.csvggraph.js:249-252 | the command at each index is read as a point by `ParseToken` |
| `Lookup.LastToken` | frontends/php/js/class.csvggraph.js:246-258 | the backward scan stops at the highest command index that parses as a point (both its x and its y field are numbers) with x `<= x`; none found means no command qualifies |
| `Lookup.PathLookup` | frontends/php/js/class.csvggraph.js:229-259 | a line or staircase series reports the highest qualifying command with label index `index` (line) or `ceil(index / 2)` (staircase), `undefined` past the labels, else the sentinel |
| `Lookup.FindValues` | frontends/php/js/class.csvggraph.js:199-266 | exactly one value per data set node, in node order, each the one its series kind calls for; the lookup itself reports the sentinel for an unknown kind |
| `Lookup.LineFindsLargestWhenSorted` | frontends/php/js/class.csvggraph.js:249-258 | when command x-coordinates never decrease (a line, or a staircase whose vertical steps repeat x), the backward scan finds the largest x at or before the column |
| `Hint.BuildProblemRows` | frontends/php/js/class.csvggraph.js:346-361 | the problem table lists the first `hintMaxRows` problems in order, all of them when they fit, and has the footer "hintMaxRows of count" exactly when more were found |
| `Hint.Near` | frontends/php/js/class.csvggraph.js:408-410 | a value is near the pointer exactly when it is not null and the pointer lies strictly within `tolerance` of it on both axes |
| `Hint.FirstNear` | frontends/php/js/class.csvggraph.js:401-415 | the value singled out is the first one with a non-null value whose tolerance box strictly contains the pointer |
| `Hint.RowsUnpicked` | frontends/php/js/class.csvggraph.js:421-437 | with nothing singled out, the value rows are the first `hintMaxRows` data sets, in order |
| `Hint.RowsPicked` | frontends/php/js/class.csvggraph.js:421-437 | with one value singled out, it is the only row, and only when its index is below `hintMaxRows` |
| `Hint.BuildValueHint` | frontends/php/js/class.csvggraph.js:391-464 | the value list is empty while frozen or when no data set has a value, else the rows above with the footer when data sets exceed `hintMaxRows` |
| `Hint.HintAt` | frontends/php/js/class.csvggraph.js:332-386 | a frozen hint is never recomputed; any hint needs the pointer within the canvas columns; a problem table needs `show_problems`, the pointer in the 15-pixel band and at least one problem, and conversely an unfrozen pointer there with problems found gets exactly the capped problem table; a value list needs the pointer over the canvas, and conversely an unfrozen pointer over the canvas (outside the problem band) gets a value list whenever some data set has a value |
| `Hint.HintRowCap` | frontends/php/js/class.csvggraph.js:341-457 | neither hint lists more than `hintMaxRows` rows; the problem table has its footer exactly when more problems were found than the cap; the value list has it exactly when there are more data sets than the cap, even when one value is singled out and fewer rows are shown |
| `SvgGraph.Publication` | frontends/php/js/class.csvggraph.js:185-193 | a published range lasts longer than `min_period`, and left offset, selected seconds and right offset add up to the width in seconds |
| `SvgGraph.PublishedExactly` | frontends/php/js/class.csvggraph.js:185-194 | with `spp > 0`, a range is published iff it lasts longer than `min_period` and does not span the whole width |
| `SvgGraph.PublishedOffsetSigns` | frontends/php/js/class.csvggraph.js:181-192 | the right offset is non-negative while both ends are at or left of the right edge; the left offset is negative exactly when an end lies left of the drawing area |
| `SvgGraph.NothingPublishedWhenTooShort` | frontends/php/js/class.csvggraph.js:185-189 | no `spp`, a zero-width drag or a drag of at most `min_period` seconds publishes nothing |
| `SvgGraph.ReleasedLeftOfArea` | frontends/php/js/class.csvggraph.js:181-192 | a drag released left of the drawing area publishes a negative left offset |
| `SvgGraph.DragBox` | frontends/php/js/class.csvggraph.js:153-162 | the box spans from the start to the end of the drag (either way round) over the full drawing height; its label shows `width * spp` seconds and warns exactly when that is below `min_period` |
| `SvgGraph.ExactMinimumNeitherWarnsNorPublishes` | frontends/php/js/class.csvggraph.js:160-189 | a selection of exactly `min_period` seconds shows no warning and publishes nothing |
| `SvgGraph.Graph.constructor` | frontends/php/js/class.csvggraph.js:494-515 | options override the defaults `sbox = false`, `show_problems = true`, `hint_max_rows = 20`, `min_period = 60`; no drag and no hint |
| `SvgGraph.Graph.DestroySBox` | frontends/php/js/class.csvggraph.js:38-50 | ends boxing and unbinds the mouse move and mouse up handlers of the drag; start, end and the hint are untouched |
| `SvgGraph.Graph.SBoxKeyDown` | frontends/php/js/class.csvggraph.js:31-35 | Escape runs `destroySBox` at any time, cancelling a drag in progress and changing nothing without one; any other key changes nothing |
| `SvgGraph.Graph.DestroyHintbox` | frontends/php/js/class.csvggraph.js:53-62 | removes the hint (and unbinds the freezing click) only when one exists and is not frozen |
| `SvgGraph.Graph.StartSBoxDrag` | frontends/php/js/class.csvggraph.js:111-127 | inside the drawing area, edges included, records `start = offsetX - dimX`, so `0 <= start <= dimW`, and binds the drag handlers; outside, nothing changes |
| `SvgGraph.Graph.MoveSBoxMouse` | frontends/php/js/class.csvggraph.js:130-171 | acts only when `0 < offsetX - dimX <= dimW`; back at the start it cancels the drag; otherwise it boxes with `0 < end <= dimW`, unfreezes and removes the hint, and draws the box |
| `SvgGraph.Graph.EndSBoxDrag` | frontends/php/js/class.csvggraph.js:174-196 | does nothing unless boxing; otherwise clamps `end <= dimW`, cancels the drag and publishes `Publication`, whose right offset is non-negative and whose left offset is at most the width in seconds |
| `SvgGraph.Graph.MouseLeave` | frontends/php/js/class.csvggraph.js:518-524 | cancels the drag; the hint survives exactly when it was frozen |
| `SvgGraph.Graph.ShowHintbox` | frontends/php/js/class.csvggraph.js:323-491 | while not boxing shows `HintAt`, creating the box and binding the freezing click when there was none; with nothing to show it destroys an unfrozen hint |
| `SvgGraph.Graph.MakeHintboxStatic` | frontends/php/js/class.csvggraph.js:71-95 | an existing hint is replaced by a frozen hint and the next click relocates it; when the hint was already frozen, line 78 keeps it, so the old box stays on screen untracked (one more stray box); with no hint nothing changes |
| `SvgGraph.Graph.MakeSingleHintboxStatic` | frontends/php/js/class.csvggraph.js:77-94 | the same handler as its comment at line 77 intends it: the old box is destroyed frozen or not, so no box is ever left behind |
| `SvgGraph.Graph.HintDeleted` | frontends/php/js/class.csvggraph.js:84-88 | closing a frozen hint unfreezes it, removes it and unbinds the relocating click |
| `SvgGraph.Graph.HintboxSilentMode` | frontends/php/js/class.csvggraph.js:101-108 | a click on a frozen hint recomputes it unfrozen for the new pointer and freezes it again without leaving a box behind; with nothing to show it is removed and left unfrozen, and the relocating click stays bound |
| `Scenarios.ZeroWidthDrag` | frontends/php/js/class.csvggraph.js:138-148 | a drag moved to another column starts boxing; moved back onto its starting column it is cancelled, so releasing it publishes nothing |
| `Scenarios.FreezeThenRelocate` | frontends/php/js/class.csvggraph.js:71-108 | after a click freezes the hint, hovering no longer changes it, and a click elsewhere shows there exactly what hovering there would show, with the hint present and frozen and no stray box left behind |
| `Scenarios.StrayFrozenBox` | frontends/php/js/class.csvggraph.js:71-108 | freeze, click where nothing shows, hover, click: the last click runs `hintboxSilentMode` and then `makeHintboxStatic` on the frozen hint, leaving exactly one stray box |
| `Scenarios.SingleFrozenBox` | frontends/php/js/class.csvggraph.js:71-108 | the same events with the intended handler leave no stray box, and the hint frozen |

## Left out

- `src/zabbix_sucker/calculator.c` is not part of this model: it is a database polling loop with signals and external alerting, all I/O.
- Event binding itself (`init`'s `.on` calls, `$.fn.svggraph`, `disableSBox`): only its effect is kept, as the flags saying which handlers are bound; `disableSBox` is not modelled.
- The order in which several handlers bound to one mouse up run: each handler is a method of its own.
- Building the hint's HTML, `hintBox.createBox`, `repositionHintBox`, `setHelperPosition`, `hideHelper` and the highlighted-point attributes: presentation only; problem rows carry the payload text instead of table cells.
- `getDataPointTolerance` reads computed styles: the tolerance is an input field of each data set. For a data set with neither circles nor a path (an unknown kind) line 309 passes `undefined` to `getComputedStyle`, which throws and aborts `showHintbox`; the model does not capture that exception and gives every data set a tolerance.
- MakeHintboxStatic: with no hint at all, line 75 calls `find` on `undefined` and throws; the model makes the call a no-op. This happens when `hintboxSilentMode`'s `showHintbox` has removed the hint. The exception may also keep later mouse up handlers from running (for example `destroySBox` bound at line 123, which would leave `moveSBoxMouse` bound); handlers are modelled one at a time, so this is not captured.
- DestroySBox: line 44 passes event data where jQuery's `.off` expects a selector, so the Escape handler is never unbound and every mouse down inside the area binds one more. The model keeps no Escape binding state: Escape always runs `destroySBox` (`SBoxKeyDown`), and running it several times has the effect of running it once.
- Lookup.PathLookup: all commands are read as points before the backward scan, where the source reads each one as the scan reaches it; reading has no side effects, so the same command is found.
- `JSON.parse` of a marker's `data-info`: the payload is kept as text.
- `formatTimestamp`, `locale`, `sprintf` and `t()`: the duration label is modelled by its seconds and its below-minimum flag; the label's position is left out.
- `$.publish` is modelled as the value `EndSBoxDrag` returns.
- Floating-point `spp` and fractional pixels: all are integers here.
- The Internet Explorer/Edge rewrite of the `d` attribute: tokens are taken in the normalised `M10,20` form.
- PathToken.ParseInt: does not skip leading white space or read a `0x` prefix as hexadecimal, as `parseInt` does; path tokens come from splitting at spaces and hold decimal numbers.
- PathToken.ParseToken: the source keeps the y field as raw text; here it is read as an integer, so a token whose y field is missing or not a number (`M10,`, `M10,abc`) is skipped, where line 252 matches it on its x alone and reports the raw y.
- Closing a stray hint box is not modelled: `HintDeleted` closes the box the graph keeps track of.
- Lookup.PointLookup: circle `cx` and the last child's `cx` are taken to be numbers; a `NaN` there is not modelled.
- Lookup.PathLookup: with no path at all the source scans one empty token, which never matches; the model scans none, with the same result.
- Repeated binding of the drag handlers by a second mouse down without a mouse up is not modelled.

## Findings

| source | as written | input that shows it | evidently intended | confidence | as-written member | corrected member |
|---|---|---|---|---|---|---|
| frontends/php/js/class.csvggraph.js:71-95 | `makeHintboxStatic` calls `destroyHintbox` (line 78), which keeps a frozen hint, then creates a new box (line 81) and keeps only that one (line 94) | freeze a hint; click where nothing shows (the hint goes, line 75 throws, the relocating click stays bound); hover to create a new hint; click: `hintboxSilentMode` freezes the hint and `makeHintboxStatic`, run from the same click's handler list, finds it frozen | the old box is destroyed before the new one is made (the comment at line 77), so a graph shows at most one hint box | medium, not executed; relies on jQuery running the handlers bound when the event started | `Scenarios.StrayFrozenBox` | `Scenarios.SingleFrozenBox` |
