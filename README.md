# Time axis and XY drag box of Plottable, in Dafny

This project models two pieces of the Plottable charting library.

**The time axis** (`Plottable.Axis.Time`, module `TimeAxis` in `time_axis.dfy`):
- the catalog of 24 minor tick intervals, 4 major tick intervals and the minor-to-major correlation table;
- the fit test `isEnoughSpace` for an interval's labels: a cheap "more than fifty ticks" rejection, then a measurement of the widest label;
- the choice of the (minor, major) pair of tick levels in `getTickLevels`;
- the tick values of both levels in `_getTickValues`;
- where the labels of a level go in `_renderTickLabels`: centred between neighbouring ticks for unit steps, on the ticks otherwise, with their text, anchor and offsets;
- the tick-mark lengths set in `_doRender`;
- the space request of `_requestedSpace`, with its cached label height.

**The XY drag box** (`Plottable.Interaction.XYDragBox`, module `XYDragBoxInteraction` in `xy_drag_box.dfy`):
- `setBox` stretches the box in the dimensions that the resize flags allow;
- `_isResizeStart` and `_doDragend` set and clear those flags;
- `_cursorStyle` picks the cursor for a point near the box.

Some things are outside the model and appear in it as parameters:
- the time scale (its domain and its tick enumeration) is the datatype `Scale`;
- the calendar arithmetic, the date formatter and the text measurement are the arrow-typed fields of `Env`;
- the base drag box's edge test is a function-valued field of `XYDragBox`.

On the time axis, timestamps are integers (milliseconds) and pixel quantities are reals. The drag box works on integer coordinates.

Shared wrappers (`Option`) are in `wrappers.dfy`.

## Model

| member | source | states |
|---|---|---|
| `TimeAxis.CatalogShape` | src/components/timeAxis.ts:19-60 | The catalog has 24 minor intervals and 4 major intervals. The correlation table has one threshold per major interval, strictly increasing, and the last one lies beyond every minor index. |
| `TimeAxis.MajorIndexFrom` | src/components/timeAxis.ts:131-134 | The scan `while (minorToMajor[j] <= i) j++` stops inside the table, at an index whose threshold exceeds `i`, having passed only thresholds `<= i`. |
| `TimeAxis.MajorIndex` | src/components/timeAxis.ts:131-135 | The major index for minor index `i` is the first `j` with `minorToMajor[j] > i`, and it indexes `majorIntervals`. |
| `TimeAxis.MajorIndexTable` | src/components/timeAxis.ts:55-60 | Minor indices 0-13 map to days, 14-15 to months, 16-19 to years, and 20 and beyond (24 included) to the blank level. |
| `TimeAxis.MajorIndexUnique` | src/components/timeAxis.ts:131-135 | Any `j` meeting the scan's exit conditions is the major index. |
| `TimeAxis.MajorIndexMonotone` | src/components/timeAxis.ts:54-60 | A coarser minor level never gets a finer major level. |
| `TimeAxis.MaxLabelWidth` | src/components/timeAxis.ts:110-111 | `d3.max` of the label widths is at least every width and equals one of them. |
| `TimeAxis.TooManyTicks` | src/components/timeAxis.ts:100 | The cheap test: fifty steps of the interval from `domain[0]` end before `domain[1]`. |
| `TimeAxis.LabelCandidates` | src/components/timeAxis.ts:105-108 | The measured dates are the enumerated ticks followed by `domain[0]` and `domain[1]`, two more than the ticks. |
| `TimeAxis.Fits` | src/components/timeAxis.ts:100-112 | An interval fits when the cheap test passes and `(2·padding + widest label)·(dates + 1)` is below the available width. |
| `TimeAxis.FitsEveryLabel` | src/components/timeAxis.ts:110-112 | When an interval fits, every one of its measured labels, padded on both sides, fits in one of the `dates + 1` equal slots of the width. |
| `TimeAxis.CheapRejection` | src/components/timeAxis.ts:100-102 | If fifty steps from `domain[0]` still fall short of `domain[1]`, the interval does not fit, whatever the width. |
| `TimeAxis.ExactStage` | src/components/timeAxis.ts:105-112 | The last two measured dates are `domain[0]` and `domain[1]`, pushed after the enumerated ticks. The widest label is at least as wide as the labels of both ends. |
| `TimeAxis.FitsMonotoneInWidth` | src/components/timeAxis.ts:112 | An interval that fits a width also fits any larger width. |
| `TimeAxis.FirstFitFrom` | src/components/timeAxis.ts:125-130 | The selection loop from index `k` ends at the first fitting interval at or after `k`, or at 24 when none fits. Every interval it passes does not fit. |
| `TimeAxis.FirstFitMonotone` | src/components/timeAxis.ts:125-130 | A wider axis never selects a coarser minor interval. |
| `TimeAxis.NothingFitsFrom` | src/components/timeAxis.ts:126-130 | With non-negative text widths and padding, and no width available, the loop runs off the end of the catalog from any starting index. |
| `TimeAxis.NarrowAxisSelectsPastEnd` | src/components/timeAxis.ts:125-130 | As written, a zero-width axis selects minor index 24, which is outside `minorIntervals`, and major index 3, the blank level. |
| `TimeAxis.SelectedMinor` | src/components/timeAxis.ts:125-130 | Corrected selection: an index into the catalog; the interval fits or it is the coarsest one; every finer interval does not fit; it agrees with the source whenever some interval fits. |
| `TimeAxis.SelectedMinorMonotone` | src/components/timeAxis.ts:125-130 | The corrected selection is still monotone in the width. |
| `TimeAxis.Midpoint` | src/components/timeAxis.ts:166 | `new Date((b - a) / 2 + a)` lies between `a` and `b`, and equals `a` when `a == b`. |
| `TimeAxis.TickPositions` | src/components/timeAxis.ts:158-161 | The tick positions are `domain[0]`, the enumerated ticks, then `domain[1]`: two more than the ticks. |
| `TimeAxis.CenteredPositions` | src/components/timeAxis.ts:164-167 | One label per gap between neighbouring positions, placed at the midpoint of that gap. |
| `TimeAxis.TickPositionsAscending` | src/components/timeAxis.ts:158-161 | If the ticks are ascending and inside an ordered domain, the bracketed positions are ascending. |
| `TimeAxis.CenteredPositionsBetween` | src/components/timeAxis.ts:164-167 | For ascending positions, each centred label lies between its two neighbours, and the labels are ascending. |
| `TimeAxis.LabelPositions` | src/components/timeAxis.ts:162-170 | With centring, one position fewer than the ticks, each the midpoint of a neighbouring pair; without centring, the tick positions themselves. |
| `TimeAxis.DegenerateDomainLabel` | src/components/timeAxis.ts:158-167 | A zero-length domain with no ticks gets exactly one centred label, at that instant. |
| `TimeAxis.TickMarkLength` | src/components/timeAxis.ts:197 | Minor tick marks are half the tick length; major tick marks are the full tick length. |
| `TimeAxis.LabelYOffset` | src/components/timeAxis.ts:176-178 | On a bottom axis a label row sits at the end of its level's tick marks. Otherwise it sits that far up from `availableHeight`. |
| `TimeAxis.MajorRowBeyondMinorRow` | src/components/timeAxis.ts:176-197 | With a positive tick length, major marks are longer than minor marks, and the major label row is further from the axis line than the minor row. |
| `TimeAxis.SpaceRequestFor` | src/components/timeAxis.ts:84-92 | The request asks for no width and never wants width. The height is the smaller of the offered and requested heights. More height is wanted exactly when the offer falls short. |
| `TimeAxis.AddValues` | src/components/timeAxis.ts:141-146 | The set union keeps each value once and holds exactly the values of both inputs. The values already present keep their places. |
| `TimeAxis.SizeTickMarks` | src/components/timeAxis.ts:191-198 | A mark gets a length exactly when one of the levels enumerates it. Marks of the major level get the full tick length; marks only of the minor level get half of it. |
| `TimeAxis.Time.constructor` | src/components/timeAxis.ts:69-75 | A new axis has tick length 40 and label padding 5 (lines 73-74). The other fields take assumed base-class defaults. |
| `TimeAxis.Time.RequestedSpace` | src/components/timeAxis.ts:77-93 | The label height `tickLength + textHeight` is cached on first use and kept afterwards. The result is the space request for the automatic or the fixed height. |
| `TimeAxis.Time.IsEnoughSpace` | src/components/timeAxis.ts:95-113 | The result is exactly the fit predicate: not too many ticks, and `(2·padding + widest label)·(labels + 1) < availableWidth`. |
| `TimeAxis.Time.GetTickLevels` | src/components/timeAxis.ts:123-137 | As written: the minor index is the first fitting one (24 if none fits), and the major index is the one the correlation table gives for it. |
| `TimeAxis.Time.SelectTickLevels` | src/components/timeAxis.ts:123-137 | Corrected levels: the corrected minor index and its major index, both inside their catalogs. |
| `TimeAxis.Time.GetTickValues` | src/components/timeAxis.ts:139-147 | On the corrected levels of `SelectTickLevels`: each timestamp appears once, and a timestamp appears exactly when it is a tick of the minor level or of the major level. |
| `TimeAxis.Time.RenderTickLabels` | src/components/timeAxis.ts:156-184 | The result is `LaidOut` for the interval and the level: unit-step intervals get centred labels with anchor `middle` and no x shift; other intervals get labels on the tick positions, anchor `left` and an x shift of the padding; each text is the formatted position; the vertical offset is that of the level's row. |
| `TimeAxis.Time.DoRender` | src/components/timeAxis.ts:186-200 | On the corrected levels of `SelectTickLevels`: the minor and major labels are `LaidOut` for their intervals on rows 1 and 2 (positions, texts, anchors, x and y offsets). Every drawn mark on a level's ticks gets that level's length, with the major length winning. |
| `TimeAxis.Time.LaidOut` | src/components/timeAxis.ts:158-183 | The layout of one label row: the positions are centred between the bracketed tick positions exactly for unit steps, every text is the formatted date of its position, the anchor and x shift follow the centring, and the y offset is the row's. |
| `XYDragBoxInteraction.Span` | src/interactions/drag/xyDragBoxInteraction.ts:20-26 | `min` and `abs` of two coordinates give a segment that starts at one endpoint and ends at the other. It has positive size exactly when they differ. |
| `XYDragBoxInteraction.UpdatesX` | src/interactions/drag/xyDragBoxInteraction.ts:19 | `setBox` updates the x dimension unless resizing is on and only the y dimension is being resized. |
| `XYDragBoxInteraction.UpdatesY` | src/interactions/drag/xyDragBoxInteraction.ts:24 | `setBox` updates the y dimension unless resizing is on and only the x dimension is being resized. |
| `XYDragBoxInteraction.UpdatedDimensions` | src/interactions/drag/xyDragBoxInteraction.ts:19-28 | `setBox` always updates at least one dimension, and both when resizing is off or no edge is held. It skips a dimension exactly when only the other one is being resized. |
| `XYDragBoxInteraction.CursorFor` | src/interactions/drag/xyDragBoxInteraction.ts:61-71 | Each cursor is chosen exactly under its edge combination: diagonal on a corner, horizontal or vertical on a single side, none inside or away from the box. |
| `XYDragBoxInteraction.XYDragBox.constructor` | src/interactions/drag/xyDragBoxInteraction.ts:6-7 | A new drag box is not resizing in either dimension. |
| `XYDragBoxInteraction.XYDragBox.SetBox` | src/interactions/drag/xyDragBoxInteraction.ts:14-32 | Without a box nothing changes. Otherwise each updated dimension spans its two coordinates and the others keep their attributes. The box counts as drawn exactly when every updated dimension has positive extent. |
| `XYDragBoxInteraction.XYDragBox.DoDragend` | src/interactions/drag/xyDragBoxInteraction.ts:34-38 | Ending a drag clears both resize flags. |
| `XYDragBoxInteraction.XYDragBox.IsResizeStart` | src/interactions/drag/xyDragBoxInteraction.ts:40-44 | The flags record the edge tests of the two dimensions, and a resize starts exactly when either flag is set. |
| `XYDragBoxInteraction.XYDragBox.Hovering` | src/interactions/drag/xyDragBoxInteraction.ts:47-52 | The point lies in the box grown by `resizePadding` on every side. |
| `XYDragBoxInteraction.XYDragBox.NearEdges` | src/interactions/drag/xyDragBoxInteraction.ts:56-59 | The edge tests of the point against the left, top, right and bottom edges of the box. |
| `XYDragBoxInteraction.XYDragBox.CursorStyle` | src/interactions/drag/xyDragBoxInteraction.ts:46-72 | No cursor outside the padded box. Inside it, each resize cursor is shown exactly under its edge combination. |

## Left out

- Drawing is not modelled: DOM selections, the d3 data joins (enter, exit, remove), `_setup`, the `translate` strings and `_d3Scale`, the pixel mapping of label positions. The model returns the numbers that go into those attributes instead.
- The d3 key join drops repeated positions. `TimeAxis.Time.RenderTickLabels` returns all positions, duplicates included.
- `_measureTextHeight` and `Util.Text.getTextWidth` measure rendered text. They are the `textHeight` and `textWidth` fields of `Env`.
- `d3.time.format` formats dates. It is the `format` field of `Env`.
- `d3.time.<unit>.offset` does calendar arithmetic. It is the `offset` field of `Env`, and the scale's `tickInterval` is a field of `Scale`. Calendar rules are not modelled.
- On the time axis, JavaScript numbers are modelled as exact reals, and timestamps as integer milliseconds. Floating-point rounding is not modelled. `new Date(x)` keeps the integer part, modelled by truncation toward zero.
- `TimeAxis.AddValues`: `set.values()` turns timestamps into strings, and `new Date(d)` parses them back. This string round trip is not modelled; values stay integer timestamps. The order of the values is not promised by the contract beyond keeping earlier values first.
- `TimeAxis.ExactStage`: the fit test is only characterised by `TimeAxis.Fits` and `TimeAxis.Time.IsEnoughSpace`. The lemma gives the structure of its measured dates and no further iff.
- The cheap rejection is not proved to be conservative, meaning that it never rejects an interval whose labels would fit. That would need assumptions about `offset` and `tickInterval` that the code does not state.
- `_drag` only forwards the drag origin and pointer to `setBox`, so it is not modelled. The `super` calls of `_doDragend` and `_doRender` belong to base classes, and those are not part of this model.
- `_isResizeStartAttr` is a base-class test. Its two results are the arguments of `XYDragBoxInteraction.XYDragBox.IsResizeStart`.
- `XYDragBoxInteraction.XYDragBox.SetBox`: the corners `x0`, `x1`, `y0`, `y1`, the box attributes and `resizePadding` are integers, while the source takes JavaScript numbers. Fractional extents are not modelled, and neither is `parseInt` in `_cursorStyle` truncating a fractional attribute that `setBox` wrote.
- `XYDragBoxInteraction.XYDragBox.constructor`: `resizeEnabled`, `resizePadding`, `dragBox` and `boxIsDrawn` belong to the `DragBox` base class, which is not part of this model. The constructor takes the first three as arguments and assumes `boxIsDrawn` starts false.
- `_cursorStyle` reads the box attributes with `parseInt`. The attributes are integers here, so `parseInt` is the identity. The pointer coordinates `x` and `y` are integers too; fractional pointer positions are not modelled. `_cursorStyle` dereferences `dragBox` without a null check, so `CursorStyle` requires a box.
- `TimeAxis.Time.GetTickValues`, `TimeAxis.Time.DoRender`: when no minor interval fits, the source reads `minorIntervals[24]` and throws a TypeError (lines 143 and 189). These members work on the corrected levels of `SelectTickLevels` and fall back to index 23 instead; the as-written path is `TimeAxis.Time.GetTickLevels` and the Finding below.
- `TimeAxis.Time.constructor`: `availableWidth`, `availableHeight` and `height` belong to the axis base class, which is not part of this model. The constructor assumes they start at 0, 0 and automatic height.
- `_requestedSpace` caches `tickLength + textHeight` in `_computedHeight` on first use, and the model does the same.
- `d3.set().values()` promises no order, so the contract states none.

## Findings

| source | as written | input that shows it | evidently intended | confidence | as-written member | corrected member |
|---|---|---|---|---|---|---|
| src/components/timeAxis.ts:125-130 | When no minor interval fits, the loop leaves `i == 24`. `_doRender` and `_getTickValues` then read `minorIntervals[24]`, which is `undefined`, and they fail on `.timeUnit`. | `availableWidth == 0`, or a domain longer than 1250 years, where even 25-year steps give more than fifty ticks. | Fall back to the coarsest minor interval, index 23. | not executed | `TimeAxis.NarrowAxisSelectsPastEnd` | `TimeAxis.SelectedMinor` |
