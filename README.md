# Aligned date axis: tick-label placement

This project models `AlignedDateAxis`, a JFreeChart `DateAxis` that can place each tick label in one of two ways:

- `INTERVAL_START`: the label sits under or beside its own tick, as a plain date axis places it.
- `INTERVAL_MIDDLE`: the label moves a quarter of the way towards the next tick. The next tick is the date one tick unit later.

The model covers four parts of the class:

- the label-placement setting, with its default, getter, setter and two constructors;
- the anchor calculation;
- the filter that suppresses labels overflowing the data area by more than 5 pixels;
- the render pass, which draws labels and tick marks and moves the layout cursor.

Files:

- `geometry.dfy` (module `Geometry`): points, segments, rectangles and the four edges. `Along` and `Across` give a point's coordinate along and across an axis on a given edge. `Outward` gives the sign of the direction that points away from the data area.
- `aligned_axis.dfy` (module `AlignedAxis`): the per-tick decisions as functions. `Rendering` specifies a whole pass. The class `AlignedDateAxis` holds the placement setting and the inherited settings. Its `DrawTickMarksAndLabels` method runs the loop and is proved to draw exactly `Rendering` and to leave the cursor at `CursorAfterLabels`.
- `rendering_properties.dfy` (module `RenderingProperties`): what a pass draws, seen as a reference list of tick marks and a reference list of labels. It also holds the tolerance boundary and a worked scenario on a bottom axis.

## How the model relates to the Java code

- Coordinates are `real`. The `float` anchor array and the `(float)` cast of the tick pixel are not modelled.
- Drawing is not a side effect. The pass returns the list of what it draws, in order: a `DrawnLabel(text, anchor)` for each label and a `DrawnMark(segment)` for each tick mark.
- The charting library's computations are inputs, bundled in `Collaborators` for one pass (one cursor, data area and edge):
  - `baseAnchor` stands for the base class's anchor;
  - `valueToJava2D` maps a time value to a pixel;
  - `addTickUnit` is the tick unit's calendar addition in the axis time zone;
  - `rotatedBounds` gives the bounds of a rotated label;
  - `maxLabelWidth` and `maxLabelHeight` are the largest label extents.
- The ticks are a parameter. In the Java code they come from `refreshTicks`. A tick's date is its value.
- The settings inherited from `DateAxis` are the `AxisStyle` value in the axis's `style` field. These are label visibility, major and minor tick-mark visibility, and inside and outside lengths.
- `AxisState` is modelled as the library documents it. `cursorUp` and `cursorLeft` subtract, and `cursorDown` and `cursorRight` add, because Java2D's y axis grows downward.
- On a left or right edge the shift moves y, but it is computed as `(nextTickPixel - x0) / 4` from the baseline anchor's x. This matches `AlignedDateAxis.java:125`. The model keeps this as written, and `AnchorPoint`'s contract states it.

## Model

| member | source | states |
|---|---|---|
| `AlignedAxis.AlignedDateAxis.constructor` | crypto.platform.view.chart/src/crypto/platform/view/chart/controller/AlignedDateAxis.java:31 | A new axis has placement `INTERVAL_START`, the declared default, and the inherited settings it was given. |
| `AlignedAxis.AlignedDateAxis.WithPosition` | crypto.platform.view.chart/src/crypto/platform/view/chart/controller/AlignedDateAxis.java:75-78 | The one-argument constructor builds the default axis, then applies the setter, so the axis has the requested placement. |
| `AlignedAxis.AlignedDateAxis.SetTickLabelPosition` | crypto.platform.view.chart/src/crypto/platform/view/chart/controller/AlignedDateAxis.java:84-90 | After setting a placement, the getter returns that placement and the inherited settings are unchanged. |
| `AlignedAxis.ConstructorsAgree` | crypto.platform.view.chart/src/crypto/platform/view/chart/controller/AlignedDateAxis.java:67-78 | The one-argument constructor gives the same axis as the default constructor followed by the setter. |
| `AlignedAxis.AnchorPoint` | crypto.platform.view.chart/src/crypto/platform/view/chart/controller/AlignedDateAxis.java:105-142 | The coordinate across the axis is always the baseline's. `INTERVAL_START` returns the baseline anchor exactly, on every edge. `INTERVAL_MIDDLE` moves the coordinate along the axis by a quarter of (next tick pixel minus baseline x). |
| `AlignedAxis.ShouldDrawLabel` | crypto.platform.view.chart/src/crypto/platform/view/chart/controller/AlignedDateAxis.java:174-182 | A label is drawn if and only if its bounds overflow the data area by at most 5 pixels. Top and bottom edges compare max X; left and right edges compare max Y. |
| `AlignedAxis.TickMark` | crypto.platform.view.chart/src/crypto/platform/view/chart/controller/AlignedDateAxis.java:193-201 | A tick mark is perpendicular to the axis at the tick pixel. Its first end is the outside length away from the data area, and its second end is the inside length into it. |
| `AlignedAxis.CursorAfterLabels` | crypto.platform.view.chart/src/crypto/platform/view/chart/controller/AlignedDateAxis.java:206-221 | With labels visible, the cursor moves outward by the largest label width on left and right edges, or by the largest height on top and bottom edges. With labels hidden, the cursor is unchanged. |
| `AlignedAxis.AlignedDateAxis.DrawTickMarksAndLabels` | crypto.platform.view.chart/src/crypto/platform/view/chart/controller/AlignedDateAxis.java:154-224 | The returned state is a new object holding the given ticks and the cursor given by `CursorAfterLabels`. What is drawn is exactly `Rendering`, which handles each tick in order, label decision first and tick-mark decision second. The axis itself is not changed. |
| `AlignedAxis.AxisState.constructor` | crypto.platform.view.chart/src/crypto/platform/view/chart/controller/AlignedDateAxis.java:155 | The state of a pass starts at the input cursor with no ticks. |
| `AlignedAxis.AxisState.SetTicks` | crypto.platform.view.chart/src/crypto/platform/view/chart/controller/AlignedDateAxis.java:160 | Recording the ticks of the pass replaces the tick list and keeps the cursor. |
| `AlignedAxis.AxisState.CursorLeft` | crypto.platform.view.chart/src/crypto/platform/view/chart/controller/AlignedDateAxis.java:208-210 | On a left edge the cursor moves left (decreases) by the given amount; the ticks are kept. |
| `AlignedAxis.AxisState.CursorRight` | crypto.platform.view.chart/src/crypto/platform/view/chart/controller/AlignedDateAxis.java:211-213 | On a right edge the cursor moves right (increases) by the given amount; the ticks are kept. |
| `AlignedAxis.AxisState.CursorUp` | crypto.platform.view.chart/src/crypto/platform/view/chart/controller/AlignedDateAxis.java:214-216 | On a top edge the cursor moves up (decreases) by the given amount; the ticks are kept. |
| `AlignedAxis.AxisState.CursorDown` | crypto.platform.view.chart/src/crypto/platform/view/chart/controller/AlignedDateAxis.java:217-219 | On a bottom edge the cursor moves down (increases) by the given amount; the ticks are kept. |
| `RenderingProperties.RenderingAppend` | crypto.platform.view.chart/src/crypto/platform/view/chart/controller/AlignedDateAxis.java:163-204 | The pass handles ticks one after another. Rendering two runs of ticks gives the first run's drawings followed by the second's. |
| `RenderingProperties.MarksOfRendering` | crypto.platform.view.chart/src/crypto/platform/view/chart/controller/AlignedDateAxis.java:186-203 | The tick marks drawn are exactly the marks of the ticks whose category has visible marks (`TickMarkVisible`: a major tick with tick marks visible, or a minor tick with minor tick marks visible), in order. They use minor lengths for minor ticks and major lengths otherwise, at the unshifted tick pixel. |
| `RenderingProperties.LabelsOfRendering` | crypto.platform.view.chart/src/crypto/platform/view/chart/controller/AlignedDateAxis.java:163-185 | With labels visible, the labels drawn are exactly those of the ticks that pass the filter, at their computed anchors, in order. With labels hidden, no label is drawn. |
| `RenderingProperties.HiddenLabelsDrawOnlyMarks` | crypto.platform.view.chart/src/crypto/platform/view/chart/controller/AlignedDateAxis.java:164-184 | With tick labels hidden, everything the pass draws is a tick mark. |
| `RenderingProperties.MarkSequenceIgnoresLabelFlag` | crypto.platform.view.chart/src/crypto/platform/view/chart/controller/AlignedDateAxis.java:186-188 | The tick-mark decision and the mark lengths do not read the label visibility flag. |
| `RenderingProperties.TickMarksIgnoreLabels` | crypto.platform.view.chart/src/crypto/platform/view/chart/controller/AlignedDateAxis.java:186-202 | Changing the label placement or the label visibility leaves the drawn tick marks unchanged. |
| `RenderingProperties.MarksAtTickPixels` | crypto.platform.view.chart/src/crypto/platform/view/chart/controller/AlignedDateAxis.java:189-201 | When every tick has a visible mark, there is one mark per tick, and the k-th mark crosses the axis at the k-th tick's pixel. |
| `RenderingProperties.LabelsAtAnchors` | crypto.platform.view.chart/src/crypto/platform/view/chart/controller/AlignedDateAxis.java:166-182 | When every label passes the filter, there is one label per tick, and the k-th label is the k-th tick's text at the k-th tick's anchor. |
| `RenderingProperties.ToleranceBoundary` | crypto.platform.view.chart/src/crypto/platform/view/chart/controller/AlignedDateAxis.java:178-180 | An overflow of exactly 5 pixels is drawn and a slightly larger one is not, on a bottom edge and on a left edge. |
| `RenderingProperties.MiddlePlacementScenario` | crypto.platform.view.chart/src/crypto/platform/view/chart/controller/AlignedDateAxis.java:118-136 | Bottom axis, daily ticks at x = 100, 200 and 300, `INTERVAL_MIDDLE`: labels at x = 125, 225 and 325 with y unchanged; marks at x = 100, 200 and 300; the cursor moves down by the 12-pixel label height. |

`GetTickLabelPosition` (lines 84-86) returns the stored field. The setter's and the constructors' contracts are stated through it.

## Left out

- Drawing onto `Graphics2D` is not modelled: fonts, paints, strokes, the axis line (line 156) and the text itself. The pass returns a list of drawn labels and tick marks instead.
- The base class's anchor calculation, `valueToJava2D`, `refreshTicks`, `TextUtilities.calculateRotatedStringBounds` and `findMaximumTickLabelWidth/Height` are inputs of the pass. Their own behaviour is not part of this model.
- `DateTickUnit.addToDate` is an input function on time values. Calendar and time-zone arithmetic are not modelled, and neither is the choice between a `DateTick`'s date and its raw value (lines 109-111).
- AlignedAxis.AlignedDateAxis.SetTickLabelPosition: the Java setter also accepts null. With labels visible, a null placement makes the `switch` at line 117 throw a NullPointerException. `TickLabelPosition` has no null value, so this failure is not modelled, and neither is the `default` branch at line 129, which only a value outside the two placements could reach.
- AlignedAxis.AnchorPoint: in `INTERVAL_MIDDLE` a missing tick unit makes `unit.addToDate` at lines 120-121 throw a NullPointerException. `addTickUnit` is a total function here, so this failure is not modelled.
- Labels are recorded with their text and anchor only. A tick's text anchor, angle and rotation anchor reach the model only through the text-bounds input, which is given the whole tick.
- The `float` narrowing of anchors and tick pixels is not modelled; all coordinates are exact reals.
- `AlignedAxis.AlignedDateAxis.constructor`: the base class's default settings (visibility flags and tick lengths) are not part of this model, so both constructors take them as a parameter.
- `serialVersionUID` and Java serialization.
- `CoinListActivator.java` (OSGi plug-in lifecycle and service lookup) is not part of this model.
