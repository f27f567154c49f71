/**
 * A date axis whose tick labels sit either under their own tick (the usual
 * placement) or a quarter of the way into the interval that the tick opens.
 * The per-tick decisions are functions; the render pass is a method with a loop
 * that is proved to emit exactly what `Rendering` describes.
 */
module AlignedAxis {
  import opened Geometry

  /** Where a tick label is placed relative to its tick. */
  datatype TickLabelPosition = IntervalStart | IntervalMiddle

  /** The placement a new axis starts with. */
  const DefaultTickLabelPosition: TickLabelPosition := IntervalStart

  /** A label may overflow the data area by this many pixels and still be drawn. */
  const LabelOverflowTolerance: real := 5.0

  datatype TickType = Major | Minor

  /**
   * A date tick: its time value in milliseconds, its label text and its category.
   * A tick's text anchor, angle and rotation anchor are not fields here: they
   * only feed the text-bounds collaborator, which is given the tick and stands
   * for the bounds computed with that tick's own anchors and angle.
   */
  datatype Tick = Tick(value: real, text: string, tickType: TickType)

  /** The settings a date axis inherits from its base class and that the render pass reads. */
  datatype AxisStyle = AxisStyle(
    tickLabelsVisible: bool,
    tickMarksVisible: bool,
    minorTickMarksVisible: bool,
    tickMarkInsideLength: real,
    tickMarkOutsideLength: real,
    minorTickMarkInsideLength: real,
    minorTickMarkOutsideLength: real)

  /**
   * The charting library's computations, fixed for one render pass (one cursor,
   * data area and edge):
   *  - baseAnchor: the label anchor a plain date axis would use for a tick;
   *  - valueToJava2D: a time value to its pixel along the axis;
   *  - addTickUnit: a time value plus one tick unit, in the axis time zone;
   *  - rotatedBounds: the bounds of a tick's rotated label drawn at a point;
   *  - maxLabelWidth, maxLabelHeight: the largest label extent over the ticks.
   */
  datatype Collaborators = Collaborators(
    baseAnchor: Tick -> Point,
    valueToJava2D: real -> real,
    addTickUnit: real -> real,
    rotatedBounds: (Tick, Point) -> Rect,
    maxLabelWidth: real,
    maxLabelHeight: real)

  /** Everything one render pass depends on besides the ticks. */
  datatype Pass = Pass(
    mode: TickLabelPosition,
    style: AxisStyle,
    edge: Edge,
    cursor: real,
    dataArea: Rect,
    env: Collaborators)

  /** What a render pass draws, in drawing order. */
  datatype Drawing = DrawnLabel(text: string, anchor: Point) | DrawnMark(mark: Segment)

  // ---------------------------------------------------------------------------
  // Anchor calculation

  /** How far a label moves along the axis; note that it is measured from the baseline x. */
  function LabelShift(mode: TickLabelPosition, baseX: real, nextTickPixel: real): real {
    match mode
    case IntervalMiddle => (nextTickPixel - baseX) / 4.0
    case IntervalStart => 0.0
  }

  /**
   * The anchor of a tick label, from the baseline anchor `base` and the pixel of
   * the tick one tick unit later. Only the coordinate along the axis moves.
   */
  function AnchorPoint(mode: TickLabelPosition, edge: Edge, base: Point, nextTickPixel: real): (r: Point)
    ensures Across(edge, r) == Across(edge, base)
    ensures mode == IntervalStart ==> r == base
    ensures mode == IntervalMiddle ==> Along(edge, r) == Along(edge, base) + (nextTickPixel - base.x) / 4.0
  {
    var shift := LabelShift(mode, base.x, nextTickPixel);
    if edge.IsTopOrBottom() then Point(base.x + shift, base.y)
    else Point(base.x, base.y + shift)
  }

  /** The pixel of the date one tick unit after `tick`. */
  function NextTickPixel(env: Collaborators, tick: Tick): real {
    env.valueToJava2D(env.addTickUnit(tick.value))
  }

  /** The anchor the axis uses for the label of `tick`. */
  function LabelAnchor(mode: TickLabelPosition, edge: Edge, env: Collaborators, tick: Tick): Point {
    AnchorPoint(mode, edge, env.baseAnchor(tick), NextTickPixel(env, tick))
  }

  // ---------------------------------------------------------------------------
  // Label visibility filter

  /** How far the far side of a label's bounds lies past the data area, along the axis. */
  function LabelOverflow(edge: Edge, bounds: Rect, dataArea: Rect): real {
    if edge.IsTopOrBottom() then bounds.MaxX() - dataArea.MaxX()
    else bounds.MaxY() - dataArea.MaxY()
  }

  /** Whether a label with these bounds is drawn. */
  function ShouldDrawLabel(edge: Edge, bounds: Rect, dataArea: Rect): (r: bool)
    ensures r <==> LabelOverflow(edge, bounds, dataArea) <= LabelOverflowTolerance
  {
    var labelEdge := if edge.IsTopOrBottom() then bounds.MaxX() else bounds.MaxY();
    var dataAreaBound := if edge.IsTopOrBottom() then dataArea.MaxX() else dataArea.MaxY();
    labelEdge - LabelOverflowTolerance <= dataAreaBound
  }

  // ---------------------------------------------------------------------------
  // Tick marks

  predicate TickMarkVisible(style: AxisStyle, t: TickType) {
    (style.tickMarksVisible && t == Major) || (style.minorTickMarksVisible && t == Minor)
  }

  function OutsideLength(style: AxisStyle, t: TickType): real {
    if t == Minor then style.minorTickMarkOutsideLength else style.tickMarkOutsideLength
  }

  function InsideLength(style: AxisStyle, t: TickType): real {
    if t == Minor then style.minorTickMarkInsideLength else style.tickMarkInsideLength
  }

  /**
   * The tick mark at pixel `tickVal` along an axis whose line is at `cursor`:
   * perpendicular to the axis, reaching `outside` pixels away from the data area
   * and `inside` pixels into it.
   */
  function TickMark(edge: Edge, cursor: real, outside: real, inside: real, tickVal: real): (r: Segment)
    ensures Along(edge, r.from) == tickVal && Along(edge, r.to) == tickVal
    ensures Across(edge, r.from) == cursor + Outward(edge) * outside
    ensures Across(edge, r.to) == cursor - Outward(edge) * inside
  {
    match edge
    case Left => Segment(Point(cursor - outside, tickVal), Point(cursor + inside, tickVal))
    case Right => Segment(Point(cursor + outside, tickVal), Point(cursor - inside, tickVal))
    case Top => Segment(Point(tickVal, cursor - outside), Point(tickVal, cursor + inside))
    case Bottom => Segment(Point(tickVal, cursor + outside), Point(tickVal, cursor - inside))
  }

  // ---------------------------------------------------------------------------
  // Space accounting

  /** The cursor after the axis has reserved room for its labels. */
  function CursorAfterLabels(edge: Edge, cursor: real, labelsVisible: bool, maxWidth: real, maxHeight: real): (r: real)
    ensures !labelsVisible ==> r == cursor
    ensures labelsVisible && edge.IsLeftOrRight() ==> r == cursor + Outward(edge) * maxWidth
    ensures labelsVisible && edge.IsTopOrBottom() ==> r == cursor + Outward(edge) * maxHeight
  {
    if !labelsVisible then cursor
    else match edge
      case Left => cursor - maxWidth
      case Right => cursor + maxWidth
      case Top => cursor - maxHeight
      case Bottom => cursor + maxHeight
  }

  // ---------------------------------------------------------------------------
  // The render pass, as a specification

  /** The label drawn for `tick` when labels are visible: none, or one at its anchor. */
  function LabelDrawings(mode: TickLabelPosition, edge: Edge, dataArea: Rect, env: Collaborators, tick: Tick): seq<Drawing> {
    var anchor := LabelAnchor(mode, edge, env, tick);
    if ShouldDrawLabel(edge, env.rotatedBounds(tick, anchor), dataArea) then [DrawnLabel(tick.text, anchor)] else []
  }

  /** The mark of `tick`, at its unshifted pixel, with the lengths of its category. */
  function TickMarkFor(style: AxisStyle, edge: Edge, cursor: real, valueToJava2D: real -> real, tick: Tick): Segment {
    TickMark(edge, cursor, OutsideLength(style, tick.tickType), InsideLength(style, tick.tickType), valueToJava2D(tick.value))
  }

  /** The tick mark drawn for `tick`: none, or its mark. */
  function MarkDrawings(style: AxisStyle, edge: Edge, cursor: real, valueToJava2D: real -> real, tick: Tick): seq<Drawing> {
    if TickMarkVisible(style, tick.tickType) then [DrawnMark(TickMarkFor(style, edge, cursor, valueToJava2D, tick))] else []
  }

  /** Everything drawn for one tick: its label first, then its mark. */
  function TickDrawings(pass: Pass, tick: Tick): seq<Drawing> {
    (if pass.style.tickLabelsVisible then LabelDrawings(pass.mode, pass.edge, pass.dataArea, pass.env, tick) else [])
    + MarkDrawings(pass.style, pass.edge, pass.cursor, pass.env.valueToJava2D, tick)
  }

  /** Everything drawn for `ticks`, tick by tick in the order given. */
  function Rendering(pass: Pass, ticks: seq<Tick>): seq<Drawing>
    decreases |ticks|
  {
    if ticks == [] then []
    else Rendering(pass, ticks[..|ticks| - 1]) + TickDrawings(pass, ticks[|ticks| - 1])
  }

  // ---------------------------------------------------------------------------
  // State

  /** The layout state a render pass hands back: the cursor and the ticks of the pass. */
  class AxisState {
    var cursor: real
    var ticks: seq<Tick>

    constructor (cursor: real)
      ensures this.cursor == cursor && ticks == []
    {
      this.cursor := cursor;
      ticks := [];
    }

    method SetTicks(ticks: seq<Tick>)
      modifies this
      ensures this.ticks == ticks && cursor == old(cursor)
    {
      this.ticks := ticks;
    }

    method CursorUp(units: real)
      modifies this
      ensures cursor == old(cursor) - units && ticks == old(ticks)
    {
      cursor := cursor - units;
    }

    method CursorDown(units: real)
      modifies this
      ensures cursor == old(cursor) + units && ticks == old(ticks)
    {
      cursor := cursor + units;
    }

    method CursorLeft(units: real)
      modifies this
      ensures cursor == old(cursor) - units && ticks == old(ticks)
    {
      cursor := cursor - units;
    }

    method CursorRight(units: real)
      modifies this
      ensures cursor == old(cursor) + units && ticks == old(ticks)
    {
      cursor := cursor + units;
    }
  }

  /** A date axis with a configurable tick label placement. */
  class AlignedDateAxis {
    var tickLabelPosition: TickLabelPosition
    /** The settings inherited from the base date axis. */
    var style: AxisStyle

    /** A new axis: the inherited settings and the default label placement. */
    constructor (inherited: AxisStyle)
      ensures tickLabelPosition == DefaultTickLabelPosition && style == inherited
    {
      tickLabelPosition := DefaultTickLabelPosition;
      style := inherited;
    }

    /** A new axis with the given label placement, built as the default one and then set. */
    constructor WithPosition(inherited: AxisStyle, tickLabelPos: TickLabelPosition)
      ensures tickLabelPosition == tickLabelPos && style == inherited
    {
      tickLabelPosition := DefaultTickLabelPosition;
      style := inherited;
      new;
      SetTickLabelPosition(tickLabelPos);
    }

    function GetTickLabelPosition(): TickLabelPosition
      reads this
    {
      tickLabelPosition
    }

    method SetTickLabelPosition(value: TickLabelPosition)
      modifies this
      ensures GetTickLabelPosition() == value && style == old(style)
    {
      tickLabelPosition := value;
    }

    /**
     * Draws the tick labels and tick marks of `ticks` for an axis on `edge` whose
     * line is at `cursor`, and returns the layout state together with what was drawn.
     */
    method DrawTickMarksAndLabels(cursor: real, dataArea: Rect, edge: Edge, ticks: seq<Tick>, env: Collaborators)
      returns (state: AxisState, drawn: seq<Drawing>)
      ensures fresh(state)
      ensures state.ticks == ticks
      ensures state.cursor == CursorAfterLabels(edge, cursor, style.tickLabelsVisible, env.maxLabelWidth, env.maxLabelHeight)
      ensures drawn == Rendering(Pass(tickLabelPosition, style, edge, cursor, dataArea, env), ticks)
    {
      ghost var pass := Pass(tickLabelPosition, style, edge, cursor, dataArea, env);
      state := new AxisState(cursor);
      state.SetTicks(ticks);
      drawn := [];

      var i := 0;
      while i < |ticks|
        invariant 0 <= i <= |ticks|
        invariant state.ticks == ticks && state.cursor == cursor
        invariant drawn == Rendering(pass, ticks[..i])
      {
        var tick := ticks[i];
        ghost var before := drawn;
        if style.tickLabelsVisible {
          var anchor := AnchorPoint(tickLabelPosition, edge, env.baseAnchor(tick), NextTickPixel(env, tick));
          var labelBounds := env.rotatedBounds(tick, anchor);
          if ShouldDrawLabel(edge, labelBounds, dataArea) {
            drawn := drawn + [DrawnLabel(tick.text, anchor)];
          }
        }
        if TickMarkVisible(style, tick.tickType) {
          var ol := OutsideLength(style, tick.tickType);
          var il := InsideLength(style, tick.tickType);
          var tickVal := env.valueToJava2D(tick.value);
          drawn := drawn + [DrawnMark(TickMark(edge, cursor, ol, il, tickVal))];
        }
        assert drawn == before + TickDrawings(pass, tick);
        assert ticks[..i + 1][..i] == ticks[..i];
        i := i + 1;
      }
      assert ticks[..i] == ticks;

      if style.tickLabelsVisible {
        var used := 0.0;
        match edge {
          case Left =>
            used := used + env.maxLabelWidth;
            state.CursorLeft(used);
          case Right =>
            used := env.maxLabelWidth;
            state.CursorRight(used);
          case Top =>
            used := env.maxLabelHeight;
            state.CursorUp(used);
          case Bottom =>
            used := env.maxLabelHeight;
            state.CursorDown(used);
        }
      }
    }
  }

  /** Building an axis with a placement equals building the default axis and then setting it. */
  method ConstructorsAgree(inherited: AxisStyle, tickLabelPos: TickLabelPosition)
    returns (viaSetter: AlignedDateAxis, direct: AlignedDateAxis)
    ensures viaSetter.GetTickLabelPosition() == direct.GetTickLabelPosition() == tickLabelPos
    ensures viaSetter.style == direct.style == inherited
  {
    viaSetter := new AlignedDateAxis(inherited);
    viaSetter.SetTickLabelPosition(tickLabelPos);
    direct := new AlignedDateAxis.WithPosition(inherited, tickLabelPos);
  }
}
