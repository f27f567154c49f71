/**
 * Properties of a render pass: it works tick by tick in order, its tick marks
 * depend neither on the label placement nor on the label decisions, its labels
 * sit at the computed anchors, and a worked scenario on a bottom axis.
 */
module RenderingProperties {
  import opened Geometry
  import opened AlignedAxis

  /** The tick marks among `ds`, in order. */
  function Marks(ds: seq<Drawing>): seq<Segment>
    decreases |ds|
  {
    if ds == [] then []
    else Marks(ds[..|ds| - 1]) + (if ds[|ds| - 1].DrawnMark? then [ds[|ds| - 1].mark] else [])
  }

  /** The labels among `ds`, in order. */
  function Labels(ds: seq<Drawing>): seq<Drawing>
    decreases |ds|
  {
    if ds == [] then []
    else Labels(ds[..|ds| - 1]) + (if ds[|ds| - 1].DrawnLabel? then [ds[|ds| - 1]] else [])
  }

  /** Reference: the marks of the ticks whose category has visible marks, in tick order. */
  function MarkSequence(style: AxisStyle, edge: Edge, cursor: real, valueToJava2D: real -> real, ticks: seq<Tick>): seq<Segment>
    decreases |ticks|
  {
    if ticks == [] then []
    else
      var t := ticks[|ticks| - 1];
      MarkSequence(style, edge, cursor, valueToJava2D, ticks[..|ticks| - 1])
      + (if TickMarkVisible(style, t.tickType) then [TickMarkFor(style, edge, cursor, valueToJava2D, t)] else [])
  }

  /** Reference: the labels that pass the visibility filter, in tick order. */
  function LabelSequence(mode: TickLabelPosition, edge: Edge, dataArea: Rect, env: Collaborators, ticks: seq<Tick>): seq<Drawing>
    decreases |ticks|
  {
    if ticks == [] then []
    else LabelSequence(mode, edge, dataArea, env, ticks[..|ticks| - 1]) + LabelDrawings(mode, edge, dataArea, env, ticks[|ticks| - 1])
  }

  lemma {:induction false} MarksAppend(a: seq<Drawing>, b: seq<Drawing>)
    ensures Marks(a + b) == Marks(a) + Marks(b)
    decreases |b|
  {
    if b != [] {
      assert (a + b)[..|a + b| - 1] == a + b[..|b| - 1];
      MarksAppend(a, b[..|b| - 1]);
    } else {
      assert a + b == a;
    }
  }

  lemma {:induction false} LabelsAppend(a: seq<Drawing>, b: seq<Drawing>)
    ensures Labels(a + b) == Labels(a) + Labels(b)
    decreases |b|
  {
    if b != [] {
      assert (a + b)[..|a + b| - 1] == a + b[..|b| - 1];
      LabelsAppend(a, b[..|b| - 1]);
    } else {
      assert a + b == a;
    }
  }

  /** Rendering two runs of ticks one after the other draws the first run's drawings, then the second's. */
  lemma {:induction false} RenderingAppend(pass: Pass, a: seq<Tick>, b: seq<Tick>)
    ensures Rendering(pass, a + b) == Rendering(pass, a) + Rendering(pass, b)
    decreases |b|
  {
    if b != [] {
      assert (a + b)[..|a + b| - 1] == a + b[..|b| - 1];
      RenderingAppend(pass, a, b[..|b| - 1]);
    } else {
      assert a + b == a;
    }
  }

  /** The marks a pass draws are the reference marks: independent of placement, labels and text bounds. */
  lemma {:induction false} MarksOfRendering(pass: Pass, ticks: seq<Tick>)
    ensures Marks(Rendering(pass, ticks)) == MarkSequence(pass.style, pass.edge, pass.cursor, pass.env.valueToJava2D, ticks)
    decreases |ticks|
  {
    if ticks != [] {
      var init, t := ticks[..|ticks| - 1], ticks[|ticks| - 1];
      MarksOfRendering(pass, init);
      var labels := if pass.style.tickLabelsVisible then LabelDrawings(pass.mode, pass.edge, pass.dataArea, pass.env, t) else [];
      var marks := MarkDrawings(pass.style, pass.edge, pass.cursor, pass.env.valueToJava2D, t);
      MarksAppend(Rendering(pass, init), labels + marks);
      MarksAppend(labels, marks);
      assert Marks(labels) == [] by {
        if labels != [] {
          assert labels[..0] == [];
        }
      }
      assert marks != [] ==> marks[..0] == [];
    }
  }

  /** The labels a pass draws are the reference labels when labels are visible, and none otherwise. */
  lemma {:induction false} LabelsOfRendering(pass: Pass, ticks: seq<Tick>)
    ensures Labels(Rendering(pass, ticks))
         == if pass.style.tickLabelsVisible then LabelSequence(pass.mode, pass.edge, pass.dataArea, pass.env, ticks) else []
    decreases |ticks|
  {
    if ticks != [] {
      var init, t := ticks[..|ticks| - 1], ticks[|ticks| - 1];
      LabelsOfRendering(pass, init);
      var labels := if pass.style.tickLabelsVisible then LabelDrawings(pass.mode, pass.edge, pass.dataArea, pass.env, t) else [];
      var marks := MarkDrawings(pass.style, pass.edge, pass.cursor, pass.env.valueToJava2D, t);
      LabelsAppend(Rendering(pass, init), labels + marks);
      LabelsAppend(labels, marks);
      assert Labels(marks) == [] by {
        if marks != [] {
          assert marks[..0] == [];
        }
      }
      assert labels != [] ==> labels[..0] == [];
    }
  }

  /** With tick labels hidden a pass draws tick marks only. */
  lemma {:induction false} HiddenLabelsDrawOnlyMarks(pass: Pass, ticks: seq<Tick>)
    requires !pass.style.tickLabelsVisible
    ensures forall d :: d in Rendering(pass, ticks) ==> d.DrawnMark?
    decreases |ticks|
  {
    if ticks != [] {
      HiddenLabelsDrawOnlyMarks(pass, ticks[..|ticks| - 1]);
    }
  }

  /** The reference marks do not read the label visibility flag. */
  lemma {:induction false} MarkSequenceIgnoresLabelFlag(style: AxisStyle, labelsVisible: bool, edge: Edge, cursor: real,
                                                        valueToJava2D: real -> real, ticks: seq<Tick>)
    ensures MarkSequence(style.(tickLabelsVisible := labelsVisible), edge, cursor, valueToJava2D, ticks)
         == MarkSequence(style, edge, cursor, valueToJava2D, ticks)
    decreases |ticks|
  {
    if ticks != [] {
      MarkSequenceIgnoresLabelFlag(style, labelsVisible, edge, cursor, valueToJava2D, ticks[..|ticks| - 1]);
    }
  }

  /**
   * The tick marks do not change when the label placement or the label
   * visibility changes: marks always sit at the unshifted tick pixels.
   */
  lemma TickMarksIgnoreLabels(pass: Pass, mode: TickLabelPosition, labelsVisible: bool, ticks: seq<Tick>)
    ensures Marks(Rendering(pass.(mode := mode, style := pass.style.(tickLabelsVisible := labelsVisible)), ticks))
         == Marks(Rendering(pass, ticks))
  {
    MarksOfRendering(pass, ticks);
    MarksOfRendering(pass.(mode := mode, style := pass.style.(tickLabelsVisible := labelsVisible)), ticks);
    MarkSequenceIgnoresLabelFlag(pass.style, labelsVisible, pass.edge, pass.cursor, pass.env.valueToJava2D, ticks);
  }

  /** When every tick has a visible mark, the k-th mark crosses the axis at the pixel of the k-th tick. */
  lemma {:induction false} MarksAtTickPixels(style: AxisStyle, edge: Edge, cursor: real, valueToJava2D: real -> real, ticks: seq<Tick>)
    requires forall k :: 0 <= k < |ticks| ==> TickMarkVisible(style, ticks[k].tickType)
    ensures |MarkSequence(style, edge, cursor, valueToJava2D, ticks)| == |ticks|
    ensures forall k :: 0 <= k < |ticks| ==>
              var m := MarkSequence(style, edge, cursor, valueToJava2D, ticks)[k];
              Along(edge, m.from) == valueToJava2D(ticks[k].value) && Along(edge, m.to) == valueToJava2D(ticks[k].value)
    decreases |ticks|
  {
    if ticks != [] {
      var init := ticks[..|ticks| - 1];
      assert forall k :: 0 <= k < |init| ==> init[k] == ticks[k];
      MarksAtTickPixels(style, edge, cursor, valueToJava2D, init);
    }
  }

  /** When every label passes the filter, the k-th label is the k-th tick's text at the k-th tick's anchor. */
  lemma {:induction false} LabelsAtAnchors(mode: TickLabelPosition, edge: Edge, dataArea: Rect, env: Collaborators, ticks: seq<Tick>)
    requires forall k :: 0 <= k < |ticks| ==>
               ShouldDrawLabel(edge, env.rotatedBounds(ticks[k], LabelAnchor(mode, edge, env, ticks[k])), dataArea)
    ensures |LabelSequence(mode, edge, dataArea, env, ticks)| == |ticks|
    ensures forall k :: 0 <= k < |ticks| ==>
              LabelSequence(mode, edge, dataArea, env, ticks)[k] == DrawnLabel(ticks[k].text, LabelAnchor(mode, edge, env, ticks[k]))
    decreases |ticks|
  {
    if ticks != [] {
      var init := ticks[..|ticks| - 1];
      assert forall k :: 0 <= k < |init| ==> init[k] == ticks[k];
      LabelsAtAnchors(mode, edge, dataArea, env, init);
    }
  }

  /** A label overflowing by exactly the tolerance is drawn; one overflowing by a little more is not. */
  lemma ToleranceBoundary()
    ensures ShouldDrawLabel(Bottom, Rect(90.0, 410.0, 20.0, 12.0), Rect(0.0, 0.0, 105.0, 400.0))
    ensures !ShouldDrawLabel(Bottom, Rect(90.0, 410.0, 20.0001, 12.0), Rect(0.0, 0.0, 105.0, 400.0))
    ensures ShouldDrawLabel(Left, Rect(10.0, 395.0, 30.0, 10.0), Rect(50.0, 0.0, 500.0, 400.0))
    ensures !ShouldDrawLabel(Left, Rect(10.0, 395.0, 30.0, 10.0001), Rect(50.0, 0.0, 500.0, 400.0))
  {
  }

  /** One day per 100 pixels along a bottom axis at y = 400, with labels 20 by 12 pixels. */
  function DailyBottomAxis(): Collaborators {
    Collaborators(
      (t: Tick) => Point(100.0 * t.value, 404.0),
      (v: real) => 100.0 * v,
      (v: real) => v + 1.0,
      (t: Tick, p: Point) => Rect(p.x - 10.0, p.y, 20.0, 12.0),
      20.0,
      12.0)
  }

  /**
   * A bottom axis with ticks on days 1, 2 and 3 (pixels 100, 200 and 300) in
   * interval-middle placement: labels at x = 125, 225 and 325 with y kept, marks
   * at x = 100, 200 and 300, and the cursor moved down by the label height.
   */
  lemma MiddlePlacementScenario()
    ensures
      var style := AxisStyle(true, true, false, 0.0, 2.0, 0.0, 2.0);
      var pass := Pass(IntervalMiddle, style, Bottom, 400.0, Rect(0.0, 0.0, 1000.0, 400.0), DailyBottomAxis());
      var ticks := [Tick(1.0, "d1", Major), Tick(2.0, "d2", Major), Tick(3.0, "d3", Major)];
      && Labels(Rendering(pass, ticks)) == [DrawnLabel("d1", Point(125.0, 404.0)),
                                            DrawnLabel("d2", Point(225.0, 404.0)),
                                            DrawnLabel("d3", Point(325.0, 404.0))]
      && |Marks(Rendering(pass, ticks))| == 3
      && Marks(Rendering(pass, ticks))[0].from.x == 100.0
      && Marks(Rendering(pass, ticks))[1].from.x == 200.0
      && Marks(Rendering(pass, ticks))[2].from.x == 300.0
      && CursorAfterLabels(Bottom, 400.0, true, 20.0, 12.0) == 412.0
  {
    var style := AxisStyle(true, true, false, 0.0, 2.0, 0.0, 2.0);
    var env := DailyBottomAxis();
    var pass := Pass(IntervalMiddle, style, Bottom, 400.0, Rect(0.0, 0.0, 1000.0, 400.0), env);
    var ticks := [Tick(1.0, "d1", Major), Tick(2.0, "d2", Major), Tick(3.0, "d3", Major)];
    LabelsOfRendering(pass, ticks);
    LabelsAtAnchors(IntervalMiddle, Bottom, pass.dataArea, env, ticks);
    assert LabelAnchor(IntervalMiddle, Bottom, env, ticks[0]) == Point(125.0, 404.0);
    assert LabelAnchor(IntervalMiddle, Bottom, env, ticks[1]) == Point(225.0, 404.0);
    assert LabelAnchor(IntervalMiddle, Bottom, env, ticks[2]) == Point(325.0, 404.0);
    MarksOfRendering(pass, ticks);
    MarksAtTickPixels(style, Bottom, 400.0, env.valueToJava2D, ticks);
  }
}
