/**
 * Vision.java: a detector object bound to one camera position at construction,
 * its 240x320 reference frame, its `minimumArea`, and its frame callback, which
 * writes only through the line switches (no camera name, no time stamp).
 */
module VisionDetection {
  import opened Optional
  import opened Geometry
  import opened Telemetry
  import opened Pipeline
  import opened Detection

  /** Vision.Quadrant's totalWidth and totalHeight. */
  const VisionFrame := Frame(240, 320)

  /** The `minimumArea` startLineDetection computes: (320 / 3) ^ 2. */
  const VisionMinimumArea: real := MinimumArea(VisionFrame.totalHeight) as real

  /** (320 / 3) XOR 2 is 106 XOR 2 = 104. */
  lemma VisionMinimumAreaIs104()
    ensures MinimumArea(VisionFrame.totalHeight) == 104
    ensures VisionMinimumArea == 104.0
  {
    assert VisionFrame.totalHeight / 3 == 106;
  }

  /** In the 240x320 frame (120, 160) is upper left and (121, 161) lower right. */
  lemma VisionQuadrantBoundary()
    ensures GetQuadrant(VisionFrame, 120.0, 160.0) == UpperLeft
    ensures GetQuadrant(VisionFrame, 121.0, 161.0) == LowerRight
  {
  }

  class Vision {
    var camPosition: Position

    /** Vision(position): the position picks the entry case of every switch. */
    constructor (position: Position)
      ensures camPosition == position
    {
      camPosition := position;
    }

    /** The callback of startLineDetection for one frame. */
    method OnFrame(brain: Brain, pipeline: LinePipeline)
      modifies brain
      ensures forall k ::
                Lookup(brain.entries, k) ==
                Overlay(LineWrite(camPosition, pipeline.filterContoursOutput, VisionMinimumArea, VisionFrame, k),
                        Lookup(old(brain.entries), k))
    {
      var output := pipeline.filterContoursOutput;
      PublishLine(brain, camPosition, output, VisionMinimumArea, VisionFrame);
    }
  }

  /** Vision's callback writes no camera name, no time stamp and no threshold. */
  lemma VisionWritesOnlyLineEntries(pos: Position, output: seq<Contour>, k: Key)
    requires LineWrite(pos, output, VisionMinimumArea, VisionFrame, k).Some?
    ensures k.LineContours? || k.Line?
    ensures Reaches(pos, k.pos)
  {
  }

  /** A single contour whose rectangle is below 104 square pixels: only the
      contour-count entries are written. */
  lemma VisionBelowGateOnlyCounts(pos: Position, output: seq<Contour>, k: Key)
    requires |output| == 1 && SizeArea(output[0].minAreaRect.size) < 104.0
    requires LineWrite(pos, output, VisionMinimumArea, VisionFrame, k).Some?
    ensures k.LineContours?
  {
    VisionMinimumAreaIs104();
  }

  /** The example of a single 50x50 square at (10, 170) with raw angle -30: its area
      2500 passes the gate, its centre (35, 195) lies in the lower left, and the
      angle is kept because it is already negative. */
  lemma SquareExample(rest: Contour)
    requires rest.minAreaRect == RotatedRect(Size(50.0, 50.0), -30.0, Rect(10, 170, 50, 50))
    ensures Accepted([rest], VisionMinimumArea)
    ensures LineWrite(Right, [rest], VisionMinimumArea, VisionFrame, Line(Right, Area)) == Some(Number(2500.0))
    ensures LineWrite(Right, [rest], VisionMinimumArea, VisionFrame, Line(Right, Xcenter)) == Some(Number(35.0))
    ensures LineWrite(Right, [rest], VisionMinimumArea, VisionFrame, Line(Right, Angle)) == Some(Number(-30.0))
  {
    VisionMinimumAreaIs104();
    var r := rest.minAreaRect;
    assert Center(r) == (35, 195);
    assert GetQuadrant(VisionFrame, 35.0, 195.0) == LowerLeft;
  }
}
