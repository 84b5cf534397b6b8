/**
 * The frame callback that Main.startLineDetection hands to its VisionThread, and
 * the 120x160 reference frame and `minimumArea` of Main.java.
 */
module MainDetection {
  import opened Optional
  import opened Geometry
  import opened Telemetry
  import opened Pipeline
  import opened Detection

  /** Main.Quadrant's totalWidth and totalHeight. */
  const MainFrame := Frame(120, 160)

  /** `(Quadrant.totalHeight / 3) ^ 2` in main is 53 XOR 2 = 55, not 53 * 53. */
  lemma MainMinimumArea()
    ensures MinimumArea(MainFrame.totalHeight) == 55
    ensures MinimumArea(MainFrame.totalHeight) != (MainFrame.totalHeight / 3) * (MainFrame.totalHeight / 3)
  {
    assert MainFrame.totalHeight / 3 == 53;
  }

  /** The midlines of the 120x160 frame belong to the upper left quadrant. */
  lemma MainQuadrantBoundary()
    ensures GetQuadrant(MainFrame, 60.0, 80.0) == UpperLeft
    ensures GetQuadrant(MainFrame, 61.0, 80.0) == UpperRight
    ensures GetQuadrant(MainFrame, 60.0, 81.0) == LowerLeft
    ensures GetQuadrant(MainFrame, 61.0, 81.0) == LowerRight
  {
  }

  /** What the name-and-time switch at the top of the callback, entered at `pos`,
      leaves in entry `k` (None: not written). Every case writes the FRONT
      camera's name entry and the RIGHT case runs last, so that entry ends as "Right". */
  function NameAndTimeWrite(pos: Position, elapsedTime: real, k: Key): Option<Value>
  {
    match k
    case CameraName(q) => if q == Front then Some(Text("Right")) else None
    case PiTime(q) => if Reaches(pos, q) then Some(Number(elapsedTime)) else None
    case _ => None
  }

  /** What one frame of Main's callback, entered at `pos`, leaves in entry `k`. */
  function MainWrite(pos: Position, elapsedTime: real, output: seq<Contour>, minimumArea: real, k: Key): Option<Value>
  {
    if k.CameraName? || k.PiTime? then NameAndTimeWrite(pos, elapsedTime, k)
    else LineWrite(pos, output, minimumArea, MainFrame, k)
  }

  /** The name-and-time switch. */
  method SetNameAndTime(brain: Brain, camPosition: Position, elapsedTime: real)
    modifies brain
    ensures forall k ::
              Lookup(brain.entries, k) ==
              Overlay(NameAndTimeWrite(camPosition, elapsedTime, k), Lookup(old(brain.entries), k))
  {
    if Reaches(camPosition, Front) {
      brain.SetCameraName(Front, "Front");
      brain.SetPiTime(Front, elapsedTime);
    }
    if Reaches(camPosition, Left) {
      brain.SetCameraName(Front, "Left");
      brain.SetPiTime(Left, elapsedTime);
    }
    brain.SetCameraName(Front, "Right");
    brain.SetPiTime(Right, elapsedTime);
  }

  /** One frame: the name-and-time switch, then the contour count and either the
      measurement, nothing, or the defaults, all through fall-through switches. */
  method OnFrame(brain: Brain, pipeline: LinePipeline, camPosition: Position, minimumArea: real, elapsedTime: real)
    modifies brain
    ensures forall k ::
              Lookup(brain.entries, k) ==
              Overlay(MainWrite(camPosition, elapsedTime, pipeline.filterContoursOutput, minimumArea, k),
                      Lookup(old(brain.entries), k))
  {
    SetNameAndTime(brain, camPosition, elapsedTime);
    var output := pipeline.filterContoursOutput;
    PublishLine(brain, camPosition, output, minimumArea, MainFrame);
    forall k: Key
      ensures Lookup(brain.entries, k) ==
              Overlay(MainWrite(camPosition, elapsedTime, output, minimumArea, k), Lookup(old(brain.entries), k))
    {
      assert k.CameraName? || k.PiTime? ==> LineWrite(camPosition, output, minimumArea, MainFrame, k) == None;
      assert !(k.CameraName? || k.PiTime?) ==> NameAndTimeWrite(camPosition, elapsedTime, k) == None;
    }
  }

  /** Whatever the camera position, the front camera's name entry ends as
      "Right", and the left and right name entries are never written. */
  lemma FrontNameEndsRight(pos: Position, elapsedTime: real, output: seq<Contour>, minimumArea: real, prev: Option<Value>)
    ensures Overlay(MainWrite(pos, elapsedTime, output, minimumArea, CameraName(Front)), prev) == Some(Text("Right"))
    ensures Overlay(MainWrite(pos, elapsedTime, output, minimumArea, CameraName(Left)), prev) == prev
    ensures Overlay(MainWrite(pos, elapsedTime, output, minimumArea, CameraName(Right)), prev) == prev
  {
  }

  /** The pi-time switch falls through as the others do: FRONT stamps all three
      cameras, LEFT left and right, RIGHT right only. */
  lemma PiTimeFallThrough(pos: Position, elapsedTime: real, output: seq<Contour>, minimumArea: real, q: Position)
    ensures MainWrite(pos, elapsedTime, output, minimumArea, PiTime(q)) ==
            if Reaches(pos, q) then Some(Number(elapsedTime)) else None
    ensures pos == Front ==> MainWrite(pos, elapsedTime, output, minimumArea, PiTime(q)).Some?
    ensures pos == Right ==> (MainWrite(pos, elapsedTime, output, minimumArea, PiTime(q)).Some? <==> q == Right)
  {
  }

  /** A single contour below the area gate: only the names, times and contour
      counts change; area, angle and centre keep their earlier values. */
  lemma MainBelowGate(pos: Position, elapsedTime: real, output: seq<Contour>, minimumArea: real, k: Key)
    requires |output| == 1 && SizeArea(output[0].minAreaRect.size) < minimumArea
    requires MainWrite(pos, elapsedTime, output, minimumArea, k).Some?
    ensures k.CameraName? || k.PiTime? || k.LineContours?
  {
  }

  /** A frame from the FRONT camera overwrites the left and right cameras'
      results with its own measurement. */
  lemma FrontOverwritesOthers(elapsedTime: real, output: seq<Contour>, minimumArea: real, f: LineField)
    requires Accepted(output, minimumArea)
    ensures MainWrite(Front, elapsedTime, output, minimumArea, Line(Left, f)) ==
            MainWrite(Front, elapsedTime, output, minimumArea, Line(Front, f))
    ensures MainWrite(Front, elapsedTime, output, minimumArea, Line(Right, f)) ==
            MainWrite(Front, elapsedTime, output, minimumArea, Line(Front, f))
    ensures MainWrite(Front, elapsedTime, output, minimumArea, Line(Front, f)).Some?
  {
  }
}
