/**
 * The line-detection decision both frame callbacks (Main.startLineDetection's
 * and Vision.startLineDetection's) make: the "exactly one contour" gate, the
 * `minimumArea` gate on the rotated rectangle, the centre and angle of a
 * detection, the default values of the no-candidate path, and the
 * camera-position switches that fall through from case to case.
 */
module Detection {
  import opened Optional
  import opened Geometry
  import opened Telemetry
  import opened Pipeline

  /** What a detection publishes besides the contour count. */
  datatype Measurement = Measurement(area: real, angle: real, centerX: int, centerY: int)

  /** The centre of the rotated rectangle's bounding box, by integer halving. */
  function Center(r: RotatedRect): (c: (int, int))
    ensures r.boundRect.x <= c.0 <= r.boundRect.x + r.boundRect.width
    ensures r.boundRect.y <= c.1 <= r.boundRect.y + r.boundRect.height
    ensures 2 * (c.0 - r.boundRect.x) <= r.boundRect.width < 2 * (c.0 - r.boundRect.x) + 2
    ensures 2 * (c.1 - r.boundRect.y) <= r.boundRect.height < 2 * (c.1 - r.boundRect.y) + 2
  {
    (r.boundRect.x + r.boundRect.width / 2, r.boundRect.y + r.boundRect.height / 2)
  }

  /** The measurement of a single accepted contour, its angle normalised by the
      quadrant of its centre within `frame`. */
  function Measure(r: RotatedRect, frame: Frame): Measurement
  {
    var (cx, cy) := Center(r);
    Measurement(SizeArea(r.size), NormalizeAngle(GetQuadrant(frame, cx as real, cy as real), CorrectedAngle(r)), cx, cy)
  }

  function FieldOf(m: Measurement, f: LineField): real
  {
    match f
    case Area => m.area
    case Angle => m.angle
    case Xcenter => m.centerX as real
    case Ycenter => m.centerY as real
  }

  /** The single candidate's rotated rectangle is large enough to publish. */
  predicate Accepted(output: seq<Contour>, minimumArea: real)
  {
    |output| == 1 && SizeArea(output[0].minAreaRect.size) >= minimumArea
  }

  /** What one frame leaves in entry `k` through the contour-count, measurement and
      default writes of a callback entered at `pos` (None: the entry is not written). */
  function LineWrite(pos: Position, output: seq<Contour>, minimumArea: real, frame: Frame, k: Key): Option<Value>
  {
    match k
    case LineContours(q) =>
      if Reaches(pos, q) then Some(Number(|output| as real)) else None
    case Line(q, f) =>
      if !Reaches(pos, q) then None
      else if |output| != 1 then Some(Default(k))
      else if Accepted(output, minimumArea) then Some(Number(FieldOf(Measure(output[0].minAreaRect, frame), f)))
      else None
    case _ => None
  }

  /** The fall-through switches write the contour count of exactly the positions at
      or after the entry point: FRONT all three, LEFT left and right, RIGHT right only. */
  lemma FallThroughTargets(pos: Position, output: seq<Contour>, minimumArea: real, frame: Frame, q: Position)
    ensures LineWrite(pos, output, minimumArea, frame, LineContours(q)).Some? <==> Reaches(pos, q)
    ensures Reaches(Front, q)
    ensures Reaches(Left, q) <==> q != Front
    ensures Reaches(Right, q) <==> q == Right
  {
  }

  /** The contour count always records the size of the filtered list. */
  lemma ContourCountPublished(pos: Position, output: seq<Contour>, minimumArea: real, frame: Frame)
    ensures LineWrite(pos, output, minimumArea, frame, LineContours(pos)) == Some(Number(|output| as real))
  {
  }

  /** Zero or several candidates: area, angle and centre are reset to their
      defaults, which are all 0. */
  lemma NoCandidateDefaults(pos: Position, output: seq<Contour>, minimumArea: real, frame: Frame, q: Position, f: LineField)
    requires |output| != 1 && Reaches(pos, q)
    ensures LineWrite(pos, output, minimumArea, frame, Line(q, f)) == Some(Number(0.0))
  {
  }

  /** One candidate below the area gate: area, angle and centre are not written
      at all, so every such entry keeps its value from an earlier frame. */
  lemma BelowGateKeepsStale(pos: Position, output: seq<Contour>, minimumArea: real, frame: Frame,
                            k: Key, prev: Option<Value>)
    requires |output| == 1 && SizeArea(output[0].minAreaRect.size) < minimumArea
    requires !k.LineContours?
    ensures Overlay(LineWrite(pos, output, minimumArea, frame, k), prev) == prev
  {
  }

  /** One candidate at or above the gate: the entries of every reached position
      hold the rectangle's area, the integer-halved centre and the corrected,
      quadrant-normalised angle. */
  lemma DetectionPublished(pos: Position, output: seq<Contour>, minimumArea: real, frame: Frame, q: Position)
    requires Accepted(output, minimumArea) && Reaches(pos, q)
    ensures var r := output[0].minAreaRect;
      && LineWrite(pos, output, minimumArea, frame, Line(q, Area)) == Some(Number(r.size.width * r.size.height))
      && LineWrite(pos, output, minimumArea, frame, Line(q, Xcenter)) == Some(Number((r.boundRect.x + r.boundRect.width / 2) as real))
      && LineWrite(pos, output, minimumArea, frame, Line(q, Ycenter)) == Some(Number((r.boundRect.y + r.boundRect.height / 2) as real))
      && LineWrite(pos, output, minimumArea, frame, Line(q, Angle)) ==
         Some(Number(NormalizeAngle(
           GetQuadrant(frame, (r.boundRect.x + r.boundRect.width / 2) as real, (r.boundRect.y + r.boundRect.height / 2) as real),
           if r.size.width < r.size.height then r.angle + 90.0 else r.angle)))
  {
    var r := output[0].minAreaRect;
    var m := Measure(r, frame);
    assert m.area == r.size.width * r.size.height;
    assert m.centerX == r.boundRect.x + r.boundRect.width / 2;
    assert m.centerY == r.boundRect.y + r.boundRect.height / 2;
  }

  /** The ambiguity policy is unconditional: two filtered lists of the same length
      other than 1 publish the same values, whatever their contours look like. */
  lemma AmbiguityIgnoresGeometry(pos: Position, a: seq<Contour>, b: seq<Contour>, minimumArea: real, frame: Frame, k: Key)
    requires |a| == |b| && |a| != 1
    ensures LineWrite(pos, a, minimumArea, frame, k) == LineWrite(pos, b, minimumArea, frame, k)
  {
  }

  /** The setters of one case of the result switch (`values` is the measurement)
      or of the default switch (`values` holds the defaults). */
  method SetMeasurement(brain: Brain, q: Position, values: Measurement)
    modifies brain
    ensures forall k ::
              Lookup(brain.entries, k) ==
              if k.Line? && k.pos == q then Some(Number(FieldOf(values, k.field))) else Lookup(old(brain.entries), k)
  {
    brain.SetLine(q, Area, values.area);
    brain.SetLine(q, Angle, values.angle);
    brain.SetLine(q, Xcenter, values.centerX as real);
    brain.SetLine(q, Ycenter, values.centerY as real);
  }

  /** The writes of a measurement switch entered at `pos`. */
  function MeasurementWrite(pos: Position, values: Measurement, k: Key): Option<Value>
  {
    if k.Line? && Reaches(pos, k.pos) then Some(Number(FieldOf(values, k.field))) else None
  }

  /** A measurement switch, falling through from `pos` to RIGHT. */
  method SetMeasurementFrom(brain: Brain, pos: Position, values: Measurement)
    modifies brain
    ensures forall k ::
              Lookup(brain.entries, k) ==
              Overlay(MeasurementWrite(pos, values, k), Lookup(old(brain.entries), k))
  {
    if Reaches(pos, Front) { SetMeasurement(brain, Front, values); }
    if Reaches(pos, Left) { SetMeasurement(brain, Left, values); }
    SetMeasurement(brain, Right, values);
  }

  /** The contour-count switch, falling through from `pos` to RIGHT. */
  method SetContoursFrom(brain: Brain, pos: Position, outputSize: nat)
    modifies brain
    ensures forall k ::
              Lookup(brain.entries, k) ==
              if k.LineContours? && Reaches(pos, k.pos) then Some(Number(outputSize as real)) else Lookup(old(brain.entries), k)
  {
    if Reaches(pos, Front) { brain.SetLineContours(Front, outputSize as real); }
    if Reaches(pos, Left) { brain.SetLineContours(Left, outputSize as real); }
    brain.SetLineContours(Right, outputSize as real);
  }

  /** The defaults, as a measurement: every line default is 0. */
  const Defaults := Measurement(0.0, 0.0, 0, 0)

  lemma DefaultsAreDeclared(q: Position, f: LineField)
    ensures Default(Line(q, f)) == Number(FieldOf(Defaults, f))
  {
  }

  /** The part of a frame callback from `output.size()` on: the contour-count
      switch, then either the measurement switch (one accepted candidate), nothing
      (one candidate below the gate), or the default switch. Every switch falls
      through from `pos` to RIGHT. */
  method PublishLine(brain: Brain, pos: Position, output: seq<Contour>, minimumArea: real, frame: Frame)
    modifies brain
    ensures forall k ::
              Lookup(brain.entries, k) ==
              Overlay(LineWrite(pos, output, minimumArea, frame, k), Lookup(old(brain.entries), k))
  {
    var outputSize := |output|;
    SetContoursFrom(brain, pos, outputSize);
    if outputSize == 1 {
      var rotRect := output[0].minAreaRect;
      var area := SizeArea(rotRect.size);
      if area >= minimumArea {
        var boundRect := rotRect.boundRect;
        var centerX := boundRect.x + boundRect.width / 2;
        var centerY := boundRect.y + boundRect.height / 2;
        var angle := rotRect.angle;
        if rotRect.size.width < rotRect.size.height {
          angle := 90.0 + angle;
        }
        var centerQuad := GetQuadrant(frame, centerX as real, centerY as real);
        match centerQuad {
          case UpperLeft =>
          case UpperRight =>
          case LowerLeft => if angle > 0.0 { angle := angle - 180.0; }
          case LowerRight => if angle < 0.0 { angle := angle + 180.0; }
        }
        assert Measure(rotRect, frame) == Measurement(area, angle, centerX, centerY);
        SetMeasurementFrom(brain, pos, Measurement(area, angle, centerX, centerY));
      }
    } else {
      SetMeasurementFrom(brain, pos, Defaults);
    }
  }
}
