/**
 * The Brain: the robot's latest-value telemetry store (NetworkTables entries),
 * as declared in Brain.java and in the class Main.Brain. Every entry is a key of
 * the store; an entry that was never written reads as unset, and the getters fall
 * back to fixed defaults.
 */
module Telemetry {
  import opened Optional

  /** The three camera mountings, in the order of the `case` labels of every
      camera-position switch. */
  datatype Position = Front | Left | Right

  /** Place of a position among the `case` labels. */
  function Rank(p: Position): nat
  {
    match p
    case Front => 0
    case Left => 1
    case Right => 2
  }

  /** A `switch (camPosition)` whose cases have no `break`, entered at `entry`,
      runs the case for `p` exactly when `p` is at or after `entry`. */
  predicate Reaches(entry: Position, p: Position)
  {
    Rank(entry) <= Rank(p)
  }

  /** The four measurement entries written per camera besides the contour count. */
  datatype LineField = Area | Angle | Xcenter | Ycenter

  /** The six colour-threshold entries tuned by the operator. */
  datatype HsvBound = HueMin | HueMax | SaturationMin | SaturationMax | ValueMin | ValueMax

  datatype Key =
    | CameraName(pos: Position)
    | LineContours(pos: Position)
    | Line(pos: Position, field: LineField)
    | PiTime(pos: Position)
    | Threshold(bound: HsvBound)

  /** An entry holds a double or a string. */
  datatype Value = Number(x: real) | Text(s: string)

  /** The colour-threshold defaults (hueMinDefault ... valueMaxDefault). */
  function ThresholdDefault(b: HsvBound): real
  {
    match b
    case HueMin => 0.0
    case HueMax => 180.0
    case SaturationMin => 0.0
    case SaturationMax => 146.0
    case ValueMin => 232.0
    case ValueMax => 255.0
  }

  /** The declared default of every entry (the `...Default` fields). */
  function Default(k: Key): Value
  {
    match k
    case CameraName(p) =>
      Text(match p case Front => "Front Camera" case Left => "Left Camera" case Right => "Right Camera")
    case LineContours(_) => Number(0.0)
    case Line(_, _) => Number(0.0)
    case PiTime(_) => Number(0.0)
    case Threshold(b) => Number(ThresholdDefault(b))
  }

  /** What the store holds for `k`, or None when the entry is unset. */
  function Lookup(m: map<Key, Value>, k: Key): Option<Value>
  {
    if k in m then Some(m[k]) else None
  }

  /** The entry after a step that writes `w` (or, when `w` is None, leaves `prev`). */
  function Overlay(w: Option<Value>, prev: Option<Value>): Option<Value>
  {
    if w.Some? then w else prev
  }

  /** NetworkTableEntry.getDouble(default): the entry's double, or `default`
      when the entry is unset or holds something other than a double. */
  function ReadDouble(m: map<Key, Value>, k: Key, default: real): (r: real)
  {
    match Lookup(m, k)
    case Some(Number(x)) => x
    case _ => default
  }

  /** Writing a double to one key changes what `ReadDouble` sees at that key only;
      an unset entry or one holding a string reads as the default. */
  lemma ReadAfterWrite(m: map<Key, Value>, k: Key, x: real, t: string, k': Key, default: real)
    ensures k !in m ==> ReadDouble(m, k, default) == default
    ensures ReadDouble(m[k := Text(t)], k, default) == default
    ensures ReadDouble(m[k := Number(x)], k, default) == x
    ensures k' != k ==> ReadDouble(m[k := Number(x)], k', default) == ReadDouble(m, k', default)
  {
  }

  /** Brain.java's defaults: hue 0..180, saturation 0..146, value 232..255. */
  lemma ThresholdDefaults()
    ensures ThresholdDefault(HueMin) == 0.0 && ThresholdDefault(HueMax) == 180.0
    ensures ThresholdDefault(SaturationMin) == 0.0 && ThresholdDefault(SaturationMax) == 146.0
    ensures ThresholdDefault(ValueMin) == 232.0 && ThresholdDefault(ValueMax) == 255.0
  {
  }

  /** Every line-result default (contours, area, angle, centre X, centre Y) is 0 for every camera. */
  lemma LineDefaultsZero(p: Position, f: LineField)
    ensures Default(LineContours(p)) == Number(0.0)
    ensures Default(Line(p, f)) == Number(0.0)
  {
  }

  /** The store: every static NetworkTableEntry of the Brain, keyed by `Key`. */
  class Brain {
    var entries: map<Key, Value>

    /** No entry has been written yet. */
    constructor ()
      ensures entries == map[]
    {
      entries := map[];
    }

    /** setFrontCameraName / setLeftCameraName / setRightCameraName. */
    method SetCameraName(p: Position, value: string)
      modifies this
      ensures entries == old(entries)[CameraName(p) := Text(value)]
    {
      entries := entries[CameraName(p) := Text(value)];
    }

    /** set{Front,Left,Right}LineContours. */
    method SetLineContours(p: Position, value: real)
      modifies this
      ensures entries == old(entries)[LineContours(p) := Number(value)]
    {
      entries := entries[LineContours(p) := Number(value)];
    }

    /** set{Front,Left,Right}Line{Area,Angle,Xcenter,Ycenter}. */
    method SetLine(p: Position, f: LineField, value: real)
      modifies this
      ensures entries == old(entries)[Line(p, f) := Number(value)]
    {
      entries := entries[Line(p, f) := Number(value)];
    }

    /** set{Front,Left,Right}PiTime (Main.Brain only). */
    method SetPiTime(p: Position, value: real)
      modifies this
      ensures entries == old(entries)[PiTime(p) := Number(value)]
    {
      entries := entries[PiTime(p) := Number(value)];
    }

    /** getHueMin ... getValueMax: the entry's double, or its default. */
    function GetThreshold(b: HsvBound): (r: real)
      reads this
      ensures Threshold(b) !in entries ==> r == ThresholdDefault(b)
      ensures Threshold(b) in entries && entries[Threshold(b)].Number? ==> r == entries[Threshold(b)].x
      ensures Threshold(b) in entries && entries[Threshold(b)].Text? ==> r == ThresholdDefault(b)
    {
      ReadDouble(entries, Threshold(b), ThresholdDefault(b))
    }
  }
}
