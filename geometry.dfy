/**
 * The OpenCV geometry the line detector consumes (Rect, RotatedRect) and the pure
 * rules applied to it: the quadrant classification of Main.Quadrant and
 * Vision.Quadrant, the angle normalisation by quadrant, and the `minimumArea`
 * gate computed from a frame's height.
 */
module Geometry {

  /** A non-negative Java `int`. */
  type JavaNat = n: nat | n < 0x8000_0000

  /** org.opencv.core.Rect as produced by boundingRect(); OpenCV never yields a
      negative width or height. */
  datatype Rect = Rect(x: int, y: int, width: nat, height: nat)

  /** org.opencv.core.Size. */
  datatype Size = Size(width: real, height: real)

  /** Size.area(). */
  function SizeArea(s: Size): real
  {
    s.width * s.height
  }

  /** The result of Imgproc.minAreaRect, reduced to what the detector reads:
      its size, its raw angle in degrees and its boundingRect(). */
  datatype RotatedRect = RotatedRect(size: Size, angle: real, boundRect: Rect)

  /** The fixed reference frame of a Quadrant enum (its static totalWidth and totalHeight). */
  datatype Frame = Frame(totalWidth: JavaNat, totalHeight: JavaNat)

  datatype Quadrant = UpperLeft | UpperRight | LowerLeft | LowerRight
  {
    predicate IsUpper() { this == UpperLeft || this == UpperRight }
    predicate IsLeft() { this == UpperLeft || this == LowerLeft }
  }

  /** Quadrant.getQuadrant: the halves are Java integer divisions and both tests
      are inclusive, so the midlines belong to the upper and the left side. */
  function GetQuadrant(frame: Frame, x: real, y: real): (q: Quadrant)
    ensures q.IsUpper() <==> y <= (frame.totalHeight / 2) as real
    ensures q.IsLeft() <==> x <= (frame.totalWidth / 2) as real
  {
    var isUpper := y <= (frame.totalHeight / 2) as real;
    var isLeft := x <= (frame.totalWidth / 2) as real;
    if isUpper then
      if isLeft then UpperLeft else UpperRight
    else
      if isLeft then LowerLeft else LowerRight
  }

  /** The raw angle, turned by 90 degrees when the rectangle is taller than wide. */
  function CorrectedAngle(r: RotatedRect): (a: real)
    // the correction never turns the angle back, and by less than half a turn
    ensures r.angle <= a <= r.angle + 90.0
    // a raw minAreaRect angle in [-90, 0) stays within a half turn around 0
    ensures -90.0 <= r.angle < 0.0 ==> -90.0 <= a < 90.0
  {
    if r.size.width < r.size.height then 90.0 + r.angle else r.angle
  }

  /** The quadrant switch of the detector: in the lower left a positive angle is
      moved down by 180 degrees, in the lower right a negative one up by 180, and
      the upper quadrants keep the angle. */
  function NormalizeAngle(q: Quadrant, angle: real): (r: real)
    // the line's orientation (its angle modulo 180) is kept
    ensures r == angle || r == angle - 180.0 || r == angle + 180.0
    ensures q.IsUpper() ==> r == angle
    // the lower left ends non-positive and the lower right non-negative
    ensures q == LowerLeft && angle <= 180.0 ==> r <= 0.0
    ensures q == LowerRight && angle >= -180.0 ==> r >= 0.0
    // an angle already of the right sign is left alone
    ensures q == LowerLeft && angle <= 0.0 ==> r == angle
    ensures q == LowerRight && angle >= 0.0 ==> r == angle
  {
    match q
    case UpperLeft => angle
    case UpperRight => angle
    case LowerLeft => if angle > 0.0 then angle - 180.0 else angle
    case LowerRight => if angle < 0.0 then angle + 180.0 else angle
  }

  /** Angle continuity: mirror-image angles in the two lower quadrants come out
      with opposite signs and equal magnitude. */
  lemma MirrorSymmetry(angle: real)
    ensures NormalizeAngle(LowerLeft, angle) == -NormalizeAngle(LowerRight, -angle)
  {
  }

  /** For a raw minAreaRect angle in [-90, 0), the normalised angle lies in
      (-180, 0] in the lower left and in [0, 180) in the lower right, and in
      [-90, 90) above the midline. */
  lemma NormalizedRange(r: RotatedRect, q: Quadrant)
    requires -90.0 <= r.angle < 0.0
    ensures -90.0 <= CorrectedAngle(r) < 90.0
    ensures q.IsUpper() ==> -90.0 <= NormalizeAngle(q, CorrectedAngle(r)) < 90.0
    ensures q == LowerLeft ==> -180.0 < NormalizeAngle(q, CorrectedAngle(r)) <= 0.0
    ensures q == LowerRight ==> 0.0 <= NormalizeAngle(q, CorrectedAngle(r)) < 180.0
  {
  }

  /** Java's `^` on two non-negative ints: bitwise exclusive or, one binary
      digit at a time from the least significant one. */
  function Xor(a: nat, b: nat): nat
    decreases a + b
  {
    if a == 0 && b == 0 then 0 else 2 * Xor(a / 2, b / 2) + (a + b) % 2
  }

  /** Java's `(totalHeight / 3) ^ 2`: integer division, then bitwise XOR with 2
      (not squaring). */
  function MinimumArea(totalHeight: JavaNat): (r: nat)
    ensures r < 0x8000_0000
    // XOR with 2 moves a third of the height by exactly 2, one way or the other
    ensures (totalHeight / 3) % 4 < 2 ==> r == totalHeight / 3 + 2
    ensures (totalHeight / 3) % 4 >= 2 ==> r == totalHeight / 3 - 2
  {
    XorTwo(totalHeight / 3);
    Xor(totalHeight / 3, 2)
  }

  /** XOR with 0 changes nothing. */
  lemma {:induction false} XorZero(a: nat)
    ensures Xor(a, 0) == a
  {
    if a > 0 {
      XorZero(a / 2);
    }
  }

  /** XOR with 2 only flips bit 1: it adds 2 when that bit is clear and subtracts
      2 when it is set. */
  lemma XorTwo(a: nat)
    ensures Xor(a, 2) == if a % 4 < 2 then a + 2 else a - 2
  {
    var q := a / 4;
    XorZero(q);
    // the two lowest binary digits of a, and a / 2 = 2 * q + the second of them
    var half, bit0 := a / 2, a % 2;
    assert half / 2 == q;
    assert Xor(half, 1) == 2 * Xor(q, 0) + (half + 1) % 2;
    assert Xor(a, 2) == 2 * Xor(half, 1) + bit0;
  }
}
