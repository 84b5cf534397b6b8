/**
 * Main.LinePipeline, the GRIP-generated pipeline: an HSV threshold, contour
 * extraction, and the contour filter. The OpenCV measurements of a contour
 * (boundingRect, contourArea, arcLength, the area of its convex hull, its row
 * count, minAreaRect) are taken as given fields of a `Contour`.
 */
module Pipeline {
  import opened Geometry
  import opened Telemetry

  type NonNegReal = r: real | r >= 0.0

  /** A contour, as the metrics OpenCV computes from its points. */
  datatype Contour = Contour(
    boundingRect: Rect,       // Imgproc.boundingRect(contour)
    area: NonNegReal,         // Imgproc.contourArea(contour)
    perimeter: real,          // Imgproc.arcLength(contour, true)
    hullArea: NonNegReal,     // Imgproc.contourArea of its convex hull
    vertexCount: nat,         // contour.rows()
    minAreaRect: RotatedRect) // Imgproc.minAreaRect(contour)

  /** The twelve bounds passed to filterContours. */
  datatype FilterParams = FilterParams(
    minArea: real, minPerimeter: real,
    minWidth: real, maxWidth: real,
    minHeight: real, maxHeight: real,
    solidityMin: real, solidityMax: real,
    maxVertexCount: real, minVertexCount: real,
    minRatio: real, maxRatio: real)

  /** The constants `process` passes to filterContours. */
  const ProcessParams := FilterParams(
    0.0, 0.0,
    20.0, 1000.0,
    0.0, 1000.0,
    0.0, 100.0,
    1000000.0, 0.0,
    0.0, 1000.0)

  /** A Java double quotient n / d of two non-negative operands. */
  datatype Quotient = Finite(value: real) | Infinity | NaN

  function Divide(n: real, d: real): (q: Quotient)
    requires n >= 0.0 && d >= 0.0
    // a finite quotient exists exactly for a positive divisor, and multiplies back
    ensures q.Finite? <==> d > 0.0
    ensures q.Finite? ==> q.value >= 0.0 && q.value * d == n
    // IEEE 754: only 0 / 0 is not a number
    ensures q == NaN <==> n == 0.0 && d == 0.0
  {
    if d > 0.0 then Finite(n / d) else if n > 0.0 then Infinity else NaN
  }

  /** Java's `q < lo || q > hi`: an infinite quotient exceeds every finite bound,
      and every comparison with NaN is false. */
  predicate Outside(q: Quotient, lo: real, hi: real)
  {
    match q
    case Finite(v) => v < lo || v > hi
    case Infinity => true
    case NaN => false
  }

  /** The seven checks of filterContours, in the order the code makes them. */
  predicate Passes(c: Contour, p: FilterParams)
  {
    var bb := c.boundingRect;
    && !(bb.width as real < p.minWidth || bb.width as real > p.maxWidth)
    && !(bb.height as real < p.minHeight || bb.height as real > p.maxHeight)
    && !(c.area < p.minArea)
    && !(c.perimeter < p.minPerimeter)
    && !Outside(Divide(100.0 * c.area, c.hullArea), p.solidityMin, p.solidityMax)
    && !(c.vertexCount as real < p.minVertexCount || c.vertexCount as real > p.maxVertexCount)
    && !Outside(Divide(bb.width as real, bb.height as real), p.minRatio, p.maxRatio)
  }

  /** The contours of `s` that pass, in their input order. */
  function Filter(s: seq<Contour>, p: FilterParams): seq<Contour>
  {
    if s == [] then []
    else Filter(s[..|s| - 1], p) + (if Passes(s[|s| - 1], p) then [s[|s| - 1]] else [])
  }

  /** `t` is obtained from `s` by deleting elements. */
  ghost predicate IsSubsequence(t: seq<Contour>, s: seq<Contour>)
  {
    exists idx: seq<nat> ::
      && |idx| == |t|
      && (forall i :: 0 <= i < |idx| ==> idx[i] < |s| && t[i] == s[idx[i]])
      && (forall i, j :: 0 <= i < j < |idx| ==> idx[i] < idx[j])
  }

  /** A contour is kept exactly when it occurs in the input and passes all seven checks. */
  lemma {:induction false} FilterMembership(s: seq<Contour>, p: FilterParams, c: Contour)
    ensures c in Filter(s, p) <==> c in s && Passes(c, p)
  {
    if s != [] {
      var init, last := s[..|s| - 1], s[|s| - 1];
      assert s == init + [last];
      FilterMembership(init, p, c);
    }
  }

  /** Every kept contour passes, and none is invented. */
  lemma {:induction false} FilterSound(s: seq<Contour>, p: FilterParams)
    ensures |Filter(s, p)| <= |s|
    ensures forall c :: c in Filter(s, p) ==> Passes(c, p)
  {
    if s != [] {
      FilterSound(s[..|s| - 1], p);
    }
  }

  /** The output keeps input order: it is a subsequence of the input. */
  lemma {:induction false} FilterSubsequence(s: seq<Contour>, p: FilterParams)
    ensures IsSubsequence(Filter(s, p), s)
  {
    if s == [] {
      var idx: seq<nat> := [];
      assert |idx| == |Filter(s, p)|;
    } else {
      var init, last := s[..|s| - 1], s[|s| - 1];
      var f := Filter(init, p);
      FilterSubsequence(init, p);
      var idx: seq<nat> :| && |idx| == |f|
        && (forall i :: 0 <= i < |idx| ==> idx[i] < |init| && f[i] == init[idx[i]])
        && (forall i, j :: 0 <= i < j < |idx| ==> idx[i] < idx[j]);
      if Passes(last, p) {
        assert Filter(s, p) == f + [last];
        AppendIndex(f, idx, s, init, last);
      } else {
        assert Filter(s, p) == f;
        assert forall i :: 0 <= i < |idx| ==> idx[i] < |s| && f[i] == s[idx[i]];
      }
    }
  }

  /** Extending the index witness by the last position of `s`. */
  lemma AppendIndex(f: seq<Contour>, idx: seq<nat>, s: seq<Contour>, init: seq<Contour>, last: Contour)
    requires s == init + [last]
    requires |idx| == |f|
    requires forall i :: 0 <= i < |idx| ==> idx[i] < |init| && f[i] == init[idx[i]]
    requires forall i, j :: 0 <= i < j < |idx| ==> idx[i] < idx[j]
    ensures IsSubsequence(f + [last], s)
  {
    var idx' := idx + [|init|];
    assert forall i :: 0 <= i < |idx'| ==> idx'[i] < |s| && (f + [last])[i] == s[idx'[i]];
    assert forall i, j :: 0 <= i < j < |idx'| ==> idx'[i] < idx'[j];
  }

  /** A list in which every contour passes is its own filtered output. */
  lemma {:induction false} FilterKeepsPassing(s: seq<Contour>, p: FilterParams)
    requires forall c :: c in s ==> Passes(c, p)
    ensures Filter(s, p) == s
  {
    if s != [] {
      assert s[..|s| - 1] + [s[|s| - 1]] == s;
      FilterKeepsPassing(s[..|s| - 1], p);
    }
  }

  /** Filtering is idempotent: re-filtering the output returns it unchanged. */
  lemma FilterIdempotent(s: seq<Contour>, p: FilterParams)
    ensures Filter(Filter(s, p), p) == Filter(s, p)
  {
    FilterSound(s, p);
    FilterKeepsPassing(Filter(s, p), p);
  }

  /** With the `process` constants, a bounding box narrower than 20 or wider than
      1000 pixels is dropped, whatever the rest of the contour. */
  lemma ProcessDropsWidthOutOfRange(s: seq<Contour>, c: Contour)
    requires c.boundingRect.width < 20 || c.boundingRect.width > 1000
    ensures c !in Filter(s, ProcessParams)
  {
    FilterMembership(s, ProcessParams, c);
  }

  /** The code's solidity test lets a contour whose area and hull area are both
      zero through (0/0 is NaN). The second case, a positive area with a zero
      hull, is one no real contour has (see `SolidityAlwaysPasses`): it shows
      only that the test alone would reject it. */
  lemma DegenerateHullSolidity(c: Contour, p: FilterParams)
    requires c.hullArea == 0.0
    ensures c.area == 0.0 ==> !Outside(Divide(100.0 * c.area, c.hullArea), p.solidityMin, p.solidityMax)
    ensures c.area > 0.0 ==> Outside(Divide(100.0 * c.area, c.hullArea), p.solidityMin, p.solidityMax)
  {
  }

  /** The hull is built from the contour's own points, so a simple contour's area
      never exceeds its hull's. For such a contour the solidity quotient is NaN
      or lies in [0, 100], and the `process` bounds {0, 100} never reject it:
      every degenerate hull comes with a zero area and passes. */
  lemma SolidityAlwaysPasses(c: Contour)
    requires c.area <= c.hullArea
    ensures c.hullArea == 0.0 ==> Divide(100.0 * c.area, c.hullArea) == NaN
    ensures !Outside(Divide(100.0 * c.area, c.hullArea), ProcessParams.solidityMin, ProcessParams.solidityMax)
  {
    if c.hullArea > 0.0 {
      // area / hullArea is at most 1, so the quotient is at most 100
      assert c.area / c.hullArea <= 1.0;
      assert 100.0 * c.area / c.hullArea == 100.0 * (c.area / c.hullArea);
    }
  }

  /** An 8-bit HSV pixel, after Imgproc.cvtColor(COLOR_BGR2HSV). */
  datatype Hsv = Hsv(h: int, s: int, v: int)

  /** The six threshold doubles read from the Brain at the start of `process`. */
  datatype HsvRange = HsvRange(hueMin: real, hueMax: real, satMin: real, satMax: real, valMin: real, valMax: real)

  /** Core.inRange on one pixel: every channel within its closed interval. */
  predicate InRange(px: Hsv, r: HsvRange)
  {
    && r.hueMin <= px.h as real <= r.hueMax
    && r.satMin <= px.s as real <= r.satMax
    && r.valMin <= px.v as real <= r.valMax
  }

  /** hsvThreshold: the mask of pixels within range, one flag per pixel. */
  function HsvThreshold(frame: seq<Hsv>, r: HsvRange): (mask: seq<bool>)
    ensures |mask| == |frame|
    ensures forall i :: 0 <= i < |frame| ==> (mask[i] <==> InRange(frame[i], r))
  {
    seq(|frame|, i requires 0 <= i < |frame| => InRange(frame[i], r))
  }

  /** The bounds of the range are inclusive: a channel at its minimum or maximum
      is on, one unit below the minimum or above the maximum is off. */
  lemma InRangeBoundary(px: Hsv, r: HsvRange)
    // with the other two channels in range, a channel at its minimum or maximum is on
    ensures r.hueMin <= r.hueMax && r.satMin <= px.s as real <= r.satMax && r.valMin <= px.v as real <= r.valMax ==>
              (px.h as real == r.hueMin || px.h as real == r.hueMax ==> InRange(px, r))
    ensures r.satMin <= r.satMax && r.hueMin <= px.h as real <= r.hueMax && r.valMin <= px.v as real <= r.valMax ==>
              (px.s as real == r.satMin || px.s as real == r.satMax ==> InRange(px, r))
    ensures r.valMin <= r.valMax && r.hueMin <= px.h as real <= r.hueMax && r.satMin <= px.s as real <= r.satMax ==>
              (px.v as real == r.valMin || px.v as real == r.valMax ==> InRange(px, r))
    // one unit outside any channel's range is off, whatever the others
    ensures px.h as real == r.hueMin - 1.0 || px.h as real == r.hueMax + 1.0 ==> !InRange(px, r)
    ensures px.s as real == r.satMin - 1.0 || px.s as real == r.satMax + 1.0 ==> !InRange(px, r)
    ensures px.v as real == r.valMin - 1.0 || px.v as real == r.valMax + 1.0 ==> !InRange(px, r)
  {
  }

  /** The thresholds `process` reads through the Brain's getters. */
  function Thresholds(brain: Brain): (r: HsvRange)
    reads brain
  {
    HsvRange(brain.GetThreshold(HueMin), brain.GetThreshold(HueMax),
             brain.GetThreshold(SaturationMin), brain.GetThreshold(SaturationMax),
             brain.GetThreshold(ValueMin), brain.GetThreshold(ValueMax))
  }

  /** With no threshold entry set, `process` thresholds with the Brain's defaults. */
  lemma UnsetThresholdsUseDefaults(brain: Brain)
    requires forall b :: Threshold(b) !in brain.entries
    ensures Thresholds(brain) == HsvRange(0.0, 180.0, 0.0, 146.0, 232.0, 255.0)
  {
  }

  class LinePipeline {
    var hsvThresholdOutput: seq<bool>
    var findContoursOutput: seq<Contour>
    var filterContoursOutput: seq<Contour>

    constructor ()
      ensures hsvThresholdOutput == [] && findContoursOutput == [] && filterContoursOutput == []
    {
      hsvThresholdOutput, findContoursOutput, filterContoursOutput := [], [], [];
    }

    /** filterContours with `output` being this pipeline's filterContoursOutput:
        the output is cleared, then each passing contour is appended in turn. */
    method FilterContours(inputContours: seq<Contour>, p: FilterParams)
      modifies this`filterContoursOutput
      ensures filterContoursOutput == Filter(inputContours, p)
    {
      filterContoursOutput := [];
      for i := 0 to |inputContours|
        invariant filterContoursOutput == Filter(inputContours[..i], p)
      {
        var contour := inputContours[i];
        assert inputContours[..i + 1] == inputContours[..i] + [contour];
        var bb := contour.boundingRect;
        if bb.width as real < p.minWidth || bb.width as real > p.maxWidth { continue; }
        if bb.height as real < p.minHeight || bb.height as real > p.maxHeight { continue; }
        var area := contour.area;
        if area < p.minArea { continue; }
        if contour.perimeter < p.minPerimeter { continue; }
        var solid := Divide(100.0 * area, contour.hullArea);
        if Outside(solid, p.solidityMin, p.solidityMax) { continue; }
        if contour.vertexCount as real < p.minVertexCount || contour.vertexCount as real > p.maxVertexCount { continue; }
        var ratio := Divide(bb.width as real, bb.height as real);
        if Outside(ratio, p.minRatio, p.maxRatio) { continue; }
        filterContoursOutput := filterContoursOutput + [contour];
      }
      assert inputContours[..|inputContours|] == inputContours;
    }

    /** process: threshold the (already HSV) frame with the Brain's ranges, find
        all contours (`externalOnly` false) with the given extractor, then filter
        them with the fixed constants. */
    method Process(brain: Brain, source: seq<Hsv>, findContours: (seq<bool>, bool) -> seq<Contour>)
      modifies this
      ensures hsvThresholdOutput == HsvThreshold(source, Thresholds(brain))
      ensures findContoursOutput == findContours(hsvThresholdOutput, false)
      ensures filterContoursOutput == Filter(findContoursOutput, ProcessParams)
    {
      var range := Thresholds(brain);
      hsvThresholdOutput := HsvThreshold(source, range);
      findContoursOutput := findContours(hsvThresholdOutput, false);
      FilterContours(findContoursOutput, ProcessParams);
    }
  }
}
