/** `analyze_eye_shape(face)` of ai/shape_analysis.py: eye widths and heights from
    eight face-mesh landmarks, a millimetre scale from the interpupillary distance,
    a width/height ratio clamped to [1, 5], a three-way shape label and the
    lash-fit length of each eye.

    The source rounds every number it returns; rounding is presentation and the
    model keeps the unrounded values, which are also what the label is computed from. */
module ShapeAnalysis {
  import opened Wrappers
  import opened FaceMesh

  // Face-mesh vertex numbers the analysis reads.
  const LeftOuter: nat := 33
  const LeftInner: nat := 133
  const RightInner: nat := 362
  const RightOuter: nat := 263
  const LeftUpperLid: nat := 159
  const LeftLowerLid: nat := 145
  const RightUpperLid: nat := 386
  const RightLowerLid: nat := 374

  /** Average adult interpupillary distance in millimetres. */
  const AverageInterpupillaryMm: real := 63.0

  const AlmondLabel: string := "Almond Eyes"
  const RoundLabel: string := "Round Eyes"
  const BalancedLabel: string := "Balanced Eyes"

  /** The measurements `analyze_eye_shape` returns, unrounded. */
  datatype Analysis = Analysis(
    eyeShape: string,
    ratio: real,
    scale: real,
    leftWidth: real,
    rightWidth: real,
    leftHeight: real,
    rightHeight: real,
    lashFitLeft: real,
    lashFitRight: real)

  /** Millimetres per normalized unit: 63 over the interpupillary distance, or 1
      when that distance is zero. It maps the measured distance onto exactly 63 mm. */
  function Scale(interpupillary: real): (s: real)
    ensures interpupillary != 0.0 ==> s * interpupillary == AverageInterpupillaryMm
    ensures interpupillary == 0.0 ==> s == 1.0
    ensures 0.0 <= interpupillary ==> 0.0 < s
  {
    if interpupillary != 0.0 then AverageInterpupillaryMm / interpupillary else 1.0
  }

  /** The height used for the ratio: the mean of both eyes when the right eye has
      a height, otherwise the left eye's height alone. Only the right eye is checked. */
  function AverageHeight(leftHeight: real, rightHeight: real): (h: real)
    ensures rightHeight != 0.0 ==> h + h == leftHeight + rightHeight
    ensures rightHeight != 0.0 ==> (leftHeight <= h <= rightHeight || rightHeight <= h <= leftHeight)
    ensures rightHeight == 0.0 ==> h == leftHeight
    ensures 0.0 <= leftHeight && 0.0 <= rightHeight ==>
              0.0 <= h && (h == 0.0 <==> leftHeight == 0.0 && rightHeight == 0.0)
  {
    if rightHeight != 0.0 then (leftHeight + rightHeight) / 2.0 else leftHeight
  }

  /** Mean width over the average height, or 0 when that height is zero. */
  function RawRatio(leftWidth: real, rightWidth: real, avgHeight: real): (r: real)
    ensures avgHeight != 0.0 ==> r * (2.0 * avgHeight) == leftWidth + rightWidth
    ensures avgHeight == 0.0 ==> r == 0.0
    ensures 0.0 <= leftWidth && 0.0 <= rightWidth && 0.0 <= avgHeight ==> 0.0 <= r
  {
    if avgHeight != 0.0 then (leftWidth + rightWidth) / (2.0 * avgHeight) else 0.0
  }

  /** `max(1.0, min(v, 5.0))`. */
  function Clamp(v: real): (c: real)
    ensures 1.0 <= c <= 5.0
    ensures 1.0 <= v <= 5.0 ==> c == v
    ensures v < 1.0 ==> c == 1.0
    ensures 5.0 < v ==> c == 5.0
  {
    var upper := if v < 5.0 then v else 5.0;
    if 1.0 < upper then upper else 1.0
  }

  /** The shape label: above 3 is almond, below 2 is round, the closed band
      [2, 3] is balanced. */
  function Classify(ratio: real): (shape: string)
    ensures shape == AlmondLabel || shape == RoundLabel || shape == BalancedLabel
    ensures shape == AlmondLabel <==> 3.0 < ratio
    ensures shape == RoundLabel <==> ratio < 2.0
    ensures shape == BalancedLabel <==> 2.0 <= ratio <= 3.0
  {
    if ratio > 3.0 then AlmondLabel
    else if ratio < 2.0 then RoundLabel
    else BalancedLabel
  }

  /** Position of a label on the ratio axis, for stating monotonicity. */
  function LabelRank(shape: string): nat
  {
    if shape == RoundLabel then 0 else if shape == BalancedLabel then 1 else 2
  }

  /** The eight landmarks the analysis reads. */
  datatype EyeLandmarks = EyeLandmarks(
    leftOuter: Landmark, leftInner: Landmark, rightInner: Landmark, rightOuter: Landmark,
    leftUpper: Landmark, leftLower: Landmark, rightUpper: Landmark, rightLower: Landmark)

  /** The landmark reads of `analyze_eye_shape`, in the source's order; the first
      index the face lacks is the `IndexError` that ends the analysis. The
      arithmetic between the reads cannot fail, so reading first changes nothing. */
  function ReadEyeLandmarks(face: Face): (r: Result<EyeLandmarks, AnalysisError>)
    ensures r.Success? <==> RightUpperLid < |face|
    ensures r.Success? ==> r.value == EyeLandmarks(
              face[LeftOuter], face[LeftInner], face[RightInner], face[RightOuter],
              face[LeftUpperLid], face[LeftLowerLid], face[RightUpperLid], face[RightLowerLid])
    ensures r.Failure? ==> r.error.MissingLandmark? && |face| <= r.error.index
  {
    var leftOuter :- LandmarkAt(face, LeftOuter);
    var leftInner :- LandmarkAt(face, LeftInner);
    var rightInner :- LandmarkAt(face, RightInner);
    // 263, 159 and 145 are below 362, so these reads cannot fail once 362 succeeded.
    var rightOuter, leftUpper, leftLower := face[RightOuter], face[LeftUpperLid], face[LeftLowerLid];
    var rightUpper :- LandmarkAt(face, RightUpperLid);
    // 374 is below 386.
    var rightLower := face[RightLowerLid];
    Success(EyeLandmarks(leftOuter, leftInner, rightInner, rightOuter, leftUpper, leftLower, rightUpper, rightLower))
  }

  /** The five distances the analysis measures, in normalized units. */
  datatype Distances = Distances(
    interpupillary: real, leftWidth: real, rightWidth: real, leftHeight: real, rightHeight: real)

  /** Every distance multiplied by k. */
  function ScaleDistances(d: Distances, k: real): Distances
  {
    Distances(k * d.interpupillary, k * d.leftWidth, k * d.rightWidth, k * d.leftHeight, k * d.rightHeight)
  }

  /** Widths are landmark distances (inner corner to inner corner, outer to inner
      corner of each eye); heights are vertical gaps between the lids. */
  function MeasureDistances(eyes: EyeLandmarks, root: real -> real): (d: Distances)
    ensures 0.0 <= d.leftHeight && 0.0 <= d.rightHeight
    ensures IsSqrt(root) ==> 0.0 <= d.interpupillary && 0.0 <= d.leftWidth && 0.0 <= d.rightWidth
  {
    Distances(
      Dist(root, eyes.leftInner, eyes.rightInner),
      Dist(root, eyes.leftOuter, eyes.leftInner),
      Dist(root, eyes.rightOuter, eyes.rightInner),
      VerticalGap(eyes.leftUpper, eyes.leftLower),
      VerticalGap(eyes.rightUpper, eyes.rightLower))
  }

  /** The analysis proper, from the five distances it measures. */
  function Summarize(d: Distances): (a: Analysis)
    ensures a.leftWidth == d.leftWidth && a.rightWidth == d.rightWidth
    ensures a.leftHeight == d.leftHeight && a.rightHeight == d.rightHeight
    ensures a.scale == Scale(d.interpupillary)
    ensures a.ratio == Clamp(RawRatio(d.leftWidth, d.rightWidth, AverageHeight(d.leftHeight, d.rightHeight)))
    ensures 1.0 <= a.ratio <= 5.0
    ensures a.eyeShape == Classify(a.ratio)
    ensures d.leftHeight == 0.0 && d.rightHeight == 0.0 ==> a.ratio == 1.0 && a.eyeShape == RoundLabel
    ensures a.lashFitLeft == LashFit(d.leftWidth, d.interpupillary)
    ensures a.lashFitRight == LashFit(d.rightWidth, d.interpupillary)
  {
    var scale := Scale(d.interpupillary);
    var ratio := Clamp(RawRatio(d.leftWidth, d.rightWidth, AverageHeight(d.leftHeight, d.rightHeight)));
    Analysis(
      Classify(ratio), ratio, scale,
      d.leftWidth, d.rightWidth, d.leftHeight, d.rightHeight,
      LashFit(d.leftWidth, d.interpupillary), LashFit(d.rightWidth, d.interpupillary))
  }

  /** The lash-fit length of an eye: its width converted to millimetres. */
  function LashFit(width: real, interpupillary: real): (mm: real)
    ensures interpupillary != 0.0 ==> mm * interpupillary == AverageInterpupillaryMm * width
    ensures interpupillary == 0.0 ==> mm == width
  {
    width * Scale(interpupillary)
  }

  /** The measurements and the label of `analyze_eye_shape`, from its landmarks. */
  function Measure(eyes: EyeLandmarks, root: real -> real): (a: Analysis)
    ensures 1.0 <= a.ratio <= 5.0 && a.eyeShape == Classify(a.ratio)
    ensures a.leftHeight == 0.0 && a.rightHeight == 0.0 ==> a.eyeShape == RoundLabel
  {
    Summarize(MeasureDistances(eyes, root))
  }

  /** With a true square root every distance is non-negative, and then the
      scale is positive and the lash-fit lengths are non-negative. */
  lemma MeasureBounds(eyes: EyeLandmarks, root: real -> real)
    requires IsSqrt(root)
    ensures var a := Measure(eyes, root);
            0.0 <= a.leftWidth && 0.0 <= a.rightWidth && 0.0 <= a.leftHeight && 0.0 <= a.rightHeight &&
            0.0 < a.scale && 0.0 <= a.lashFitLeft && 0.0 <= a.lashFitRight
  {
    DistNonNegative(root, eyes.leftInner, eyes.rightInner);
    DistNonNegative(root, eyes.leftOuter, eyes.leftInner);
    DistNonNegative(root, eyes.rightOuter, eyes.rightInner);
  }

  /** When the inner corners coincide the scale falls back to exactly 1. */
  lemma CoincidingCornersScaleOne(eyes: EyeLandmarks, root: real -> real)
    requires IsSqrt(root)
    requires eyes.leftInner == eyes.rightInner
    ensures Measure(eyes, root).scale == 1.0
    ensures Measure(eyes, root).lashFitLeft == Dist(root, eyes.leftOuter, eyes.leftInner)
  {
    DistSelf(root, eyes.leftInner);
  }

  /** `analyze_eye_shape(face)`. */
  function Analyze(face: Face, root: real -> real): (r: Result<Analysis, AnalysisError>)
    ensures r.Failure? <==> |face| <= RightUpperLid
    ensures r.Failure? ==> r.error.MissingLandmark? && |face| <= r.error.index
    ensures r.Success? ==> r.value == Summarize(MeasureDistances(ReadEyeLandmarks(face).value, root))
  {
    var eyes :- ReadEyeLandmarks(face);
    Success(Measure(eyes, root))
  }

  /** A face too short for the analysis fails at the first landmark, in the
      source's read order, that it lacks: 33, then 133, then 362, then 386
      (263, 159 and 145 lie below 362, and 374 below 386). */
  lemma AnalyzeFailsAtFirstMissing(face: Face, root: real -> real)
    ensures |face| <= LeftOuter ==> Analyze(face, root) == Failure(MissingLandmark(LeftOuter))
    ensures LeftOuter < |face| <= LeftInner ==> Analyze(face, root) == Failure(MissingLandmark(LeftInner))
    ensures LeftInner < |face| <= RightInner ==> Analyze(face, root) == Failure(MissingLandmark(RightInner))
    ensures RightInner < |face| <= RightUpperLid ==> Analyze(face, root) == Failure(MissingLandmark(RightUpperLid))
  {
  }

  /** A larger ratio never gives a label further towards round. */
  lemma ClassifyMonotone(r1: real, r2: real)
    requires r1 <= r2
    ensures LabelRank(Classify(r1)) <= LabelRank(Classify(r2))
  {
  }

  /** Clamping never changes the label: both thresholds lie inside [1, 5]. */
  lemma ClampKeepsLabel(v: real)
    ensures Classify(Clamp(v)) == Classify(v)
  {
  }

  /** The height fallback is one-sided: a zero right eye falls back to the left
      height, but a zero left eye is averaged in and halves the height. */
  lemma AverageHeightGuardsOnlyRight(h: real)
    requires h != 0.0
    ensures AverageHeight(h, 0.0) == h
    ensures AverageHeight(0.0, h) == h / 2.0
  {
  }

  /** With both eyes measured, the raw ratio is total width over total height. */
  lemma RawRatioOfBothEyes(leftWidth: real, rightWidth: real, leftHeight: real, rightHeight: real)
    requires rightHeight != 0.0 && leftHeight + rightHeight != 0.0
    ensures RawRatio(leftWidth, rightWidth, AverageHeight(leftHeight, rightHeight))
            == (leftWidth + rightWidth) / (leftHeight + rightHeight)
  {
  }

  /** Every landmark of the eight moved by (dx, dy). */
  function TranslatedEyes(e: EyeLandmarks, dx: real, dy: real): EyeLandmarks
  {
    EyeLandmarks(
      Translated(e.leftOuter, dx, dy), Translated(e.leftInner, dx, dy),
      Translated(e.rightInner, dx, dy), Translated(e.rightOuter, dx, dy),
      Translated(e.leftUpper, dx, dy), Translated(e.leftLower, dx, dy),
      Translated(e.rightUpper, dx, dy), Translated(e.rightLower, dx, dy))
  }

  /** Every landmark of the eight multiplied by k. */
  function ScaledEyes(e: EyeLandmarks, k: real): EyeLandmarks
  {
    EyeLandmarks(
      Scaled(e.leftOuter, k), Scaled(e.leftInner, k), Scaled(e.rightInner, k), Scaled(e.rightOuter, k),
      Scaled(e.leftUpper, k), Scaled(e.leftLower, k), Scaled(e.rightUpper, k), Scaled(e.rightLower, k))
  }

  /** Moving every landmark by the same offset changes none of the five distances. */
  lemma MeasureTranslationInvariant(eyes: EyeLandmarks, root: real -> real, dx: real, dy: real)
    ensures MeasureDistances(TranslatedEyes(eyes, dx, dy), root) == MeasureDistances(eyes, root)
    ensures Measure(TranslatedEyes(eyes, dx, dy), root) == Measure(eyes, root)
  {
    DistTranslated(root, eyes.leftInner, eyes.rightInner, dx, dy);
    DistTranslated(root, eyes.leftOuter, eyes.leftInner, dx, dy);
    DistTranslated(root, eyes.rightOuter, eyes.rightInner, dx, dy);
    VerticalGapTranslated(eyes.leftUpper, eyes.leftLower, dx, dy);
    VerticalGapTranslated(eyes.rightUpper, eyes.rightLower, dx, dy);
  }

  /** Moving the whole face changes nothing in the analysis, failures included. */
  lemma AnalyzeTranslationInvariant(face: Face, root: real -> real, dx: real, dy: real)
    ensures Analyze(TranslatedFace(face, dx, dy), root) == Analyze(face, root)
  {
    var moved := TranslatedFace(face, dx, dy);
    if RightUpperLid < |face| {
      assert ReadEyeLandmarks(moved).value == TranslatedEyes(ReadEyeLandmarks(face).value, dx, dy);
      MeasureTranslationInvariant(ReadEyeLandmarks(face).value, root, dx, dy);
    } else {
      assert ReadEyeLandmarks(moved) == ReadEyeLandmarks(face);
    }
  }

  // The scaling lemmas below take the scaled arguments as parameters, tied to
  // the originals by `requires`, so that their conclusions mention exactly the
  // terms the caller already has.

  lemma AverageHeightScaled(lh: real, rh: real, k: real, slh: real, srh: real)
    requires 0.0 < k && slh == k * lh && srh == k * rh
    ensures AverageHeight(slh, srh) == k * AverageHeight(lh, rh)
  {
    if rh != 0.0 {
      assert srh != 0.0;
      assert (slh + srh) / 2.0 == k * ((lh + rh) / 2.0);
    } else {
      assert srh == 0.0;
    }
  }

  lemma RawRatioScaled(lw: real, rw: real, h: real, k: real, slw: real, srw: real, sh: real)
    requires 0.0 < k && slw == k * lw && srw == k * rw && sh == k * h
    ensures RawRatio(slw, srw, sh) == RawRatio(lw, rw, h)
  {
    if h != 0.0 {
      assert sh != 0.0;
      assert slw + srw == k * (lw + rw);
      assert 2.0 * sh == k * (2.0 * h);
      DivCancel(lw + rw, 2.0 * h, k);
    } else {
      assert sh == 0.0;
    }
  }

  lemma DivCancel(a: real, b: real, k: real)
    requires k != 0.0 && b != 0.0
    ensures (k * a) / (k * b) == a / b
  {
  }

  lemma LashFitScaled(w: real, ip: real, k: real, sw: real, sip: real)
    requires ip != 0.0 && 0.0 < k && sw == k * w && sip == k * ip
    ensures LashFit(sw, sip) == LashFit(w, ip)
  {
    assert sip != 0.0;
    assert (k * w) * (AverageInterpupillaryMm / (k * ip)) == w * (AverageInterpupillaryMm / ip);
  }

  /** Multiplying widths and heights by k > 0 leaves the clamped ratio unchanged. */
  lemma RatioScaled(d: Distances, k: real)
    requires 0.0 < k
    ensures var e := ScaleDistances(d, k);
            Clamp(RawRatio(e.leftWidth, e.rightWidth, AverageHeight(e.leftHeight, e.rightHeight)))
            == Clamp(RawRatio(d.leftWidth, d.rightWidth, AverageHeight(d.leftHeight, d.rightHeight)))
  {
    var e := ScaleDistances(d, k);
    AverageHeightScaled(d.leftHeight, d.rightHeight, k, e.leftHeight, e.rightHeight);
    RawRatioScaled(d.leftWidth, d.rightWidth, AverageHeight(d.leftHeight, d.rightHeight), k,
                   e.leftWidth, e.rightWidth, AverageHeight(e.leftHeight, e.rightHeight));
  }

  /** Multiplying all five distances by k > 0 leaves the label, the ratio and the
      lash-fit lengths unchanged, provided the interpupillary distance is not
      zero; the widths grow by k. */
  lemma SummarizeScaleInvariant(d: Distances, k: real)
    requires 0.0 < k && d.interpupillary != 0.0
    ensures Summarize(ScaleDistances(d, k)).eyeShape == Summarize(d).eyeShape
    ensures Summarize(ScaleDistances(d, k)).ratio == Summarize(d).ratio
    ensures Summarize(ScaleDistances(d, k)).lashFitLeft == Summarize(d).lashFitLeft
    ensures Summarize(ScaleDistances(d, k)).lashFitRight == Summarize(d).lashFitRight
    ensures Summarize(ScaleDistances(d, k)).leftWidth == k * d.leftWidth
    ensures Summarize(ScaleDistances(d, k)).rightWidth == k * d.rightWidth
  {
    SummarizeRatioScaled(d, k);
    SummarizeLashFitScaled(d, k);
    SummarizeWidthsScaled(d, k);
  }

  lemma SummarizeWidthsScaled(d: Distances, k: real)
    ensures Summarize(ScaleDistances(d, k)).leftWidth == k * d.leftWidth
    ensures Summarize(ScaleDistances(d, k)).rightWidth == k * d.rightWidth
  {
  }

  lemma SummarizeRatioScaled(d: Distances, k: real)
    requires 0.0 < k
    ensures Summarize(ScaleDistances(d, k)).ratio == Summarize(d).ratio
    ensures Summarize(ScaleDistances(d, k)).eyeShape == Summarize(d).eyeShape
  {
    RatioScaled(d, k);
  }

  lemma SummarizeLashFitScaled(d: Distances, k: real)
    requires 0.0 < k && d.interpupillary != 0.0
    ensures Summarize(ScaleDistances(d, k)).lashFitLeft == Summarize(d).lashFitLeft
    ensures Summarize(ScaleDistances(d, k)).lashFitRight == Summarize(d).lashFitRight
  {
    var e := ScaleDistances(d, k);
    LashFitScaled(d.leftWidth, d.interpupillary, k, e.leftWidth, e.interpupillary);
    LashFitScaled(d.rightWidth, d.interpupillary, k, e.rightWidth, e.interpupillary);
  }

  /** Multiplying every landmark by k >= 0 multiplies each of the five distances by k. */
  lemma ScaledEyesDistances(eyes: EyeLandmarks, root: real -> real, k: real)
    requires IsSqrt(root) && 0.0 <= k
    ensures MeasureDistances(ScaledEyes(eyes, k), root) == ScaleDistances(MeasureDistances(eyes, root), k)
  {
    ScaledEyesDistancesFields(eyes, root, k);
  }

  lemma ScaledEyesDistancesFields(eyes: EyeLandmarks, root: real -> real, k: real)
    requires IsSqrt(root) && 0.0 <= k
    ensures MeasureDistances(ScaledEyes(eyes, k), root).interpupillary
            == k * MeasureDistances(eyes, root).interpupillary
    ensures MeasureDistances(ScaledEyes(eyes, k), root).leftWidth == k * MeasureDistances(eyes, root).leftWidth
    ensures MeasureDistances(ScaledEyes(eyes, k), root).rightWidth == k * MeasureDistances(eyes, root).rightWidth
    ensures MeasureDistances(ScaledEyes(eyes, k), root).leftHeight == k * MeasureDistances(eyes, root).leftHeight
    ensures MeasureDistances(ScaledEyes(eyes, k), root).rightHeight == k * MeasureDistances(eyes, root).rightHeight
  {
    ScaledInterpupillary(eyes, root, k);
    ScaledLeftWidth(eyes, root, k);
    ScaledRightWidth(eyes, root, k);
    ScaledHeights(eyes, root, k);
  }

  lemma ScaledInterpupillary(eyes: EyeLandmarks, root: real -> real, k: real)
    requires IsSqrt(root) && 0.0 <= k
    ensures MeasureDistances(ScaledEyes(eyes, k), root).interpupillary
            == k * MeasureDistances(eyes, root).interpupillary
  {
    DistScaledTo(root, eyes.leftInner, eyes.rightInner, k, MeasureDistances(eyes, root).interpupillary);
  }

  lemma ScaledLeftWidth(eyes: EyeLandmarks, root: real -> real, k: real)
    requires IsSqrt(root) && 0.0 <= k
    ensures MeasureDistances(ScaledEyes(eyes, k), root).leftWidth == k * MeasureDistances(eyes, root).leftWidth
  {
    DistScaledTo(root, eyes.leftOuter, eyes.leftInner, k, MeasureDistances(eyes, root).leftWidth);
  }

  lemma ScaledRightWidth(eyes: EyeLandmarks, root: real -> real, k: real)
    requires IsSqrt(root) && 0.0 <= k
    ensures MeasureDistances(ScaledEyes(eyes, k), root).rightWidth == k * MeasureDistances(eyes, root).rightWidth
  {
    DistScaledTo(root, eyes.rightOuter, eyes.rightInner, k, MeasureDistances(eyes, root).rightWidth);
  }

  lemma ScaledHeights(eyes: EyeLandmarks, root: real -> real, k: real)
    requires 0.0 <= k
    ensures MeasureDistances(ScaledEyes(eyes, k), root).leftHeight == k * MeasureDistances(eyes, root).leftHeight
    ensures MeasureDistances(ScaledEyes(eyes, k), root).rightHeight == k * MeasureDistances(eyes, root).rightHeight
  {
    VerticalGapScaledTo(eyes.leftUpper, eyes.leftLower, k, MeasureDistances(eyes, root).leftHeight);
    VerticalGapScaledTo(eyes.rightUpper, eyes.rightLower, k, MeasureDistances(eyes, root).rightHeight);
  }

  // `DistScaled` and `VerticalGapScaled` with the unscaled value passed in, so that the
  // conclusion names the caller's own term for it.

  lemma DistScaledTo(root: real -> real, p: Landmark, q: Landmark, k: real, v: real)
    requires IsSqrt(root) && 0.0 <= k && v == Dist(root, p, q)
    ensures Dist(root, Scaled(p, k), Scaled(q, k)) == k * v
  {
    DistScaled(root, p, q, k);
  }

  lemma VerticalGapScaledTo(p: Landmark, q: Landmark, k: real, v: real)
    requires 0.0 <= k && v == VerticalGap(p, q)
    ensures VerticalGap(Scaled(p, k), Scaled(q, k)) == k * v
  {
    VerticalGapScaled(p, q, k);
  }

  /** Photographing the same eyes at another size multiplies every landmark by
      k > 0: the label, the ratio and the lash-fit lengths in millimetres are
      unchanged, provided the inner corners are measured apart. */
  lemma MeasureScaleInvariant(eyes: EyeLandmarks, root: real -> real, k: real)
    requires IsSqrt(root) && 0.0 < k
    requires Dist(root, eyes.leftInner, eyes.rightInner) != 0.0
    ensures Measure(ScaledEyes(eyes, k), root).eyeShape == Measure(eyes, root).eyeShape
    ensures Measure(ScaledEyes(eyes, k), root).ratio == Measure(eyes, root).ratio
    ensures Measure(ScaledEyes(eyes, k), root).lashFitLeft == Measure(eyes, root).lashFitLeft
    ensures Measure(ScaledEyes(eyes, k), root).lashFitRight == Measure(eyes, root).lashFitRight
  {
    ScaledEyesDistances(eyes, root, k);
    SummarizeScaleInvariant(MeasureDistances(eyes, root), k);
  }
}
