/** The measurement and classification part of `analyze_eye_shape(image_path)` in
    eye_detection.py, the older pixel-based variant of the shape analysis.

    Landmarks are first truncated to pixel coordinates of a `width` x `height`
    image; widths are pixel distances and heights pixel row differences. Each eye
    gets its own width/height ratio, the two are averaged without clamping, and a
    label, a recommendation, a reasoning text and a curve factor are chosen from
    the average. A hooded-eye test on the normalized lid and brow landmarks may
    append a note to the recommendation and the reasoning. The scale and the
    hooded test divide without a guard, so a zero divisor ends the analysis. */
module EyeDetection {
  import opened Wrappers
  import opened FaceMesh
  import ShapeAnalysis

  // The corner and lid vertices are those of ShapeAnalysis; the brows are new.
  const LeftBrow: nat := 65
  const RightBrow: nat := 295

  /** The right upper-lid vertex with the highest number that `draw_lash_line`
      reads after the analysis. The left lash line (33, 160, 159, 158, 157, 173,
      133) and the rest of the right one (362, 385, 386, 263) lie below 387, so
      only 387, 388 and 466 can be missing once the analysis has read 386. */
  const RightLashLineEnd: nat := 466

  /** Below this fold-to-visible-lid ratio an eye counts as hooded. */
  const HoodedThreshold: real := 0.5

  const HoodedStyleNote: string := " (Hooded eyes: emphasize outer corner, use curled lashes)"
  const HoodedReasonNote: string := " Hooded eyes benefit from curled lashes and emphasis on the outer corners to open the eye."

  /** A pixel position, as the `(int, int)` pair `lm_to_pixel` returns. */
  datatype Pixel = Pixel(x: int, y: int)

  /** Python's `int()` on a float: truncation toward zero. */
  function Trunc(v: real): (t: int)
    ensures 0.0 <= v ==> 0 <= t && t as real <= v < t as real + 1.0
    ensures v < 0.0 ==> t <= 0 && t as real - 1.0 < v <= t as real
  {
    if 0.0 <= v then v.Floor else -((-v).Floor)
  }

  /** `lm_to_pixel(lm)`: normalized coordinates scaled to the image and truncated. */
  function ToPixel(lm: Landmark, width: nat, height: nat): (p: Pixel)
    ensures 0.0 <= lm.x ==> 0 <= p.x && p.x as real <= lm.x * width as real < p.x as real + 1.0
    ensures 0.0 <= lm.y ==> 0 <= p.y && p.y as real <= lm.y * height as real < p.y as real + 1.0
    ensures lm.x * width as real <= 0.0 ==> p.x <= 0 && p.x as real - 1.0 < lm.x * width as real <= p.x as real
    ensures lm.y * height as real <= 0.0 ==> p.y <= 0 && p.y as real - 1.0 < lm.y * height as real <= p.y as real
  {
    Pixel(Trunc(lm.x * width as real), Trunc(lm.y * height as real))
  }

  /** A landmark inside the normalized frame lands on a pixel of the image. */
  lemma ToPixelInImage(lm: Landmark, width: nat, height: nat)
    requires 0.0 <= lm.x < 1.0 && 0.0 <= lm.y < 1.0
    ensures 0 <= ToPixel(lm, width, height).x && (0 < width ==> ToPixel(lm, width, height).x < width)
    ensures 0 <= ToPixel(lm, width, height).y && (0 < height ==> ToPixel(lm, width, height).y < height)
  {
    TruncInRange(lm.x, width);
    TruncInRange(lm.y, height);
  }

  /** A fraction in [0, 1) of a size n truncates to an index below n. */
  lemma TruncInRange(f: real, n: nat)
    requires 0.0 <= f < 1.0
    ensures 0 <= Trunc(f * n as real) && (0 < n ==> Trunc(f * n as real) < n)
  {
    var v := f * n as real;
    assert 0.0 <= v;
    if 0 < n {
      assert v < 1.0 * n as real;
      assert Trunc(v) as real <= v;
    }
  }

  /** A pixel as a point of the plane. */
  function AsPoint(p: Pixel): Landmark
  {
    Landmark(p.x as real, p.y as real)
  }

  /** The pixel `dist` helper: the Euclidean distance of two pixels. */
  function PixelDist(root: real -> real, p: Pixel, q: Pixel): (d: real)
    ensures IsSqrt(root) ==> 0.0 <= d
  {
    Dist(root, AsPoint(p), AsPoint(q))
  }

  /** `abs` on an int. */
  function IntAbs(v: int): (a: nat)
    ensures a == v || a == -v
  {
    if v < 0 then -v else v
  }

  /** One eye's width over its pixel height, or 0 when the height is 0. */
  function EyeRatio(width: real, height: int): (r: real)
    ensures height != 0 ==> r * height as real == width
    ensures height == 0 ==> r == 0.0
    ensures 0.0 <= width && 0 <= height ==> 0.0 <= r
  {
    if height != 0 then width / height as real else 0.0
  }

  /** The plain mean of the two per-eye ratios; nothing clamps it. */
  function AverageRatio(leftWidth: real, rightWidth: real, leftHeight: int, rightHeight: int): (r: real)
    ensures r + r == EyeRatio(leftWidth, leftHeight) + EyeRatio(rightWidth, rightHeight)
  {
    (EyeRatio(leftWidth, leftHeight) + EyeRatio(rightWidth, rightHeight)) / 2.0
  }

  /** The label, recommendation, reasoning and curve factor of one shape branch. */
  datatype LashStyle = LashStyle(shape: string, recommendation: string, reasoning: string, curveFactor: real)

  const AlmondStyle: LashStyle := LashStyle(
    ShapeAnalysis.AlmondLabel,
    "Cat-Eye or Wispy Lash",
    "Almond eyes are elongated, so cat-eye or wispy lashes enhance their natural shape and provide a lifted effect.",
    0.3)

  const RoundStyle: LashStyle := LashStyle(
    ShapeAnalysis.RoundLabel,
    "Natural or Doll Style Lash",
    "Round eyes benefit from natural or doll-style lashes to add length without making the eyes look overly wide.",
    0.15)

  const BalancedStyle: LashStyle := LashStyle(
    ShapeAnalysis.BalancedLabel,
    "Classic or Hybrid Lash",
    "Balanced eyes work well with classic or hybrid lashes for a natural, harmonious look.",
    0.2)

  /** The shape branch for an average ratio: above 3 almond, below 2 round, else
      balanced. The label agrees with the shape analyser's classifier, and the
      curve factor identifies the branch. */
  function ClassifyEye(ratio: real): (s: LashStyle)
    ensures s == AlmondStyle || s == RoundStyle || s == BalancedStyle
    ensures s.shape == ShapeAnalysis.Classify(ratio)
    ensures s.curveFactor == 0.3 <==> 3.0 < ratio
    ensures s.curveFactor == 0.15 <==> ratio < 2.0
    ensures s.curveFactor == 0.2 <==> 2.0 <= ratio <= 3.0
  {
    if ratio > 3.0 then AlmondStyle
    else if ratio < 2.0 then RoundStyle
    else BalancedStyle
  }

  /** A larger average ratio never gives a smaller curve factor. */
  lemma CurveFactorMonotone(r1: real, r2: real)
    requires r1 <= r2
    ensures ClassifyEye(r1).curveFactor <= ClassifyEye(r2).curveFactor
  {
  }

  /** `fold / visible < 0.5`; the source does not guard the division. For a
      visible lid height above zero this is "the fold is less than half the lid". */
  function IsHooded(fold: real, visible: real): (hooded: bool)
    requires visible != 0.0
    ensures 0.0 < visible ==> (hooded <==> fold + fold < visible)
  {
    assert 0.0 < visible ==> (fold / visible < HoodedThreshold <==> fold + fold < visible) by {
      if 0.0 < visible {
        HoodedQuotient(fold, visible);
      }
    }
    fold / visible < HoodedThreshold
  }

  lemma HoodedQuotient(fold: real, visible: real)
    requires 0.0 < visible
    ensures fold / visible < HoodedThreshold <==> fold + fold < visible
  {
    var q := fold / visible;
    assert q * visible == fold;
    if q < HoodedThreshold {
      assert q * visible < HoodedThreshold * visible;
    } else {
      assert q * visible >= HoodedThreshold * visible;
    }
  }

  /** The shape branch with the hooded note appended to the recommendation and
      to the reasoning when `hooded` holds. */
  function WithHoodedNote(s: LashStyle, hooded: bool): (t: LashStyle)
    ensures t.shape == s.shape && t.curveFactor == s.curveFactor
    ensures hooded ==> t.recommendation == s.recommendation + HoodedStyleNote
    ensures hooded ==> t.reasoning == s.reasoning + HoodedReasonNote
    ensures !hooded ==> t == s
  {
    if hooded then s.(recommendation := s.recommendation + HoodedStyleNote, reasoning := s.reasoning + HoodedReasonNote)
    else s
  }

  /** The five pixel measurements: distances between corners, lid heights in rows. */
  datatype PixelMeasures = PixelMeasures(
    interpupillary: real, leftWidth: real, rightWidth: real, leftHeight: int, rightHeight: int)

  /** The result of the analysis, unrounded, without the output image path. */
  datatype Detection = Detection(
    eyeShape: string,
    ratio: real,
    recommendedStyle: string,
    reasoning: string,
    hoodedLeft: bool,
    hoodedRight: bool,
    lashFitLeft: real,
    lashFitRight: real,
    scale: real)

  /** The pixel distance between the inner eye corners. */
  function Interpupillary(face: Face, width: nat, height: nat, root: real -> real): (d: real)
    requires ShapeAnalysis.RightInner < |face|
    ensures IsSqrt(root) ==> 0.0 <= d
  {
    PixelDist(root, ToPixel(face[ShapeAnalysis.LeftInner], width, height), ToPixel(face[ShapeAnalysis.RightInner], width, height))
  }

  /** Widths from the corner pixels, heights as row differences of the lid pixels. */
  function Measures(face: Face, width: nat, height: nat, root: real -> real): (m: PixelMeasures)
    requires ShapeAnalysis.RightUpperLid < |face|
    ensures m.interpupillary == Interpupillary(face, width, height, root)
    ensures 0 <= m.leftHeight && 0 <= m.rightHeight
    ensures IsSqrt(root) ==> 0.0 <= m.interpupillary && 0.0 <= m.leftWidth && 0.0 <= m.rightWidth
  {
    PixelMeasures(
      Interpupillary(face, width, height, root),
      PixelDist(root, ToPixel(face[ShapeAnalysis.LeftOuter], width, height), ToPixel(face[ShapeAnalysis.LeftInner], width, height)),
      PixelDist(root, ToPixel(face[ShapeAnalysis.RightOuter], width, height), ToPixel(face[ShapeAnalysis.RightInner], width, height)),
      IntAbs(ToPixel(face[ShapeAnalysis.LeftUpperLid], width, height).y - ToPixel(face[ShapeAnalysis.LeftLowerLid], width, height).y),
      IntAbs(ToPixel(face[ShapeAnalysis.RightUpperLid], width, height).y - ToPixel(face[ShapeAnalysis.RightLowerLid], width, height).y))
  }

  /** The normalized brow-to-upper-lid gap of the left eye. */
  function LeftFold(face: Face): (g: real)
    requires ShapeAnalysis.RightUpperLid < |face|
    ensures 0.0 <= g
  {
    VerticalGap(face[LeftBrow], face[ShapeAnalysis.LeftUpperLid])
  }

  /** The normalized upper-to-lower-lid gap of the left eye. */
  function LeftVisible(face: Face): (g: real)
    requires ShapeAnalysis.RightUpperLid < |face|
    ensures 0.0 <= g
  {
    VerticalGap(face[ShapeAnalysis.LeftUpperLid], face[ShapeAnalysis.LeftLowerLid])
  }

  /** The normalized brow-to-upper-lid gap of the right eye. */
  function RightFold(face: Face): (g: real)
    requires ShapeAnalysis.RightUpperLid < |face|
    ensures 0.0 <= g
  {
    VerticalGap(face[RightBrow], face[ShapeAnalysis.RightUpperLid])
  }

  /** The normalized upper-to-lower-lid gap of the right eye. */
  function RightVisible(face: Face): (g: real)
    requires ShapeAnalysis.RightUpperLid < |face|
    ensures 0.0 <= g
  {
    VerticalGap(face[ShapeAnalysis.RightUpperLid], face[ShapeAnalysis.RightLowerLid])
  }

  /** The analysis from its measurements and the two hooded tests. */
  function Report(m: PixelMeasures, hoodedLeft: bool, hoodedRight: bool): (d: Detection)
    requires m.interpupillary != 0.0
    ensures d.scale * m.interpupillary == ShapeAnalysis.AverageInterpupillaryMm
    ensures d.ratio == AverageRatio(m.leftWidth, m.rightWidth, m.leftHeight, m.rightHeight)
    ensures d.eyeShape == ShapeAnalysis.Classify(d.ratio)
    ensures d.hoodedLeft == hoodedLeft && d.hoodedRight == hoodedRight
    ensures hoodedLeft || hoodedRight ==>
              d.recommendedStyle == ClassifyEye(d.ratio).recommendation + HoodedStyleNote &&
              d.reasoning == ClassifyEye(d.ratio).reasoning + HoodedReasonNote
    ensures !hoodedLeft && !hoodedRight ==>
              d.recommendedStyle == ClassifyEye(d.ratio).recommendation &&
              d.reasoning == ClassifyEye(d.ratio).reasoning
    ensures d.lashFitLeft == ShapeAnalysis.LashFit(m.leftWidth, m.interpupillary)
    ensures d.lashFitRight == ShapeAnalysis.LashFit(m.rightWidth, m.interpupillary)
  {
    var scale := ShapeAnalysis.AverageInterpupillaryMm / m.interpupillary;
    var ratio := AverageRatio(m.leftWidth, m.rightWidth, m.leftHeight, m.rightHeight);
    var style := WithHoodedNote(ClassifyEye(ratio), hoodedLeft || hoodedRight);
    Detection(
      style.shape, ratio, style.recommendation, style.reasoning,
      hoodedLeft, hoodedRight,
      m.leftWidth * scale, m.rightWidth * scale, scale)
  }

  /** The measurement and classification of `analyze_eye_shape(image_path)` on
      the landmarks of the detected face and the image size. The landmark reads
      raise `IndexError` in the order 33, 133, 263, 362, then 386 (159 and 145
      lie below 362, 374 below 386, and the brows 65 and 295 below 362); the
      scale's division by the interpupillary distance comes between 362 and
      386, and the two hooded divisions come next. Last, drawing the right
      lash line reads 387, 388 and 466. */
  function Detect(face: Face, width: nat, height: nat, root: real -> real): (r: Result<Detection, AnalysisError>)
    ensures r.Success? <==>
              RightLashLineEnd < |face| &&
              Interpupillary(face, width, height, root) != 0.0 &&
              LeftVisible(face) != 0.0 && RightVisible(face) != 0.0
    ensures ShapeAnalysis.RightInner < |face| && Interpupillary(face, width, height, root) == 0.0 ==>
              r == Failure(DivisionByZero)
    ensures ShapeAnalysis.RightInner < |face| <= ShapeAnalysis.RightUpperLid &&
            Interpupillary(face, width, height, root) != 0.0 ==>
              r == Failure(MissingLandmark(ShapeAnalysis.RightUpperLid))
    ensures ShapeAnalysis.RightUpperLid < |face| && Interpupillary(face, width, height, root) != 0.0 &&
            (LeftVisible(face) == 0.0 || RightVisible(face) == 0.0) ==>
              r == Failure(DivisionByZero)
    ensures |face| <= ShapeAnalysis.RightInner ==> r.Failure? && r.error.MissingLandmark? && |face| <= r.error.index
    ensures ShapeAnalysis.RightUpperLid < |face| <= RightLashLineEnd &&
            Interpupillary(face, width, height, root) != 0.0 &&
            LeftVisible(face) != 0.0 && RightVisible(face) != 0.0 ==>
              r.Failure? && r.error.MissingLandmark? && |face| <= r.error.index <= RightLashLineEnd
    ensures r.Success? ==> r.value == Report(
              Measures(face, width, height, root),
              IsHooded(LeftFold(face), LeftVisible(face)),
              IsHooded(RightFold(face), RightVisible(face)))
  {
    if |face| <= ShapeAnalysis.LeftOuter then Failure(MissingLandmark(ShapeAnalysis.LeftOuter))
    else if |face| <= ShapeAnalysis.LeftInner then Failure(MissingLandmark(ShapeAnalysis.LeftInner))
    else if |face| <= ShapeAnalysis.RightOuter then Failure(MissingLandmark(ShapeAnalysis.RightOuter))
    else if |face| <= ShapeAnalysis.RightInner then Failure(MissingLandmark(ShapeAnalysis.RightInner))
    else if Interpupillary(face, width, height, root) == 0.0 then Failure(DivisionByZero)
    else if |face| <= ShapeAnalysis.RightUpperLid then Failure(MissingLandmark(ShapeAnalysis.RightUpperLid))
    else if LeftVisible(face) == 0.0 || RightVisible(face) == 0.0 then Failure(DivisionByZero)
    else if |face| <= RightLashLineEnd then Failure(MissingLandmark(MissingLashPoint(|face|)))
    else
      Success(Report(
        Measures(face, width, height, root),
        IsHooded(LeftFold(face), LeftVisible(face)),
        IsHooded(RightFold(face), RightVisible(face))))
  }

  /** The first vertex of the right lash line, read in the order 387, 388, 466,
      that a face of n landmarks lacks, when it has 386. */
  function MissingLashPoint(n: nat): (i: nat)
    requires ShapeAnalysis.RightUpperLid < n <= RightLashLineEnd
    ensures n <= i <= RightLashLineEnd
    ensures n == 387 ==> i == 387
    ensures n == 388 ==> i == 388
    ensures 388 < n ==> i == 466
  {
    if n <= 387 then 387 else if n <= 388 then 388 else RightLashLineEnd
  }

  /** A face with the analysis landmarks but not the whole right lash line
      fails, after the analysis, at the first lash-line vertex it lacks. */
  lemma DetectFailsOnLashLine(face: Face, width: nat, height: nat, root: real -> real)
    requires ShapeAnalysis.RightUpperLid < |face| <= RightLashLineEnd
    requires Interpupillary(face, width, height, root) != 0.0
    requires LeftVisible(face) != 0.0 && RightVisible(face) != 0.0
    ensures |face| == 387 ==> Detect(face, width, height, root) == Failure(MissingLandmark(387))
    ensures |face| == 388 ==> Detect(face, width, height, root) == Failure(MissingLandmark(388))
    ensures 388 < |face| ==> Detect(face, width, height, root) == Failure(MissingLandmark(466))
  {
  }

  /** A face too short for the corner reads fails at the first corner it lacks. */
  lemma DetectFailsAtFirstMissingCorner(face: Face, width: nat, height: nat, root: real -> real)
    ensures |face| <= 33 ==> Detect(face, width, height, root) == Failure(MissingLandmark(33))
    ensures 33 < |face| <= 133 ==> Detect(face, width, height, root) == Failure(MissingLandmark(133))
    ensures 133 < |face| <= 263 ==> Detect(face, width, height, root) == Failure(MissingLandmark(263))
    ensures 263 < |face| <= 362 ==> Detect(face, width, height, root) == Failure(MissingLandmark(362))
  {
  }

  /** The hooded note is appended to both texts exactly when one eye is hooded. */
  lemma HoodedNoteIff(s: LashStyle, hooded: bool)
    ensures WithHoodedNote(s, hooded).recommendation == s.recommendation <==> !hooded
    ensures WithHoodedNote(s, hooded).reasoning == s.reasoning <==> !hooded
    ensures WithHoodedNote(s, hooded).shape == s.shape && WithHoodedNote(s, hooded).curveFactor == s.curveFactor
  {
    if hooded {
      assert |s.recommendation + HoodedStyleNote| != |s.recommendation|;
      assert |s.reasoning + HoodedReasonNote| != |s.reasoning|;
    }
  }

  /** With equal non-zero heights the mean of the per-eye ratios is the shape
      analyser's ratio of total width to twice the average height. */
  lemma AverageRatioEqualHeights(leftWidth: real, rightWidth: real, h: int)
    requires h != 0
    ensures AverageRatio(leftWidth, rightWidth, h, h)
            == ShapeAnalysis.RawRatio(leftWidth, rightWidth, ShapeAnalysis.AverageHeight(h as real, h as real))
  {
    var hr := h as real;
    var l, r := EyeRatio(leftWidth, h), EyeRatio(rightWidth, h);
    var avg := AverageRatio(leftWidth, rightWidth, h, h);
    var raw := ShapeAnalysis.RawRatio(leftWidth, rightWidth, ShapeAnalysis.AverageHeight(hr, hr));
    assert ShapeAnalysis.AverageHeight(hr, hr) == hr;
    assert raw * (2.0 * hr) == leftWidth + rightWidth;
    assert (l + r) * hr == leftWidth + rightWidth;
    assert avg * (2.0 * hr) == (l + r) * hr;
    assert (avg - raw) * (2.0 * hr) == 0.0;
  }

  /** A zero-height eye contributes 0 to the mean: the other eye's ratio is halved
      (the shape analyser falls back to the other eye instead), and with both
      heights zero the mean is 0, which is labelled round. */
  lemma ZeroHeightHalvesRatio(leftWidth: real, rightWidth: real, rightHeight: int)
    ensures AverageRatio(leftWidth, rightWidth, 0, rightHeight) == EyeRatio(rightWidth, rightHeight) / 2.0
    ensures AverageRatio(leftWidth, rightWidth, 0, 0) == 0.0
    ensures ClassifyEye(AverageRatio(leftWidth, rightWidth, 0, 0)) == RoundStyle
  {
  }

  /** Nothing clamps the mean ratio: a 12:1 eye pair reads as 12. */
  lemma AverageRatioUnclamped()
    ensures AverageRatio(12.0, 12.0, 1, 1) == 12.0
    ensures AverageRatio(12.0, 12.0, 1, 1) != ShapeAnalysis.Clamp(AverageRatio(12.0, 12.0, 1, 1))
  {
  }
}
