# Eye-shape classifier and lash recommender, modelled in Dafny

This project models the rule-based core of an eyelash-extension fitting
service. Face-mesh landmarks of one face become eye widths, eye heights, a
width/height ratio and a millimetre scale. The ratio picks one of three eye-shape
labels. An analysis record becomes a lash plan: style, description, curl,
length band and notes.

Three pieces of the repository are modelled separately, because their rules
differ:

- `ShapeAnalysis` (`shape_analysis.dfy`) is `analyze_eye_shape(face)` of
  `ai/shape_analysis.py`. It works on normalized landmark coordinates. The
  scale and the height have guarded fallbacks, and the ratio is clamped to
  [1, 5].
- `LashRecommendation` (`lash_recommendation.dfy`) is `recommend_lash(analysis)`
  of `ai/lash_recommendation.py`. It is a total map from a record of optional
  fields to a six-field plan.
- `EyeDetection` (`eye_detection.dfy`) is the measurement and classification
  part of the older root `eye_detection.py`. It works in truncated pixel
  coordinates. It averages per-eye ratios without clamping, divides by the
  interpupillary distance and the visible lid heights without a guard, and
  adds a hooded-eye test.

Shared pieces:

- `FaceMesh` (`face_mesh.dfy`) holds landmarks, indexed reads that fail like a
  Python `IndexError`, the Euclidean distance and the vertical gap.
- `Text` (`text.dfy`) is Python's substring test `needle in text`.
- `Wrappers` (`wrappers.dfy`) holds `Option` and `Result`.

All three source functions are pure in the modelled part. They become
functions and lemmas. An exception the source would raise becomes a
`Failure`:

- `MissingLandmark(i)` for the first landmark read, in source order, that the
  face does not have;
- `DivisionByZero` for an unguarded division by zero.

`math.sqrt` has no definition over Dafny's reals, so every distance takes the
square root as a parameter `root`. Lemmas that need its properties require
`IsSqrt(root)`, which says that `root` returns the non-negative square root of
every non-negative argument.

## Model

| member | source | states |
|---|---|---|
| FaceMesh.LandmarkAt | ai/shape_analysis.py:14-15 | `face.landmark[i]` succeeds exactly when i is below the list length, returns that landmark, and otherwise fails with `MissingLandmark(i)` |
| FaceMesh.Abs | ai/shape_analysis.py:26-27 | `abs` is non-negative and equals v or -v |
| FaceMesh.SquaredDist | ai/shape_analysis.py:10-11 | the sum of squared coordinate differences is never negative, so `math.sqrt` never sees a negative argument |
| FaceMesh.Square | ai/shape_analysis.py:11 | `v ** 2` is non-negative |
| FaceMesh.VerticalGap | ai/shape_analysis.py:26-27 | an eye height `abs(p.y - q.y)` is non-negative and is one of the two y-differences |
| FaceMesh.Dist | ai/shape_analysis.py:10-11 | the nested `dist`: the square root of the squared distance; with a true square root it is never negative |
| FaceMesh.DistNonNegative | ai/shape_analysis.py:10-11 | with a true square root, every distance is non-negative |
| FaceMesh.DistSymmetric | ai/shape_analysis.py:10-11 | `dist(p, q) == dist(q, p)` |
| FaceMesh.DistSelf | ai/shape_analysis.py:10-11 | the distance from a landmark to itself is 0 |
| FaceMesh.DistTranslated | ai/shape_analysis.py:10-11 | moving both landmarks by the same offset keeps their distance |
| FaceMesh.DistScaled | ai/shape_analysis.py:10-11 | multiplying both landmarks by k >= 0 multiplies their distance by k |
| FaceMesh.SqrtScaled | ai/shape_analysis.py:11 | the square root of k²·d is k times the square root of d |
| FaceMesh.VerticalGapTranslated | ai/shape_analysis.py:26-27 | moving both landmarks by the same offset keeps an eye height |
| FaceMesh.VerticalGapScaled | ai/shape_analysis.py:26-27 | multiplying both landmarks by k >= 0 multiplies an eye height by k |
| Text.ContainsIff | ai/lash_recommendation.py:51 | the left-to-right search answers yes exactly when the needle occurs at some position of the text |
| Text.Contains | ai/lash_recommendation.py:51 | `needle in text`, searched from the left: an occurrence at the start is found, and a needle is only found in a text at least as long |
| Text.ContainsAt | ai/lash_recommendation.py:51 | an occurrence at a known position makes `in` true |
| Text.NotContainsLonger | ai/lash_recommendation.py:51 | a needle longer than the text is never `in` it |
| ShapeAnalysis.Scale | ai/shape_analysis.py:17-19 | if the interpupillary distance is non-zero, scale × distance is exactly 63 mm; if it is zero, the scale is exactly 1; the scale is positive whenever the distance is non-negative |
| ShapeAnalysis.AverageHeight | ai/shape_analysis.py:28 | with a non-zero right height, the result is the mean of the two heights and lies between them; with a zero right height, it is the left height alone; for non-negative heights it is zero only when both are |
| ShapeAnalysis.RawRatio | ai/shape_analysis.py:31 | with a non-zero average height, ratio × 2·height equals the sum of the widths; with a zero height the ratio is 0; non-negative inputs give a non-negative ratio |
| ShapeAnalysis.Clamp | ai/shape_analysis.py:32 | the result lies in [1, 5], is the input when the input lies in [1, 5], and is otherwise the bound that was crossed |
| ShapeAnalysis.Classify | ai/shape_analysis.py:34-40 | the label is always one of three; Almond exactly when ratio > 3; Round exactly when ratio < 2; Balanced exactly on the closed band [2, 3] |
| ShapeAnalysis.ReadEyeLandmarks | ai/shape_analysis.py:14-27 | the eight reads succeed exactly when the face has vertex 386; they then return the eight named landmarks; a failure names an index the face lacks |
| ShapeAnalysis.MeasureDistances | ai/shape_analysis.py:18-27 | the interpupillary distance and the two widths are landmark distances (non-negative with a true square root); the two heights are lid gaps and never negative |
| ShapeAnalysis.Summarize | ai/shape_analysis.py:17-44 | widths and heights pass through; the scale is the guarded scale; the ratio is the clamped guarded ratio and lies in [1, 5]; the label is the ratio's class; zero heights give ratio 1 and "Round Eyes"; each lash fit is that eye's width converted to millimetres |
| ShapeAnalysis.LashFit | ai/shape_analysis.py:43-44 | a width in millimetres: with a non-zero interpupillary distance, lash fit × distance is 63 × width; with a zero distance it is the width itself (scale 1) |
| ShapeAnalysis.Measure | ai/shape_analysis.py:10-44 | the analysis of the eight landmarks: the ratio lies in [1, 5] and the label is its class; two zero heights give "Round Eyes" |
| ShapeAnalysis.MeasureBounds | ai/shape_analysis.py:10-44 | with a true square root, all widths, heights and lash fits are non-negative and the scale is positive |
| ShapeAnalysis.CoincidingCornersScaleOne | ai/shape_analysis.py:18-19 | when the inner corners coincide, the scale falls back to exactly 1 and the left lash fit is the raw left width |
| ShapeAnalysis.Analyze | ai/shape_analysis.py:3-63 | the analysis fails exactly when the face lacks vertex 386; a failure is a missing landmark the face does not have; a success is the summary of the measured distances |
| ShapeAnalysis.AnalyzeFailsAtFirstMissing | ai/shape_analysis.py:14-27 | a short face fails at the first missing read in source order: 33, then 133, then 362, then 386 |
| ShapeAnalysis.ClassifyMonotone | ai/shape_analysis.py:35-40 | a larger ratio never gives a label further towards round |
| ShapeAnalysis.ClampKeepsLabel | ai/shape_analysis.py:32-40 | clamping never changes the label |
| ShapeAnalysis.AverageHeightGuardsOnlyRight | ai/shape_analysis.py:28 | a zero right height falls back to the left height; a zero left height is averaged in and halves the result |
| ShapeAnalysis.RawRatioOfBothEyes | ai/shape_analysis.py:28-31 | with both eyes measured, the raw ratio is total width over total height |
| ShapeAnalysis.MeasureTranslationInvariant | ai/shape_analysis.py:10-44 | moving every landmark by the same offset changes none of the distances and nothing in the analysis |
| ShapeAnalysis.AnalyzeTranslationInvariant | ai/shape_analysis.py:14-44 | moving the whole face changes nothing in the result, failures included |
| ShapeAnalysis.AverageHeightScaled | ai/shape_analysis.py:28 | scaling both heights by k > 0 scales the average height by k |
| ShapeAnalysis.RawRatioScaled | ai/shape_analysis.py:31 | scaling widths and height by k > 0 leaves the raw ratio unchanged |
| ShapeAnalysis.LashFitScaled | ai/shape_analysis.py:43-44 | scaling a width and the interpupillary distance by k > 0 leaves the lash fit in millimetres unchanged |
| ShapeAnalysis.RatioScaled | ai/shape_analysis.py:28-32 | scaling all distances by k > 0 leaves the clamped ratio unchanged |
| ShapeAnalysis.SummarizeScaleInvariant | ai/shape_analysis.py:17-44 | scaling all distances by k > 0, with a non-zero interpupillary distance, keeps the label, the ratio and both lash fits, and scales the widths by k |
| ShapeAnalysis.ScaledEyesDistances | ai/shape_analysis.py:10-27 | multiplying every landmark by k >= 0 multiplies each of the five distances by k |
| ShapeAnalysis.MeasureScaleInvariant | ai/shape_analysis.py:10-44 | the same eyes photographed at another size (every landmark times k > 0) get the same label, ratio and millimetre lash fits, provided the inner corners are apart |
| LashRecommendation.BaseStyle | ai/lash_recommendation.py:15-31 | a shape in the style table gets its entry; any other shape gets "Custom Lash Map" |
| LashRecommendation.BaseDescription | ai/lash_recommendation.py:23-32 | a shape in the description table gets its entry; any other shape gets "Tailored through facial analysis." |
| LashRecommendation.Curl | ai/lash_recommendation.py:35-40 | "L or M Curl" exactly when exposure is Low or projection is Deep Set; "C Curl" exactly when that fails and exposure is High or projection is Projected / Prominent; "CC or D Curl" exactly when none of the four holds |
| LashRecommendation.LengthBand | ai/lash_recommendation.py:43-48 | "8–10 mm" exactly below 6; "9–12 mm" exactly on [6, 9); "10–13 mm" exactly from 9 up |
| LashRecommendation.TiltNote | ai/lash_recommendation.py:55-58 | the lifting note exactly above 3 degrees; the soft-mapping note exactly below 1; no note exactly on [1, 3] |
| LashRecommendation.Style | ai/lash_recommendation.py:31-58 | the style starts with the base style; above 3 degrees it is the base style plus the lifting note, below 1 degree the base style plus the soft note, and on [1, 3] the base style alone |
| LashRecommendation.Description | ai/lash_recommendation.py:32-52 | the description is the base description, with or without the balancing sentence, and differs from it exactly when the symmetry text contains "Asymmetry" |
| LashRecommendation.Notes | ai/lash_recommendation.py:67 | the notes begin with the projection and are 27 characters longer than projection, exposure and symmetry together |
| LashRecommendation.Recommend | ai/lash_recommendation.py:1-68 | every field of the plan follows from the record with each absent key replaced by its default ("Unknown", "Moderate", "Average Depth", "Balanced", 8.0, 0.0): the shape is echoed; the style is the base style plus the tilt note; the description is the base description plus the balancing sentence when called for; the curl, the length band and the notes follow from their inputs |
| LashRecommendation.TablesShareKeys | ai/lash_recommendation.py:15-29 | both tables have exactly the same five shape keys |
| LashRecommendation.UnknownShapeIsCustom | ai/lash_recommendation.py:31-32 | a shape outside the tables gets a style starting with "Custom Lash Map" and the custom description, possibly with the balancing sentence |
| LashRecommendation.CurlFirstRuleWins | ai/lash_recommendation.py:35-40 | exactly one of the three curls is chosen; Low exposure or Deep Set projection wins even when High or Projected also holds |
| LashRecommendation.LengthBandMonotone | ai/lash_recommendation.py:43-48 | more openness never gives a shorter band; 6.0 falls in the medium band and 9.0 in the long band |
| LashRecommendation.DescriptionNotedIff | ai/lash_recommendation.py:51-52 | the balancing sentence is appended exactly when "Asymmetry" occurs somewhere in the symmetry text; otherwise the description is the base one |
| LashRecommendation.AsymmetryExamples | ai/lash_recommendation.py:51-52 | "Mild Asymmetry" and "Asymmetry (left low)" get the balancing sentence: the marker is found anywhere |
| LashRecommendation.NoAsymmetryExamples | ai/lash_recommendation.py:51-52 | lower-case "asymmetry" and the default "Balanced" do not get it, because the test is case-sensitive |
| LashRecommendation.TiltNotesExclusive | ai/lash_recommendation.py:55-58 | the style is the base style plus at most one note; it is the base style exactly for tilt in [1, 3] |
| LashRecommendation.FieldsIndependent | ai/lash_recommendation.py:7-68 | changing the tilt changes only the style; changing the openness changes only the length band; changing the symmetry leaves shape, style, curl and length band alone |
| LashRecommendation.NotesLayout | ai/lash_recommendation.py:67 | the notes start with "projection, exposure", have the fixed 27 extra characters, and carry the symmetry text at its fixed offset |
| LashRecommendation.EmptyAnalysisDefaults | ai/lash_recommendation.py:7-12 | an empty record gets every default: shape "Unknown", custom map with soft mapping, custom description, a CC or D curl, the medium band, and notes naming Average Depth, Moderate and Balanced |
| LashRecommendation.ShapeOnlyPlan | ai/lash_recommendation.py:7-58 | a record holding only a shape gets that shape's base style with the soft-mapping note, its base description, a CC or D curl and the medium band |
| LashRecommendation.ClassifiedShapesAreTabled | ai/lash_recommendation.py:15-29 | every label the shape analyser produces is a key of both tables, so it never falls back to the custom map |
| EyeDetection.Trunc | eye_detection.py:23-24 | `int()` truncates toward zero: for v >= 0 the result is the largest integer not above v; for v < 0 it is the smallest integer not below v |
| EyeDetection.ToPixel | eye_detection.py:23-24 | each pixel coordinate is the scaled coordinate truncated toward zero, as `int()` does: rounded down and non-negative for a non-negative coordinate, rounded up and at most zero when the scaled coordinate is not positive |
| EyeDetection.TruncInRange | eye_detection.py:23-24 | a fraction in [0, 1) of a size n truncates to an index in [0, n) |
| EyeDetection.ToPixelInImage | eye_detection.py:23-24 | a landmark inside the normalized frame maps to a pixel inside the image |
| EyeDetection.IntAbs | eye_detection.py:55-56 | integer `abs` is non-negative and equals v or -v |
| EyeDetection.PixelDist | eye_detection.py:37-38 | the pixel `dist`: the Euclidean distance of the two pixels, never negative with a true square root |
| EyeDetection.EyeRatio | eye_detection.py:57-58 | with a non-zero height, ratio × height equals the width; with a zero height the ratio is 0; non-negative inputs give a non-negative ratio |
| EyeDetection.AverageRatio | eye_detection.py:59 | the average ratio is the plain mean of the two per-eye ratios |
| EyeDetection.ClassifyEye | eye_detection.py:62-76 | exactly one of the three branches is chosen; its label agrees with `ShapeAnalysis.Classify`; curve factor 0.3 exactly above 3, 0.15 exactly below 2, 0.2 exactly on [2, 3] |
| EyeDetection.CurveFactorMonotone | eye_detection.py:62-76 | a larger average ratio never gives a smaller curve factor |
| EyeDetection.IsHooded | eye_detection.py:80-87 | for a positive visible lid height, an eye is hooded exactly when the fold is less than half the visible height |
| EyeDetection.WithHoodedNote | eye_detection.py:89-91 | when hooded, the recommendation and the reasoning get their notes appended; otherwise nothing changes; the label and the curve factor never change |
| EyeDetection.Interpupillary | eye_detection.py:42 | the pixel distance between the inner corners, never negative with a true square root |
| EyeDetection.Measures | eye_detection.py:40-56 | the interpupillary distance is `Interpupillary`; the lid heights in pixel rows are non-negative; with a true square root the distances are non-negative |
| EyeDetection.LeftFold | eye_detection.py:80 | the normalized brow-to-upper-lid gap of the left eye (vertices 65 and 159), never negative |
| EyeDetection.LeftVisible | eye_detection.py:81 | the normalized lid gap of the left eye (159 and 145), never negative |
| EyeDetection.RightFold | eye_detection.py:85 | the normalized brow-to-upper-lid gap of the right eye (295 and 386), never negative |
| EyeDetection.RightVisible | eye_detection.py:86 | the normalized lid gap of the right eye (386 and 374), never negative |
| EyeDetection.Report | eye_detection.py:42-91 | scale × interpupillary distance is 63 mm; the ratio is the unclamped average ratio; the label is that ratio's class; both hooded flags are passed through; the hooded notes are appended to the recommendation and the reasoning exactly when an eye is hooded; each lash length equals the shape analyser's lash fit |
| EyeDetection.Detect | eye_detection.py:23-103 | success exactly when the face has vertex 466 (the highest vertex the right lash line reads) and the interpupillary distance and both visible lid heights are non-zero; a zero interpupillary distance fails with a division error even when 386 is missing; with a non-zero distance a face lacking 386 fails at 386; a face lacking a corner fails at a missing index; with 386 present and a non-zero distance, a zero visible lid height on either eye fails with a division error, before any lash-line read; a face with the analysis landmarks and non-zero divisors but no vertex 466 fails at a lash-line index it lacks; a success is the report of the measurements and both hooded tests |
| EyeDetection.DetectFailsAtFirstMissingCorner | eye_detection.py:27-30 | a face too short for the corner reads fails at the first missing corner: 33, then 133, then 263, then 362 |
| EyeDetection.MissingLashPoint | eye_detection.py:34 | the first of 387, 388, 466, in drawing order, that a face with vertex 386 lacks |
| EyeDetection.DetectFailsOnLashLine | eye_detection.py:94-103 | after a complete analysis, a face of 387 landmarks fails at 387, one of 388 at 388, and any other face without vertex 466 at 466 |
| EyeDetection.HoodedNoteIff | eye_detection.py:89-91 | the recommendation and the reasoning change exactly when an eye is hooded; the label and the curve factor never change |
| EyeDetection.AverageRatioEqualHeights | eye_detection.py:57-59 | with equal non-zero heights, the mean of the per-eye ratios equals the shape analyser's raw ratio |
| EyeDetection.ZeroHeightHalvesRatio | eye_detection.py:57-59 | a zero-height eye contributes 0, which halves the mean; both heights zero give 0 and the round branch |
| EyeDetection.AverageRatioUnclamped | eye_detection.py:59-62 | nothing clamps the mean: a 12:1 eye pair reads as 12, which lies outside the shape analyser's clamp |

## Left out

- Image and model I/O: `cv2.imread`, the colour conversion, the MediaPipe face-mesh call and its two error returns (eye_detection.py:10-20). `Detect` starts from the detected face's landmark list and the image width and height.
- `ai/eye_detection.py` is not part of this model. It only wraps the face-mesh singleton and the image read.
- EyeDetection.Detect: of the drawing and output code (eye_detection.py:93-110, 126) only the landmark reads of the two lash lines are modelled, as the `IndexError` they raise on a face without vertex 466. The polylines, the text, the written image and the `output_image` path are not.
- `round` in ai/shape_analysis.py and eye_detection.py. It is presentation; every contract is about the unrounded values, which are also what the classification reads.
- Floating point. Numbers are exact reals, so IEEE rounding, overflow and NaN are not modelled.
- `math.sqrt` is the parameter `root`. Results that need its properties require `IsSqrt(root)`. Only `dist(p, p) == 0` is proved. The converse, that a zero distance means coinciding landmarks, is not.
- The landmarks' depth coordinate. The source never reads it.
- EyeDetection.Detect: the pixel pipeline truncates, so the translation and scale invariance proved for `ShapeAnalysis` does not carry over and is not stated.
- EyeDetection.Detect: the two hooded divisions are both `DivisionByZero`, so which one fails first is not distinguished.
- EyeDetection.Detect: the curve factor is computed but neither returned nor used by the source. It is kept in `ClassifyEye` only.
- LashRecommendation.Recommend: present values are assumed to have the record's types; values of other types are not modelled. Some of them raise a `TypeError` in Python (a string openness); others produce a plan (a `None` shape, or a list symmetry, for which line 51 is a membership test).
- `backend/main.py` and `backend/routes/analyze.py` are not part of this model. They call `recommend_lash` with the label string rather than a dictionary. The model follows `recommend_lash`'s own contract, a record of optional fields.
- The frontend is not part of this model.
- The richer feature extractor and classifier (openness, tilt, symmetry, projection and exposure extraction; a five-label rule list with openness and tilt thresholds) are not part of this model. No modelled file computes them, so they enter `recommend_lash` only as inputs.
- ShapeAnalysis.AverageHeight: only the right height is guarded (ai/shape_analysis.py:28); a zero left height is averaged in and halves the result. `AverageHeightGuardsOnlyRight` states the asymmetry.
