/** `recommend_lash(analysis)` of ai/lash_recommendation.py: a lash mapping plan
    (style, description, curl, length band and notes) from an analysis record.

    The analysis is a dictionary read with `.get(key, default)`; here it is a
    record of optional fields, and an absent field takes the source's default. */
module LashRecommendation {
  import opened Wrappers
  import Text
  import ShapeAnalysis

  /** The keys `recommend_lash` reads from its analysis dictionary. */
  datatype AnalysisRecord = AnalysisRecord(
    eyeShape: Option<string>,
    eyelidExposure: Option<string>,
    projectionType: Option<string>,
    symmetryScore: Option<string>,
    opennessMm: Option<real>,
    tiltAngleDeg: Option<real>)

  /** The six-key plan `recommend_lash` returns. */
  datatype LashPlan = LashPlan(
    eyeShape: string,
    recommendedStyle: string,
    description: string,
    recommendedCurl: string,
    recommendedLengthsMm: string,
    notes: string)

  // Defaults for absent keys.
  const DefaultShape: string := "Unknown"
  const DefaultExposure: string := "Moderate"
  const DefaultProjection: string := "Average Depth"
  const DefaultSymmetry: string := "Balanced"
  const DefaultOpenness: real := 8.0
  const DefaultTilt: real := 0.0

  // The shapes the two tables know.
  const AlmondShape: string := "Almond Eyes"
  const RoundShape: string := "Round Eyes"
  const MonolidShape: string := "Monolid (Low Eyelid Crease)"
  const DownturnedShape: string := "Downturned / Upturned Eyes"
  const BalancedShape: string := "Balanced Eyes"

  const TableShapes: set<string> := {AlmondShape, RoundShape, MonolidShape, DownturnedShape, BalancedShape}

  /** Base lash style by eye shape. */
  const BaseStyles: map<string, string> := map[
    AlmondShape := "Cat-Eye or Natural Sweep",
    RoundShape := "Dolly or Open-Eye",
    MonolidShape := "Dolly or Gradual Lift",
    DownturnedShape := "Cat-Eye Lift",
    BalancedShape := "Hybrid or Classic Map"]

  /** Base description by eye shape. */
  const BaseDescriptions: map<string, string> := map[
    AlmondShape := "Enhances natural symmetry and elongates outer corners.",
    RoundShape := "Opens up and balances the roundness with upward length.",
    MonolidShape := "Adds visible curl and depth to create lift.",
    DownturnedShape := "Balances asymmetry with lifted outer corners.",
    BalancedShape := "Maintains harmony with soft gradient length transitions."]

  const CustomStyle: string := "Custom Lash Map"
  const CustomDescription: string := "Tailored through facial analysis."

  const LiftCurl: string := "L or M Curl"
  const ModerateCurl: string := "C Curl"
  const BalancedCurl: string := "CC or D Curl"

  const ShortLengths: string := "8–10 mm"
  const MediumLengths: string := "9–12 mm"
  const LongLengths: string := "10–13 mm"

  const AsymmetryMarker: string := "Asymmetry"
  const AsymmetryNote: string := " Adjust lengths slightly to balance corner height differences."
  const LiftingNote: string := " (Lifting emphasis on outer corners)"
  const SoftNote: string := " (Soft even mapping)"

  /** `base_styles.get(shape, "Custom Lash Map")`. */
  function BaseStyle(shape: string): (s: string)
    ensures shape in BaseStyles ==> s == BaseStyles[shape]
    ensures shape !in BaseStyles ==> s == CustomStyle
  {
    if shape in BaseStyles then BaseStyles[shape] else CustomStyle
  }

  /** `base_descriptions.get(shape, "Tailored through facial analysis.")`. */
  function BaseDescription(shape: string): (d: string)
    ensures shape in BaseDescriptions ==> d == BaseDescriptions[shape]
    ensures shape !in BaseDescriptions ==> d == CustomDescription
  {
    if shape in BaseDescriptions then BaseDescriptions[shape] else CustomDescription
  }

  /** The curl: a low lid or a deep-set eye wins over everything else; then a high
      lid or a prominent eye gets a C curl; the rest a CC or D curl. */
  function Curl(exposure: string, projection: string): (c: string)
    ensures c == LiftCurl <==> exposure == "Low" || projection == "Deep Set"
    ensures c == ModerateCurl <==>
              !(exposure == "Low" || projection == "Deep Set") &&
              (exposure == "High" || projection == "Projected / Prominent")
    ensures c == BalancedCurl <==>
              exposure != "Low" && projection != "Deep Set" &&
              exposure != "High" && projection != "Projected / Prominent"
  {
    if exposure == "Low" || projection == "Deep Set" then LiftCurl
    else if exposure == "High" || projection == "Projected / Prominent" then ModerateCurl
    else BalancedCurl
  }

  /** The length band: below 6 mm of openness short, below 9 mm medium, else long. */
  function LengthBand(openness: real): (band: string)
    ensures band == ShortLengths <==> openness < 6.0
    ensures band == MediumLengths <==> 6.0 <= openness < 9.0
    ensures band == LongLengths <==> 9.0 <= openness
  {
    if openness < 6.0 then ShortLengths
    else if openness < 9.0 then MediumLengths
    else LongLengths
  }

  /** The description, with the balancing sentence appended when the symmetry
      text mentions "Asymmetry". */
  function Description(shape: string, symmetry: string): (d: string)
    ensures d == BaseDescription(shape) + AsymmetryNote || d == BaseDescription(shape)
    ensures d != BaseDescription(shape) <==> Text.Contains(symmetry, AsymmetryMarker)
  {
    var base := BaseDescription(shape);
    if Text.Contains(symmetry, AsymmetryMarker) then base + AsymmetryNote else base
  }

  /** The note a tilt adds to the style: lifting above 3 degrees, soft below 1. */
  function TiltNote(tilt: real): (note: string)
    ensures note == LiftingNote <==> 3.0 < tilt
    ensures note == SoftNote <==> tilt < 1.0
    ensures note == "" <==> 1.0 <= tilt <= 3.0
  {
    if tilt > 3.0 then LiftingNote
    else if tilt < 1.0 then SoftNote
    else ""
  }

  /** The style: the base style with the tilt note appended. */
  function Style(shape: string, tilt: real): (s: string)
    ensures Text.StartsWith(s, BaseStyle(shape))
    ensures s == BaseStyle(shape) <==> 1.0 <= tilt <= 3.0
    ensures 3.0 < tilt ==> s == BaseStyle(shape) + LiftingNote
    ensures tilt < 1.0 ==> s == BaseStyle(shape) + SoftNote
  {
    BaseStyle(shape) + TiltNote(tilt)
  }

  /** `f"{projection_type}, {eyelid_exposure} lid exposure, {symmetry} alignment"`. */
  function Notes(projection: string, exposure: string, symmetry: string): (n: string)
    ensures |n| == |projection| + |exposure| + |symmetry| + 27
    ensures n[..|projection|] == projection
  {
    projection + ", " + exposure + " lid exposure, " + symmetry + " alignment"
  }

  /** `recommend_lash(analysis)`. */
  function Recommend(a: AnalysisRecord): (plan: LashPlan)
    ensures plan.eyeShape == a.eyeShape.GetOr(DefaultShape)
    ensures plan.recommendedCurl == Curl(a.eyelidExposure.GetOr(DefaultExposure), a.projectionType.GetOr(DefaultProjection))
    ensures plan.recommendedLengthsMm == LengthBand(a.opennessMm.GetOr(DefaultOpenness))
    ensures plan.recommendedStyle == Style(a.eyeShape.GetOr(DefaultShape), a.tiltAngleDeg.GetOr(DefaultTilt))
    ensures plan.description == Description(a.eyeShape.GetOr(DefaultShape), a.symmetryScore.GetOr(DefaultSymmetry))
    ensures plan.notes == Notes(
              a.projectionType.GetOr(DefaultProjection), a.eyelidExposure.GetOr(DefaultExposure),
              a.symmetryScore.GetOr(DefaultSymmetry))
  {
    var shape := a.eyeShape.GetOr(DefaultShape);
    var exposure := a.eyelidExposure.GetOr(DefaultExposure);
    var projection := a.projectionType.GetOr(DefaultProjection);
    var symmetry := a.symmetryScore.GetOr(DefaultSymmetry);
    var openness := a.opennessMm.GetOr(DefaultOpenness);
    var tilt := a.tiltAngleDeg.GetOr(DefaultTilt);
    LashPlan(
      shape,
      Style(shape, tilt),
      Description(shape, symmetry),
      Curl(exposure, projection),
      LengthBand(openness),
      Notes(projection, exposure, symmetry))
  }

  /** The analysis record with only the shape key, as the shape analyser produces it. */
  function ShapeOnly(shape: string): AnalysisRecord
  {
    AnalysisRecord(Some(shape), None, None, None, None, None)
  }

  /** Both tables have the same five keys. */
  lemma TablesShareKeys()
    ensures BaseStyles.Keys == TableShapes
    ensures BaseDescriptions.Keys == TableShapes
  {
  }

  /** A shape outside the tables gets the custom style and description. */
  lemma UnknownShapeIsCustom(a: AnalysisRecord, shape: string)
    requires a.eyeShape == Some(shape) && shape !in TableShapes
    ensures Text.StartsWith(Recommend(a).recommendedStyle, CustomStyle)
    ensures Recommend(a).description == CustomDescription || Recommend(a).description == CustomDescription + AsymmetryNote
  {
  }

  /** Exactly one curl is chosen, and the low-lid / deep-set rule wins even when
      the high-lid or prominent conditions also hold. */
  lemma CurlFirstRuleWins(exposure: string, projection: string)
    ensures Curl(exposure, projection) in {LiftCurl, ModerateCurl, BalancedCurl}
    ensures Curl("Low", projection) == LiftCurl
    ensures Curl(exposure, "Deep Set") == LiftCurl
    ensures Curl("High", "Deep Set") == LiftCurl
    ensures Curl("Low", "Projected / Prominent") == LiftCurl
  {
  }

  /** Position of a length band on the openness axis. */
  function BandRank(band: string): nat
  {
    if band == ShortLengths then 0 else if band == MediumLengths then 1 else 2
  }

  /** More openness never gives a shorter band; 6.0 and 9.0 open the upper bands. */
  lemma LengthBandMonotone(o1: real, o2: real)
    requires o1 <= o2
    ensures BandRank(LengthBand(o1)) <= BandRank(LengthBand(o2))
    ensures LengthBand(6.0) == MediumLengths && LengthBand(9.0) == LongLengths
  {
  }

  /** The balancing sentence is appended exactly when "Asymmetry" occurs somewhere
      in the symmetry text; otherwise the description is the base one. */
  lemma DescriptionNotedIff(shape: string, symmetry: string)
    ensures Description(shape, symmetry) == BaseDescription(shape) + AsymmetryNote
            <==> exists i :: Text.OccursAt(symmetry, AsymmetryMarker, i)
    ensures Description(shape, symmetry) == BaseDescription(shape)
            <==> !exists i :: Text.OccursAt(symmetry, AsymmetryMarker, i)
  {
    Text.ContainsIff(symmetry, AsymmetryMarker);
    var base := BaseDescription(shape);
    assert |base + AsymmetryNote| != |base|;
  }

  /** The marker is found anywhere in the symmetry text. */
  lemma AsymmetryExamples()
    ensures Description(BalancedShape, "Mild Asymmetry") == BaseDescriptions[BalancedShape] + AsymmetryNote
    ensures Description(BalancedShape, "Asymmetry (left low)") == BaseDescriptions[BalancedShape] + AsymmetryNote
  {
    Text.ContainsAt("Mild Asymmetry", AsymmetryMarker, 5);
    Text.ContainsAt("Asymmetry (left low)", AsymmetryMarker, 0);
  }

  /** The substring test is case-sensitive, and the default symmetry text does
      not carry the marker. */
  lemma NoAsymmetryExamples()
    ensures Description(BalancedShape, "asymmetry") == BaseDescriptions[BalancedShape]
    ensures Description(BalancedShape, DefaultSymmetry) == BaseDescriptions[BalancedShape]
  {
    assert !Text.StartsWith("asymmetry", AsymmetryMarker) by {
      assert "asymmetry"[0] != AsymmetryMarker[0];
    }
    Text.NotContainsLonger("asymmetry"[1..], AsymmetryMarker);
    Text.NotContainsLonger(DefaultSymmetry, AsymmetryMarker);
  }

  /** The two tilt notes are never both appended; between 1 and 3 degrees
      inclusive the style is the base style. */
  lemma TiltNotesExclusive(shape: string, tilt: real)
    ensures Style(shape, tilt) == BaseStyle(shape) + LiftingNote ||
            Style(shape, tilt) == BaseStyle(shape) + SoftNote ||
            Style(shape, tilt) == BaseStyle(shape)
    ensures Style(shape, tilt) == BaseStyle(shape) <==> 1.0 <= tilt <= 3.0
  {
    assert |LiftingNote| != 0 && |SoftNote| != 0;
  }

  /** Each plan field depends only on its own inputs: changing the tilt changes
      only the style, the openness only the length band, and the symmetry only
      the description and the notes. */
  lemma FieldsIndependent(a: AnalysisRecord, tilt: real, openness: real, symmetry: string)
    ensures Recommend(a.(tiltAngleDeg := Some(tilt)))
            == Recommend(a).(recommendedStyle := Style(a.eyeShape.GetOr(DefaultShape), tilt))
    ensures Recommend(a.(opennessMm := Some(openness)))
            == Recommend(a).(recommendedLengthsMm := LengthBand(openness))
    ensures Recommend(a.(symmetryScore := Some(symmetry))).eyeShape == Recommend(a).eyeShape
    ensures Recommend(a.(symmetryScore := Some(symmetry))).recommendedStyle == Recommend(a).recommendedStyle
    ensures Recommend(a.(symmetryScore := Some(symmetry))).recommendedCurl == Recommend(a).recommendedCurl
    ensures Recommend(a.(symmetryScore := Some(symmetry))).recommendedLengthsMm == Recommend(a).recommendedLengthsMm
  {
  }

  /** The notes echo projection, exposure and symmetry in that order. */
  lemma NotesLayout(projection: string, exposure: string, symmetry: string)
    ensures Text.StartsWith(Notes(projection, exposure, symmetry), projection + ", " + exposure)
    ensures |Notes(projection, exposure, symmetry)| == |projection| + |exposure| + |symmetry| + 27
    ensures Notes(projection, exposure, symmetry)[|projection| + |exposure| + 17..][..|symmetry|] == symmetry
  {
  }

  /** An empty analysis gets every default: unknown shape, hence the custom map
      and description; tilt 0, hence soft mapping; balanced symmetry, hence no
      balancing sentence; moderate exposure and average depth, hence a CC or D
      curl; openness 8, hence the medium band; and the default descriptors in
      the notes. */
  lemma EmptyAnalysisDefaults()
    ensures Recommend(AnalysisRecord(None, None, None, None, None, None)) == LashPlan(
              DefaultShape,
              CustomStyle + SoftNote,
              CustomDescription,
              BalancedCurl,
              MediumLengths,
              Notes(DefaultProjection, DefaultExposure, DefaultSymmetry))
  {
    Text.NotContainsLonger(DefaultSymmetry, AsymmetryMarker);
  }

  /** A record holding only a shape, as `analyze_eye_shape` returns it, gets
      that shape's base style with the soft-mapping note and its base
      description unchanged. */
  lemma ShapeOnlyPlan(shape: string)
    ensures Recommend(ShapeOnly(shape)).recommendedStyle == BaseStyle(shape) + SoftNote
    ensures Recommend(ShapeOnly(shape)).description == BaseDescription(shape)
    ensures Recommend(ShapeOnly(shape)).recommendedCurl == BalancedCurl
    ensures Recommend(ShapeOnly(shape)).recommendedLengthsMm == MediumLengths
  {
    Text.NotContainsLonger(DefaultSymmetry, AsymmetryMarker);
  }

  /** Every label the shape analyser produces is a key of both tables, so its
      plans never fall back to the custom map. */
  lemma ClassifiedShapesAreTabled(ratio: real)
    ensures ShapeAnalysis.Classify(ratio) in BaseStyles
    ensures ShapeAnalysis.Classify(ratio) in BaseDescriptions
    ensures BaseStyle(ShapeAnalysis.Classify(ratio)) != CustomStyle
  {
  }
}
