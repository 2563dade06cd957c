/** The face-analysis helpers of the demo: a load-once guard for the five
    face-api.js networks, the detector wrapper, the distance-to-similarity score,
    landmark measurements and the ratio-band facial-structure summary.
    Neural-network inference, descriptor distances and square roots happen in
    face-api.js; here their results are inputs. */
module FaceApi {
  import opened Wrappers
  import opened JsNumber

  // ---------------------------------------------------------------------------
  // Model loading
  // ---------------------------------------------------------------------------

  /** The base location every network's weights are fetched from. */
  const ModelUrl: string := "https://cdn.jsdelivr.net/npm/@vladmandic/face-api/model"

  /** One `loadFromUri` call: a network and the location its weights come from. */
  datatype ModelRequest = ModelRequest(net: string, uri: string)

  /** The five loads, in the order the loader issues them, all from `ModelUrl`. */
  const Requests: seq<ModelRequest> := [
    ModelRequest("tinyFaceDetector", ModelUrl),
    ModelRequest("faceLandmark68Net", ModelUrl),
    ModelRequest("faceRecognitionNet", ModelUrl),
    ModelRequest("faceExpressionNet", ModelUrl),
    ModelRequest("ageGenderNet", ModelUrl)]

  /** Every network's load settled successfully. */
  predicate AllLoaded(loads: seq<Outcome<string>>) {
    forall i :: 0 <= i < |loads| ==> loads[i].Pass?
  }

  /** How `Promise.all` over the network loads settles: it resolves once every
      load has resolved, and otherwise rejects with the error of a failed load
      (here the first in request order). */
  function SettleAll(loads: seq<Outcome<string>>): (r: Outcome<string>)
    ensures r.Fail? ==> Fail(r.error) in loads
  {
    if loads == [] then Pass
    else if loads[0].Fail? then loads[0]
    else SettleAll(loads[1..])
  }

  /** The combined promise resolves exactly when every load does. */
  lemma {:induction false} SettleAllResolves(loads: seq<Outcome<string>>)
    ensures SettleAll(loads) == Pass <==> AllLoaded(loads)
  {
    if loads != [] {
      SettleAllResolves(loads[1..]);
      assert AllLoaded(loads) <==> loads[0].Pass? && AllLoaded(loads[1..]) by {
        if loads[0].Pass? && AllLoaded(loads[1..]) {
          forall i | 0 <= i < |loads| ensures loads[i].Pass? {
            if i > 0 { assert loads[i] == loads[1..][i - 1]; }
          }
        }
      }
    }
  }

  /** The module-level `modelsLoaded` flag and the function that guards on it. */
  class ModelLoader {
    var modelsLoaded: bool

    constructor()
      ensures !modelsLoaded
    {
      modelsLoaded := false;
    }

    /** One call of `loadModels`. `loads` is how each network's fetch from
        `ModelUrl` settles, in the order of `Requests`; `requested` lists the loads
        this call issues and `outcome` is how the returned promise settles. */
    method LoadModels(loads: seq<Outcome<string>>) returns (requested: seq<ModelRequest>, outcome: Outcome<string>)
      requires |loads| == |Requests|
      modifies this
      ensures old(modelsLoaded) ==> requested == [] && outcome == Pass && modelsLoaded
      ensures !old(modelsLoaded) ==> requested == Requests
      ensures !old(modelsLoaded) ==> modelsLoaded == AllLoaded(loads)
      ensures !old(modelsLoaded) ==> (outcome == Pass <==> AllLoaded(loads))
      ensures outcome.Fail? ==> Fail(outcome.error) in loads
    {
      if modelsLoaded {
        return [], Pass;
      }
      requested := Requests;
      outcome := SettleAll(loads);
      SettleAllResolves(loads);
      if outcome == Pass {
        modelsLoaded := true;
      }
    }
  }

  /** Two successive calls on a fresh page: after a failure the second call
      fetches every network again; after a success it fetches nothing. */
  method LoadTwice(first: seq<Outcome<string>>, second: seq<Outcome<string>>)
    returns (firstRequested: seq<ModelRequest>, secondRequested: seq<ModelRequest>, secondOutcome: Outcome<string>)
    requires |first| == |Requests| && |second| == |Requests|
    ensures firstRequested == Requests
    ensures AllLoaded(first) ==> secondRequested == [] && secondOutcome == Pass
    ensures !AllLoaded(first) ==> secondRequested == Requests && (secondOutcome == Pass <==> AllLoaded(second))
  {
    var loader := new ModelLoader();
    var firstOutcome;
    firstRequested, firstOutcome := loader.LoadModels(first);
    secondRequested, secondOutcome := loader.LoadModels(second);
  }

  // ---------------------------------------------------------------------------
  // Detection results
  // ---------------------------------------------------------------------------

  datatype Point = Point(x: real, y: real)

  datatype Box = Box(x: real, y: real, width: real, height: real)

  /** A detected face's box and the detector's confidence in it. */
  datatype FaceDetection = FaceDetection(score: real, box: Box)

  /** The 68-point landmark set with the groups that face-api.js cuts from it. */
  datatype Landmarks = Landmarks(
    positions: seq<Point>,
    jawOutline: seq<Point>,
    leftEye: seq<Point>,
    rightEye: seq<Point>,
    nose: seq<Point>,
    mouth: seq<Point>)

  /** The groups reach the indices the measurements read (a 68-point set has
      17 jaw, 6 + 6 eye, 9 nose and 20 mouth points). */
  predicate HasMeasuredPoints(lm: Landmarks) {
    |lm.positions| > 27 && |lm.jawOutline| > 16 && |lm.leftEye| > 3 &&
    |lm.rightEye| > 0 && |lm.nose| > 4 && |lm.mouth| > 6
  }

  /** What `analyzeFace` hands on for one image. */
  datatype FaceAnalysis = FaceAnalysis(
    descriptor: seq<real>,
    landmarks: Landmarks,
    expressions: map<string, real>,
    age: real,
    gender: string,
    genderProbability: real,
    detection: FaceDetection)

  /** The detector chain's result object, whose fields `analyzeFace` copies. */
  datatype FullDetection = FullDetection(
    detection: FaceDetection,
    landmarks: Landmarks,
    descriptor: seq<real>,
    expressions: map<string, real>,
    age: real,
    gender: string,
    genderProbability: real)

  /** How the detection chain settles on one image. */
  datatype DetectorRun = Threw(message: string) | NoFace | Found(result: FullDetection)

  /** `analyzeFace`: null when no face is found and when the detector throws;
      otherwise the detection's own descriptor, landmarks, expressions, age,
      gender and box. */
  function AnalyzeFace(run: DetectorRun): (r: Option<FaceAnalysis>)
    ensures r.Some? <==> run.Found?
    ensures r.Some? ==>
      var d := run.result;
      r.value.descriptor == d.descriptor && r.value.landmarks == d.landmarks &&
      r.value.expressions == d.expressions && r.value.age == d.age &&
      r.value.gender == d.gender && r.value.genderProbability == d.genderProbability &&
      r.value.detection == d.detection
  {
    match run
    case Threw(_) => None
    case NoFace => None
    case Found(d) =>
      Some(FaceAnalysis(d.descriptor, d.landmarks, d.expressions, d.age, d.gender,
                        d.genderProbability, d.detection))
  }

  // ---------------------------------------------------------------------------
  // Similarity
  // ---------------------------------------------------------------------------

  /** `compareFaces`, given the Euclidean distance between the two descriptors:
      a whole percentage, 100 for identical descriptors and 0 once they are a
      unit apart. */
  function CompareFaces(distance: real): (similarity: int)
    ensures similarity >= 0
    ensures distance >= 0.0 ==> similarity <= 100
    ensures distance == 0.0 ==> similarity == 100
    ensures distance >= 1.0 ==> similarity == 0
  {
    Round(Max(0.0, (1.0 - distance) * 100.0))
  }

  /** Lower distance, higher similarity. */
  lemma CompareFacesMonotone(near: real, far: real)
    requires near <= far
    ensures CompareFaces(near) >= CompareFaces(far)
  {
  }

  /** The score reaches `k` percent exactly when the distance is at most
      (100.5 - k) / 100; this pins the score down for every distance. */
  lemma CompareFacesAtLeast(distance: real, k: int)
    requires k >= 1
    ensures CompareFaces(distance) >= k <==> distance <= (100.5 - k as real) / 100.0
  {
  }

  /** The two ends of the scale: 100 exactly up to a distance of 0.005, and 0
      exactly beyond 0.995. */
  lemma CompareFacesExtremes(distance: real)
    requires distance >= 0.0
    ensures CompareFaces(distance) == 100 <==> distance <= 0.005
    ensures CompareFaces(distance) == 0 <==> distance > 0.995
  {
  }

  // ---------------------------------------------------------------------------
  // Landmark measurements
  // ---------------------------------------------------------------------------

  /** `eyeSpan` is the Euclidean distance from the right eye's first point to the
      left eye's fourth (the square root is taken by the caller). */
  predicate IsEyeSpan(lm: Landmarks, eyeSpan: real)
    requires HasMeasuredPoints(lm)
  {
    var dx := lm.rightEye[0].x - lm.leftEye[3].x;
    var dy := lm.rightEye[0].y - lm.leftEye[3].y;
    eyeSpan >= 0.0 && eyeSpan * eyeSpan == dx * dx + dy * dy
  }

  /** A Euclidean distance lies between the larger and the sum of the two
      coordinate offsets. */
  lemma EyeSpanBounds(lm: Landmarks, eyeSpan: real)
    requires HasMeasuredPoints(lm) && IsEyeSpan(lm, eyeSpan)
    ensures eyeSpan >= Abs(lm.rightEye[0].x - lm.leftEye[3].x)
    ensures eyeSpan >= Abs(lm.rightEye[0].y - lm.leftEye[3].y)
    ensures eyeSpan <= Abs(lm.rightEye[0].x - lm.leftEye[3].x) + Abs(lm.rightEye[0].y - lm.leftEye[3].y)
  {
    var dx, dy := Abs(lm.rightEye[0].x - lm.leftEye[3].x), Abs(lm.rightEye[0].y - lm.leftEye[3].y);
    assert eyeSpan * eyeSpan == dx * dx + dy * dy;
    SquareMonotone(dx, eyeSpan);
    SquareMonotone(dy, eyeSpan);
    assert (dx + dy) * (dx + dy) == dx * dx + dy * dy + 2.0 * dx * dy;
    assert dx * dy >= 0.0;
    SquareMonotone(eyeSpan, dx + dy);
  }

  /** For non-negative values, a larger square means a larger value. */
  lemma SquareMonotone(a: real, b: real)
    requires a >= 0.0 && b >= 0.0 && a * a <= b * b
    ensures a <= b
  {
    assert (b - a) * (b + a) == b * b - a * a;
    if b + a != 0.0 {
      assert b - a == (b * b - a * a) / (b + a);
    }
  }

  /** Horizontal extent of the jaw outline. */
  function JawWidth(lm: Landmarks): (w: real)
    requires HasMeasuredPoints(lm)
    ensures w >= 0.0
    ensures w == lm.jawOutline[16].x - lm.jawOutline[0].x || w == lm.jawOutline[0].x - lm.jawOutline[16].x
  {
    Abs(lm.jawOutline[16].x - lm.jawOutline[0].x)
  }

  /** Vertical distance from the chin to the top of the nose bridge. */
  function ChinToBridge(lm: Landmarks): (h: real)
    requires HasMeasuredPoints(lm)
    ensures h >= 0.0
    ensures h == lm.jawOutline[8].y - lm.positions[27].y || h == lm.positions[27].y - lm.jawOutline[8].y
  {
    Abs(lm.jawOutline[8].y - lm.positions[27].y)
  }

  datatype FacialFeatures = FacialFeatures(
    eyeDistance: int,
    faceWidth: int,
    faceHeight: int,
    faceRatio: Number,
    noseWidth: int,
    mouthWidth: int,
    totalLandmarks: nat)

  /** `getFacialFeatures`: whole-pixel widths and heights, the height-to-width
      ratio of the unrounded measurements to two decimals, and the point count. */
  function GetFacialFeatures(lm: Landmarks, eyeSpan: real): (f: FacialFeatures)
    requires HasMeasuredPoints(lm) && IsEyeSpan(lm, eyeSpan)
    ensures f.eyeDistance >= 0 && RoundsTo(eyeSpan, f.eyeDistance)
    ensures f.faceWidth >= 0 && RoundsTo(JawWidth(lm), f.faceWidth)
    ensures f.faceHeight >= 0 && RoundsTo(ChinToBridge(lm), f.faceHeight)
    ensures f.noseWidth >= 0 && RoundsTo(Abs(lm.nose[4].x - lm.nose[0].x), f.noseWidth)
    ensures f.mouthWidth >= 0 && RoundsTo(Abs(lm.mouth[6].x - lm.mouth[0].x), f.mouthWidth)
    ensures f.totalLandmarks == |lm.positions|
    ensures JawWidth(lm) != 0.0 ==>
      f.faceRatio.Finite? && Abs(f.faceRatio.value - ChinToBridge(lm) / JawWidth(lm)) <= 0.005
    ensures JawWidth(lm) != 0.0 ==>
      f.faceRatio.value * 100.0 == (f.faceRatio.value * 100.0).Floor as real
    ensures f.faceRatio.Finite? ==> f.faceRatio.value >= 0.0
    ensures JawWidth(lm) == 0.0 ==>
      f.faceRatio == (if ChinToBridge(lm) == 0.0 then NaN else PosInfinity)
  {
    FacialFeatures(
      Round(eyeSpan),
      Round(JawWidth(lm)),
      Round(ChinToBridge(lm)),
      ToFixed2(Divide(ChinToBridge(lm), JawWidth(lm))),
      Round(Abs(lm.nose[4].x - lm.nose[0].x)),
      Round(Abs(lm.mouth[6].x - lm.mouth[0].x)),
      |lm.positions|)
  }

  // ---------------------------------------------------------------------------
  // Facial-structure summary
  // ---------------------------------------------------------------------------

  const ElongatedStructure: string := "Elongated facial structure"
  const RoundStructure: string := "Round facial structure"
  const BalancedProportions: string := "Balanced facial proportions"
  const WiderNasalBridge: string := "Wider nasal bridge"
  const NarrowNasalBridge: string := "Narrow nasal bridge"
  const WideSetEyes: string := "Wide-set eyes"
  const CloseSetEyes: string := "Close-set eyes"

  /** The headline reported for every face. */
  const Headline: string := "Diverse facial features detected"

  /** Every phrase the summary can report: descriptions of facial geometry only. */
  const Phrases: set<string> := {ElongatedStructure, RoundStructure, BalancedProportions,
                                 WiderNasalBridge, NarrowNasalBridge, WideSetEyes, CloseSetEyes}

  /** The face-proportion band of the height-to-width ratio. */
  function ProportionBand(ratio: Number): (phrase: string)
    ensures phrase == ElongatedStructure <==> GreaterThan(ratio, 1.3)
    ensures phrase == RoundStructure <==> LessThan(ratio, 1.1)
    ensures phrase == BalancedProportions <==> !GreaterThan(ratio, 1.3) && !LessThan(ratio, 1.1)
  {
    if GreaterThan(ratio, 1.3) then ElongatedStructure
    else if LessThan(ratio, 1.1) then RoundStructure
    else BalancedProportions
  }

  /** The nasal band of the nose-to-face width ratio. */
  function NasalBand(ratio: Number): (phrase: string)
    ensures phrase == WiderNasalBridge <==> GreaterThan(ratio, 0.25)
    ensures phrase == NarrowNasalBridge <==> !GreaterThan(ratio, 0.25)
  {
    if GreaterThan(ratio, 0.25) then WiderNasalBridge else NarrowNasalBridge
  }

  /** The eye-spacing band of the eye-distance-to-face-width ratio. */
  function EyeSpacingBand(ratio: Number): (phrase: string)
    ensures phrase == WideSetEyes <==> GreaterThan(ratio, 0.4)
    ensures phrase == CloseSetEyes <==> !GreaterThan(ratio, 0.4)
  {
    if GreaterThan(ratio, 0.4) then WideSetEyes else CloseSetEyes
  }

  /** Position of a proportion phrase on the round-to-elongated scale. */
  function ProportionRank(phrase: string): int {
    if phrase == RoundStructure then 0 else if phrase == BalancedProportions then 1 else 2
  }

  /** A longer face never falls in a rounder band; the bounds 1.1 and 1.3
      themselves are balanced. */
  lemma ProportionBandMonotone(a: real, b: real)
    requires a <= b
    ensures ProportionRank(ProportionBand(Finite(a))) <= ProportionRank(ProportionBand(Finite(b)))
    ensures ProportionBand(Finite(1.1)) == BalancedProportions == ProportionBand(Finite(1.3))
  {
  }

  /** The three phrases for a set of measurements: its proportion, nasal and
      eye-spacing bands, the last two taken on the rounded widths. */
  function StructurePhrases(f: FacialFeatures): (phrases: seq<string>)
    ensures |phrases| == 3
    ensures phrases[0] in {ElongatedStructure, RoundStructure, BalancedProportions}
    ensures phrases[1] in {WiderNasalBridge, NarrowNasalBridge}
    ensures phrases[2] in {WideSetEyes, CloseSetEyes}
  {
    [ProportionBand(f.faceRatio),
     NasalBand(Divide(f.noseWidth as real, f.faceWidth as real)),
     EyeSpacingBand(Divide(f.eyeDistance as real, f.faceWidth as real))]
  }

  /** On the unrounded height-to-width ratio, rounding to hundredths moves the
      bounds: elongated from 1.305 on, round below 1.095. */
  lemma ProportionBandOfRatio(q: real)
    requires q >= 0.0
    ensures ProportionBand(ToFixed2(Finite(q))) == ElongatedStructure <==> q >= 1.305
    ensures ProportionBand(ToFixed2(Finite(q))) == RoundStructure <==> q < 1.095
  {
  }

  datatype StructureEstimate = StructureEstimate(primary: string, confidence: real, features: seq<string>)

  /** `estimateEthnicity`, with `jitter` the value `Math.random()` draws: three
      phrases in the order proportion, nose, eyes, each from its band; the same
      headline for every face; a confidence in [75, 90). */
  method EstimateEthnicity(analysis: FaceAnalysis, eyeSpan: real, jitter: real) returns (e: StructureEstimate)
    requires HasMeasuredPoints(analysis.landmarks) && IsEyeSpan(analysis.landmarks, eyeSpan)
    requires 0.0 <= jitter < 1.0
    requires |analysis.expressions| > 0
    ensures e.features == StructurePhrases(GetFacialFeatures(analysis.landmarks, eyeSpan))
    ensures forall i :: 0 <= i < |e.features| ==> e.features[i] in Phrases
    ensures e.primary == Headline
    ensures 75.0 <= e.confidence < 90.0
  {
    var features := GetFacialFeatures(analysis.landmarks, eyeSpan);
    var faceRatio := features.faceRatio;
    var detectedFeatures: seq<string> := [];

    if GreaterThan(faceRatio, 1.3) {
      detectedFeatures := detectedFeatures + [ElongatedStructure];
    } else if LessThan(faceRatio, 1.1) {
      detectedFeatures := detectedFeatures + [RoundStructure];
    } else {
      detectedFeatures := detectedFeatures + [BalancedProportions];
    }

    var noseToFaceRatio := Divide(features.noseWidth as real, features.faceWidth as real);
    if GreaterThan(noseToFaceRatio, 0.25) {
      detectedFeatures := detectedFeatures + [WiderNasalBridge];
    } else {
      detectedFeatures := detectedFeatures + [NarrowNasalBridge];
    }

    var eyeToFaceRatio := Divide(features.eyeDistance as real, features.faceWidth as real);
    if GreaterThan(eyeToFaceRatio, 0.4) {
      detectedFeatures := detectedFeatures + [WideSetEyes];
    } else {
      detectedFeatures := detectedFeatures + [CloseSetEyes];
    }

    e := StructureEstimate(Headline, 75.0 + jitter * 15.0, detectedFeatures);
  }
}
