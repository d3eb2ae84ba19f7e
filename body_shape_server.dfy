/**
 * The analysis endpoint of the body-shape server: the threshold rule that
 * names a body shape from three ratios, the table of style recommendations,
 * and the request handler that runs the pipeline stages in order and stops at
 * the first one that reports an error.
 *
 * Pose detection and measurement estimation are not modelled; the handler
 * takes them as functions, and the elapsed wall-clock time as a number.
 */
module BodyShapeServer {
  import opened Options
  import Text

  const Hourglass: string := "Hourglass"
  const InvertedTriangle: string := "Inverted Triangle"
  const Pear: string := "Pear"
  const Apple: string := "Apple"
  const Rectangle: string := "Rectangle"

  /** The five labels the classifier can produce. */
  const Labels: set<string> := {Hourglass, InvertedTriangle, Pear, Apple, Rectangle}

  const ShapeErrorPrefix: string := "Body shape determination error: "
  /** Python's message for a float division whose divisor is zero. */
  const ZeroDivisionMessage: string := "float division by zero"

  /** What `determine_body_shape` returns: a label, or a dict with an "error" key. */
  datatype ShapeResult = Label(name: string) | ShapeError(message: string)

  /** `str(KeyError(key))`: the key in single quotes. */
  function KeyErrorMessage(key: string): string
  {
    "'" + key + "'"
  }

  /**
   * A ratio as an IEEE double holds it: a finite value, an infinity, or NaN.
   * Only the values a division of finite numbers can produce are told apart.
   */
  datatype Float64 = Finite(value: real) | PosInf | NegInf | NaN

  /** `x < c` against a finite constant: false on NaN. */
  predicate Below(x: Float64, c: real)
  {
    match x
    case Finite(v) => v < c
    case PosInf => false
    case NegInf => true
    case NaN => false
  }

  /** `x > c` against a finite constant: false on NaN. */
  predicate Above(x: Float64, c: real)
  {
    match x
    case Finite(v) => v > c
    case PosInf => true
    case NegInf => false
    case NaN => false
  }

  /**
   * Division of two NumPy float64 scalars: a zero divisor raises nothing and
   * yields an infinity with the dividend's sign, or NaN for 0/0.
   */
  function Float64Div(a: real, b: real): (q: Float64)
    ensures q.Finite? <==> b != 0.0
    ensures q.Finite? ==> q.value * b == a
    ensures q.NaN? <==> a == 0.0 && b == 0.0
    ensures q.PosInf? <==> a > 0.0 && b == 0.0
    ensures q.NegInf? <==> a < 0.0 && b == 0.0
  {
    if b != 0.0 then Finite(a / b)
    else if a > 0.0 then PosInf
    else if a < 0.0 then NegInf
    else NaN
  }

  /** The if/elif chain on the three ratios. */
  function Classify(shoulderHip: Float64, waistShoulder: Float64, waistHip: Float64): (shape: string)
    ensures shape in Labels
  {
    if Below(waistShoulder, 0.75) && Below(waistHip, 0.75) then
      if Above(shoulderHip, 0.95) && Below(shoulderHip, 1.05) then Hourglass
      else if Above(shoulderHip, 1.05) then InvertedTriangle
      else Pear
    else if Above(waistShoulder, 0.85) && Above(waistHip, 0.85) then
      if Above(shoulderHip, 1.05) then Apple else Rectangle
    else Rectangle
  }

  predicate HasShapeKeys(m: map<string, real>)
  {
    "shoulder" in m && "waist" in m && "hips" in m
  }

  /** The first of shoulder, waist and hips, in the order they are read, that is absent. */
  function MissingKey(m: map<string, real>): (key: Option<string>)
    ensures key.None? <==> HasShapeKeys(m)
    ensures key.Some? ==> key.value !in m && key.value in ["shoulder", "waist", "hips"]
    ensures "shoulder" !in m ==> key == Some("shoulder")
  {
    if "shoulder" !in m then Some("shoulder")
    else if "waist" !in m then Some("waist")
    else if "hips" !in m then Some("hips")
    else None
  }

  /**
   * `determine_body_shape` on plain Python floats: the keys are read in the
   * order shoulder, waist, hips, then the ratios shoulder/hips,
   * waist/shoulder and waist/hips are formed; a missing key or a zero
   * divisor raises, and the exception is caught and reported.
   */
  function DetermineBodyShape(m: map<string, real>): (r: ShapeResult)
    ensures r.Label? ==> r.name in Labels
    ensures r.ShapeError? <==> !HasShapeKeys(m) || m["hips"] == 0.0 || m["shoulder"] == 0.0
    ensures "shoulder" !in m ==> r == ShapeError(ShapeErrorPrefix + KeyErrorMessage("shoulder"))
  {
    match MissingKey(m)
    case Some(key) => ShapeError(ShapeErrorPrefix + KeyErrorMessage(key))
    case None =>
      var shoulder, waist, hips := m["shoulder"], m["waist"], m["hips"];
      if hips == 0.0 || shoulder == 0.0 then ShapeError(ShapeErrorPrefix + ZeroDivisionMessage)
      else Label(Classify(Finite(shoulder / hips), Finite(waist / shoulder), Finite(waist / hips)))
  }

  /**
   * `determine_body_shape` on the NumPy float64 values that
   * `estimate_measurements` returns (`round` of a float64 stays a float64):
   * a zero divisor gives an infinity or NaN instead of raising, so only a
   * missing key is reported, and with non-zero divisors the result is the
   * plain-float one.
   */
  function DetermineBodyShapeFloat64(m: map<string, real>): (r: ShapeResult)
    ensures r.Label? ==> r.name in Labels
    ensures r.ShapeError? <==> !HasShapeKeys(m)
    ensures "shoulder" !in m ==> r == ShapeError(ShapeErrorPrefix + KeyErrorMessage("shoulder"))
    ensures HasShapeKeys(m) && m["hips"] != 0.0 && m["shoulder"] != 0.0 ==> r == DetermineBodyShape(m)
  {
    match MissingKey(m)
    case Some(key) => ShapeError(ShapeErrorPrefix + KeyErrorMessage(key))
    case None =>
      var shoulder, waist, hips := m["shoulder"], m["waist"], m["hips"];
      Label(Classify(Float64Div(shoulder, hips), Float64Div(waist, shoulder), Float64Div(waist, hips)))
  }

  // ---------------------------------------------------------------------------
  // The classifier restated without division, for positive measurements.

  predicate Positive(m: map<string, real>)
  {
    HasShapeKeys(m) && m["shoulder"] > 0.0 && m["waist"] > 0.0 && m["hips"] > 0.0
  }

  /** The waist is narrower than three quarters of both shoulders and hips. */
  predicate NarrowWaist(s: real, w: real, h: real)
  {
    4.0 * w < 3.0 * s && 4.0 * w < 3.0 * h
  }

  /** The waist is wider than 85 % of both shoulders and hips. */
  predicate FullWaist(s: real, w: real, h: real)
  {
    20.0 * w > 17.0 * s && 20.0 * w > 17.0 * h
  }

  /** Shoulders strictly within 5 % of the hips. */
  predicate Balanced(s: real, h: real)
  {
    19.0 * h < 20.0 * s < 21.0 * h
  }

  /** Shoulders more than 5 % wider than the hips. */
  predicate BroadShoulders(s: real, h: real)
  {
    20.0 * s > 21.0 * h
  }

  lemma RatioBelow(a: real, b: real, c: real)
    requires b > 0.0
    ensures a / b < c <==> a < c * b
  {
    assert a == (a / b) * b;
    if a / b < c {
      assert (a / b) * b < c * b;
    } else {
      assert (a / b) * b >= c * b;
    }
  }

  lemma RatioAbove(a: real, b: real, c: real)
    requires b > 0.0
    ensures a / b > c <==> a > c * b
  {
    assert a == (a / b) * b;
    if a / b > c {
      assert (a / b) * b > c * b;
    } else {
      assert (a / b) * b <= c * b;
    }
  }

  /**
   * For positive measurements each label is characterised by the
   * proportions alone; the boundaries 0.95 and 1.05 of the shoulder/hip ratio
   * fall to Pear in the narrow-waist branch.
   */
  lemma ShapeByProportions(m: map<string, real>)
    requires Positive(m)
    ensures var s, w, h := m["shoulder"], m["waist"], m["hips"];
      && (DetermineBodyShape(m) == Label(Hourglass) <==> NarrowWaist(s, w, h) && Balanced(s, h))
      && (DetermineBodyShape(m) == Label(InvertedTriangle) <==> NarrowWaist(s, w, h) && BroadShoulders(s, h))
      && (DetermineBodyShape(m) == Label(Pear) <==> NarrowWaist(s, w, h) && (20.0 * s <= 19.0 * h || 20.0 * s == 21.0 * h))
      && (DetermineBodyShape(m) == Label(Apple) <==> !NarrowWaist(s, w, h) && FullWaist(s, w, h) && BroadShoulders(s, h))
      && (DetermineBodyShape(m) == Label(Rectangle) <==> !NarrowWaist(s, w, h) && !(FullWaist(s, w, h) && BroadShoulders(s, h)))
  {
    var s, w, h := m["shoulder"], m["waist"], m["hips"];
    RatioBelow(w, s, 0.75);
    RatioBelow(w, h, 0.75);
    RatioAbove(w, s, 0.85);
    RatioAbove(w, h, 0.85);
    RatioAbove(s, h, 0.95);
    RatioBelow(s, h, 1.05);
    RatioAbove(s, h, 1.05);
  }

  /**
   * On the handler's float64 measurements a zero hip width is not reported:
   * the shoulder/hip and waist/hip ratios become +inf, the narrow-waist
   * branch fails, and the label is Apple when the waist exceeds 85 % of the
   * shoulders, else Rectangle. Plain floats would report the division.
   */
  lemma ZeroHipsStillLabelled(m: map<string, real>)
    requires HasShapeKeys(m) && m["hips"] == 0.0 && m["shoulder"] > 0.0 && m["waist"] > 0.0
    ensures DetermineBodyShapeFloat64(m)
              == Label(if 20.0 * m["waist"] > 17.0 * m["shoulder"] then Apple else Rectangle)
    ensures DetermineBodyShape(m) == ShapeError(ShapeErrorPrefix + ZeroDivisionMessage)
  {
    var s, w := m["shoulder"], m["waist"];
    RatioAbove(w, s, 0.85);
  }

  /**
   * The handler tests `"error" in body_shape`; on a label that is a substring
   * test, and no label contains "error", so the test fails exactly on the
   * error dict.
   */
  predicate ReportsError(r: ShapeResult)
  {
    match r
    case Label(name) => Text.Contains(name, "error")
    case ShapeError(_) => true
  }

  lemma ErrorTestMatchesOutcome(r: ShapeResult)
    requires r.Label? ==> r.name in Labels
    ensures ReportsError(r) <==> r.ShapeError?
  {
    if r.Label? {
      if r.name == Hourglass {
        Text.MissingCharNotContained(r.name, "error", 0);
      } else {
        Text.MissingCharNotContained(r.name, "error", 3);
      }
    }
  }

  const GeneralRecommendation: string := "General fashion recommendations"

  /** The recommendations dict and its `.get` with a one-element fallback. */
  function Recommendations(shape: string): (r: seq<string>)
    ensures shape in Labels ==> |r| == 4
    ensures shape !in Labels ==> r == [GeneralRecommendation]
    ensures GeneralRecommendation in r <==> shape !in Labels
  {
    if shape == Hourglass then
      ["Fitted dresses that cinch at the waist",
       "High-waisted pants and skirts",
       "Belted jackets and coats",
       "Wrap dresses and tops"]
    else if shape == Apple then
      ["V-neck tops to elongate the torso",
       "Empire waist dresses",
       "Dark colored tops with light bottoms",
       "Structured jackets that define shoulders"]
    else if shape == Pear then
      ["A-line skirts to balance proportions",
       "Bootcut or flared jeans",
       "Tops with details on shoulders",
       "Dark bottoms with light tops"]
    else if shape == Rectangle then
      ["Layered outfits to create dimension",
       "Peplum tops to create waist definition",
       "Off-shoulder tops to widen appearance",
       "Belts to create waist emphasis"]
    else if shape == InvertedTriangle then
      ["V-neck tops to elongate the torso",
       "Wide-leg pants to balance shoulders",
       "A-line skirts to add volume to lower body",
       "Dark tops with light bottoms"]
    else
      [GeneralRecommendation]
  }

  // ---------------------------------------------------------------------------
  // The request handler.

  /** Pose landmarks as the detector hands them on; their content is opaque here. */
  type Landmarks = seq<real>

  /** What `process_image` returns: landmarks with the annotated image, or an error dict. */
  datatype ProcessResult =
    | Processed(landmarks: Landmarks, annotatedImage: string, width: int, height: int)
    | ProcessError(message: string)

  /** What `estimate_measurements` returns: centimetre values, or an error dict. */
  datatype MeasureResult = Measured(measurements: map<string, real>) | MeasureError(message: string)

  /** A JSON response body. */
  datatype Body =
    | ErrorBody(error: string)
    | AnalysisBody(measurements: map<string, real>, bodyShape: string,
                   recommendations: seq<string>, annotatedImage: string, processingTime: real)

  datatype Response = Response(status: int, body: Body)

  const Ok: int := 200
  const BadRequest: int := 400
  const NoImageMessage: string := "No image provided"

  /** The request carried a JSON object with an "image" field. */
  predicate HasImage(data: Option<map<string, string>>)
  {
    data.Some? && "image" in data.value
  }

  /**
   * `analyze`: validate the body, then process the image, estimate the
   * measurements and classify them, returning the first stage's error dict
   * with status 400; otherwise the full analysis with status 200.
   */
  function Analyze(data: Option<map<string, string>>,
                   processImage: string -> ProcessResult,
                   estimateMeasurements: (Landmarks, int, int) -> MeasureResult,
                   elapsed: real): (r: Response)
    ensures r.status == Ok || r.status == BadRequest
    ensures r.status == BadRequest <==> r.body.ErrorBody?
    ensures !HasImage(data) ==> r == Response(BadRequest, ErrorBody(NoImageMessage))
    ensures r.body.AnalysisBody? ==>
              && r.body.bodyShape in Labels
              && r.body.recommendations == Recommendations(r.body.bodyShape)
              && |r.body.recommendations| == 4
              && r.body.processingTime == elapsed
  {
    if !HasImage(data) then Response(BadRequest, ErrorBody(NoImageMessage))
    else
      var processed := processImage(data.value["image"]);
      if processed.ProcessError? then Response(BadRequest, ErrorBody(processed.message))
      else
        var estimated := estimateMeasurements(processed.landmarks, processed.width, processed.height);
        if estimated.MeasureError? then Response(BadRequest, ErrorBody(estimated.message))
        else
          var shape := DetermineBodyShapeFloat64(estimated.measurements);
          ErrorTestMatchesOutcome(shape);
          if ReportsError(shape) then Response(BadRequest, ErrorBody(shape.message))
          else
            Response(Ok, AnalysisBody(estimated.measurements, shape.name, Recommendations(shape.name),
                                      processed.annotatedImage, elapsed))
  }

  /**
   * The handler succeeds exactly when every stage succeeds, and the stages
   * are consulted in order: each error reaches the client unchanged.
   */
  lemma {:induction false} AnalyzeStages(data: Option<map<string, string>>,
                                         processImage: string -> ProcessResult,
                                         estimateMeasurements: (Landmarks, int, int) -> MeasureResult,
                                         elapsed: real)
    requires HasImage(data)
    ensures var r := Analyze(data, processImage, estimateMeasurements, elapsed);
            var p := processImage(data.value["image"]);
            && (p.ProcessError? ==> r == Response(BadRequest, ErrorBody(p.message)))
            && (p.Processed? ==>
                  var e := estimateMeasurements(p.landmarks, p.width, p.height);
                  && (e.MeasureError? ==> r == Response(BadRequest, ErrorBody(e.message)))
                  && (e.Measured? && HasShapeKeys(e.measurements) ==> r.status == Ok)
                  && (e.Measured? ==>
                        var shape := DetermineBodyShapeFloat64(e.measurements);
                        && (shape.ShapeError? ==> r == Response(BadRequest, ErrorBody(shape.message)))
                        && (shape.Label? ==>
                              r == Response(Ok, AnalysisBody(e.measurements, shape.name,
                                                             Recommendations(shape.name),
                                                             p.annotatedImage, elapsed)))))
  {
    var p := processImage(data.value["image"]);
    if p.Processed? {
      var e := estimateMeasurements(p.landmarks, p.width, p.height);
      if e.Measured? {
        ErrorTestMatchesOutcome(DetermineBodyShapeFloat64(e.measurements));
      }
    }
  }
}
