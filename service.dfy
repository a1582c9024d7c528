/**
 * The request-outcome rules of the sentiment service: which status and which
 * JSON payload `POST /predict` and `GET /health` answer with, given the
 * artifacts loaded at start-up and the request body. The TF-IDF vectorizer
 * and the logistic-regression model are opaque functions supplied with the
 * artifacts; `predict` only sequences their calls and catches what they raise.
 */
module Service {
  import opened Wrappers
  import opened Preprocessing
  import opened PythonValues

  /** One TF-IDF row, as the vectorizer produces it for one document. */
  type Features = seq<real>

  /** The fitted vectorizer: `tfidf.transform([text])`. */
  datatype Vectorizer = Vectorizer(transform: string -> Outcome<Features>)

  /** The fitted classifier: one class and one probability row per input row. */
  datatype Model = Model(
    predict: Features -> Outcome<seq<int>>,
    predictProba: Features -> Outcome<seq<seq<real>>>)

  /** The module globals `model` and `tfidf`; `None` when loading failed. */
  datatype Artifacts = Artifacts(model: Option<Model>, tfidf: Option<Vectorizer>)

  /** What `request.get_json()` does with the request: returns no document, raises, or returns one. */
  datatype Body = NoJson | Rejected(detail: string) | Parsed(data: Json)

  /** The `error` field: a fixed message of the handler's own, or `str(e)` of a caught exception. */
  datatype ErrorText = Message(text: string) | StrOf(exc: PyException)

  datatype Payload =
    | ErrorReport(error: ErrorText)
    | PredictionResult(prediction: string, confidence: real, originalText: string)
    | HealthReport(status: string, modelLoaded: bool, vectorizerLoaded: bool)

  datatype Response = Response(status: int, payload: Payload)

  const NotLoadedText := "Model not loaded properly"
  const NoReviewText := "No review text provided"

  predicate Loaded(a: Artifacts) {
    a.model.Some? && a.tfidf.Some?
  }

  /** The answer to every request while an artifact is missing. */
  function NotLoaded(): Response {
    Response(500, ErrorReport(Message(NotLoadedText)))
  }

  // ---------------------------------------------------------------- start-up

  /**
   * The start-up `try`: the model is loaded, then the vectorizer; if either
   * load raises, both globals are `None`.
   */
  function Load(modelFile: Outcome<Model>, vectorizerFile: Outcome<Vectorizer>): (r: Artifacts)
    ensures r.model.Some? <==> r.tfidf.Some?
    ensures Loaded(r) <==> modelFile.Ok? && vectorizerFile.Ok?
    ensures Loaded(r) ==> r.model.value == modelFile.value && r.tfidf.value == vectorizerFile.value
  {
    match modelFile
    case Raised(_) => Artifacts(None, None)
    case Ok(m) =>
      match vectorizerFile
      case Raised(_) => Artifacts(None, None)
      case Ok(v) => Artifacts(Some(m), Some(v))
  }

  // ---------------------------------------------------------------- classification

  /** The largest element, as numpy's `max()` of a non-empty row. */
  function Max(xs: seq<real>): (m: real)
    requires xs != []
    ensures m in xs
    ensures forall k :: 0 <= k < |xs| ==> xs[k] <= m
  {
    if |xs| == 1 then xs[0]
    else
      var rest := Max(xs[1..]);
      if xs[0] >= rest then xs[0] else rest
  }

  /** `a[0]` on a one-dimensional array. */
  function First<T>(xs: seq<T>): (r: Outcome<T>)
    ensures r.Ok? <==> xs != []
    ensures r.Ok? ==> r.value == xs[0]
    ensures r.Raised? ==> r.exc == IndexOutOfRange
  {
    if xs == [] then Raised(IndexOutOfRange) else Ok(xs[0])
  }

  /** `row.max()`, which raises on an empty row. */
  function MaxOf(row: seq<real>): (r: Outcome<real>)
    ensures r.Ok? <==> row != []
    ensures r.Ok? ==> r.value in row && forall k :: 0 <= k < |row| ==> row[k] <= r.value
    ensures r.Raised? ==> r.exc == EmptyReduction
  {
    if row == [] then Raised(EmptyReduction) else Ok(Max(row))
  }

  /**
   * Vectorize the cleaned text, take the first predicted class, then the
   * largest probability of the first row; the first call that raises decides.
   */
  function Classify(m: Model, v: Vectorizer, text: string): (r: Outcome<(int, real)>)
    ensures r.Ok? <==>
      && v.transform(text).Ok?
      && m.predict(v.transform(text).value).Ok?
      && m.predict(v.transform(text).value).value != []
      && m.predictProba(v.transform(text).value).Ok?
      && m.predictProba(v.transform(text).value).value != []
      && m.predictProba(v.transform(text).value).value[0] != []
    ensures r.Ok? ==>
      var features := v.transform(text).value;
      var row := m.predictProba(features).value[0];
      && r.value.0 == m.predict(features).value[0]
      && r.value.1 in row
      && forall k :: 0 <= k < |row| ==> row[k] <= r.value.1
    ensures v.transform(text).Raised? ==> r == Raised(v.transform(text).exc)
  {
    var features :- v.transform(text);
    var classes :- m.predict(features);
    var cls :- First(classes);
    var rows :- m.predictProba(features);
    var row :- First(rows);
    var confidence :- MaxOf(row);
    Ok((cls, confidence))
  }

  /** The sentiment label of a class. */
  function Label(cls: int): (r: string)
    ensures r == "positive" || r == "negative"
    ensures r == "positive" <==> cls == 1
  {
    if cls == 1 then "positive" else "negative"
  }

  // ---------------------------------------------------------------- POST /predict

  /** `request.get_json()`: no JSON document reads as `None`. */
  function GetJson(body: Body): (r: Outcome<Json>)
    ensures r.Raised? <==> body.Rejected?
    ensures body.NoJson? ==> r == Ok(Null)
    ensures body.Parsed? ==> r == Ok(body.data)
  {
    match body
    case NoJson => Ok(Null)
    case Rejected(detail) => Raised(BadRequest(detail))
    case Parsed(data) => Ok(data)
  }

  /** `not data or 'review' not in data`, which only tests membership when `data` is truthy. */
  function NoReview(data: Json): (r: Outcome<bool>)
    ensures !Truthy(data) ==> r == Ok(true)
    ensures data.Object? ==> r == Ok("review" !in data.fields)
    ensures Truthy(data) && data.Array? ==>
      r == Ok(forall k :: 0 <= k < |data.items| ==> data.items[k] != Str("review"))
    ensures Truthy(data) && data.Str? ==> r == Ok(!HasSubstring(data.s, "review"))
    ensures r.Raised? <==> Truthy(data) && !(data.Object? || data.Array? || data.Str?)
  {
    if !Truthy(data) then Ok(true)
    else
      var present :- Contains(data, "review");
      Ok(!present)
  }

  /** `clean_text(review)`: its first step, `review.lower()`, exists only on strings. */
  function CleanReview(review: Json, isDigit: char -> bool): (r: Outcome<string>)
    ensures r.Ok? <==> review.Str?
    ensures r.Ok? ==> r.value == CleanText(review.s, isDigit)
    ensures r.Raised? ==> r.exc == NoAttribute(TypeName(review), "lower")
  {
    match review
    case Str(s) => Ok(CleanText(s, isDigit))
    case _ => Raised(NoAttribute(TypeName(review), "lower"))
  }

  /** The body of the handler's `try` once both artifacts are present. */
  function Handle(m: Model, v: Vectorizer, body: Body, isDigit: char -> bool): (r: Outcome<Response>)
    ensures body.Rejected? ==> r == Raised(BadRequest(body.detail))
    ensures r.Ok? ==> r.value.status == 200 || r.value.status == 400
    ensures r.Ok? ==> (r.value.status == 400 <==> LacksReview(body))
    ensures r.Ok? && r.value.status == 400 ==> r.value.payload == ErrorReport(Message(NoReviewText))
    ensures r.Ok? && r.value.status == 200 ==>
      ReviewText(body).Some? && r.value.payload.PredictionResult? &&
      r.value.payload.originalText == ReviewText(body).value
  {
    var data :- GetJson(body);
    var missing :- NoReview(data);
    if missing then
      Ok(Response(400, ErrorReport(Message(NoReviewText))))
    else
      var review :- Subscript(data, "review");
      var cleaned :- CleanReview(review, isDigit);
      var result :- Classify(m, v, cleaned);
      Ok(Response(200, PredictionResult(Label(result.0), result.1, review.s)))
  }

  /**
   * The bodies answered with 400, stated without the handler's steps: no
   * document, a falsy one, a dict without the key, a list without the string
   * `"review"` among its elements, or a str without it as a substring.
   */
  predicate LacksReview(body: Body) {
    match body
    case NoJson => true
    case Rejected(_) => false
    case Parsed(d) =>
      || !Truthy(d)
      || (d.Object? && "review" !in d.fields)
      || (d.Array? && forall k :: 0 <= k < |d.items| ==> d.items[k] != Str("review"))
      || (d.Str? && !HasSubstring(d.s, "review"))
  }

  /** The review text, when the body is a dict whose `review` entry is a string. */
  function ReviewText(body: Body): Option<string> {
    if body.Parsed? && body.data.Object? && "review" in body.data.fields && body.data.fields["review"].Str?
    then Some(body.data.fields["review"].s)
    else None
  }

  /** `POST /predict`: artifacts first, then the body, then cleaning and classification; a raised exception is a 500. */
  function Predict(a: Artifacts, body: Body, isDigit: char -> bool): (r: Response)
    ensures r.status == 200 || r.status == 400 || r.status == 500
    ensures r.status == 200 <==> r.payload.PredictionResult?
    ensures r.status != 200 ==> r.payload.ErrorReport?
    ensures !Loaded(a) ==> r == NotLoaded()
    ensures Loaded(a) ==> (r.status == 400 <==> LacksReview(body))
    ensures r.status == 400 ==> r.payload.error == Message(NoReviewText)
    ensures r.status == 200 <==>
      && Loaded(a)
      && ReviewText(body).Some?
      && Classify(a.model.value, a.tfidf.value, CleanText(ReviewText(body).value, isDigit)).Ok?
    ensures r.status == 200 ==>
      var result := Classify(a.model.value, a.tfidf.value, CleanText(ReviewText(body).value, isDigit)).value;
      && r.payload.originalText == ReviewText(body).value
      && r.payload.confidence == result.1
      && (r.payload.prediction == "positive" <==> result.0 == 1)
      && (r.payload.prediction == "positive" || r.payload.prediction == "negative")
  {
    if !Loaded(a) then NotLoaded()
    else
      match Handle(a.model.value, a.tfidf.value, body, isDigit)
      case Ok(response) => response
      case Raised(e) => Response(500, ErrorReport(StrOf(e)))
  }

  // ---------------------------------------------------------------- GET /health

  /** `GET /health` reports the two presence flags and never fails. */
  function Health(a: Artifacts): (r: Response)
    ensures r.status == 200 && r.payload.HealthReport? && r.payload.status == "healthy"
    ensures r.payload.modelLoaded <==> a.model.Some?
    ensures r.payload.vectorizerLoaded <==> a.tfidf.Some?
  {
    Response(200, HealthReport("healthy", a.model.Some?, a.tfidf.Some?))
  }

  // ---------------------------------------------------------------- properties

  /** With an artifact missing, the body is never looked at. */
  lemma ArtifactsCheckedFirst(a: Artifacts, b1: Body, b2: Body, isDigit: char -> bool)
    requires !Loaded(a)
    ensures Predict(a, b1, isDigit) == Predict(a, b2, isDigit) == NotLoaded()
  {
  }

  /** `predict` says "not loaded" exactly when `health` reports a flag as false. */
  lemma HealthAgreesWithPredict(a: Artifacts, body: Body, isDigit: char -> bool)
    ensures Predict(a, body, isDigit) == NotLoaded() <==>
      !(Health(a).payload.modelLoaded && Health(a).payload.vectorizerLoaded)
  {
  }

  /** After start-up the two flags of `health` agree, and both are true exactly when both loads succeeded. */
  lemma StartupFlagsAgree(modelFile: Outcome<Model>, vectorizerFile: Outcome<Vectorizer>)
    ensures var h := Health(Load(modelFile, vectorizerFile)).payload;
      && h.modelLoaded == h.vectorizerLoaded
      && (h.modelLoaded <==> modelFile.Ok? && vectorizerFile.Ok?)
  {
  }

  /** An empty JSON object is a 400 with an `error` entry. */
  lemma EmptyObjectIsBadRequest(a: Artifacts, isDigit: char -> bool)
    requires Loaded(a)
    ensures Predict(a, Parsed(Object(map[])), isDigit) == Response(400, ErrorReport(Message(NoReviewText)))
  {
  }

  /** A body that is not valid JSON makes `get_json` raise inside the `try`: 500, not 400. */
  lemma MalformedJsonIsServerError(a: Artifacts, detail: string, isDigit: char -> bool)
    requires Loaded(a)
    ensures Predict(a, Rejected(detail), isDigit) == Response(500, ErrorReport(StrOf(BadRequest(detail))))
  {
  }

  /** A review that is not a string fails at `lower()` and comes back as 500. */
  lemma NonStringReviewIsServerError(a: Artifacts, fields: map<string, Json>, isDigit: char -> bool)
    requires Loaded(a)
    requires "review" in fields && !fields["review"].Str?
    ensures Predict(a, Parsed(Object(fields)), isDigit) ==
      Response(500, ErrorReport(StrOf(NoAttribute(TypeName(fields["review"]), "lower"))))
  {
  }

  /**
   * A truthy body that is not a dict is never a 200; it is a 400 only when
   * `'review' in data` is false, and a 500 otherwise.
   */
  lemma NonObjectBodyNeverSucceeds(a: Artifacts, data: Json, isDigit: char -> bool)
    requires Loaded(a) && Truthy(data) && !data.Object?
    ensures var r := Predict(a, Parsed(data), isDigit);
      r.status == if LacksReview(Parsed(data)) then 400 else 500
  {
  }

  /** An empty review is accepted: it cleans to the empty text, which goes to the classifier. */
  lemma EmptyReviewSucceeds(a: Artifacts, fields: map<string, Json>, isDigit: char -> bool)
    requires Loaded(a) && IsDigitClass(isDigit)
    requires "review" in fields && fields["review"] == Str("")
    requires Classify(a.model.value, a.tfidf.value, "").Ok?
    ensures var r := Predict(a, Parsed(Object(fields)), isDigit);
      r.status == 200 && r.payload.originalText == ""
  {
    CleanTextEmpty(isDigit);
  }

  /** The answer depends on the review only through its cleaned text, except for `original_text`. */
  lemma OnlyCleanedTextIsClassified(a: Artifacts, f1: map<string, Json>, f2: map<string, Json>, isDigit: char -> bool)
    requires "review" in f1 && f1["review"].Str?
    requires "review" in f2 && f2["review"].Str?
    requires CleanText(f1["review"].s, isDigit) == CleanText(f2["review"].s, isDigit)
    ensures var r1 := Predict(a, Parsed(Object(f1)), isDigit);
      var r2 := Predict(a, Parsed(Object(f2)), isDigit);
      && r1.status == r2.status
      && (r1.status == 200 ==>
            r1.payload.prediction == r2.payload.prediction && r1.payload.confidence == r2.payload.confidence)
  {
  }
}
