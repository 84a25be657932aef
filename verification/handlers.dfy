/** The two request handlers. Both read the seven measurements, run the
    inference pipeline and resolve the label to a crop name; any exception on
    the way is caught at the handler boundary and turned into a response.
    The form handler always answers with status 200 and a sentence; the JSON
    handler answers `{"recommended_crop": …}` with 200 or `{"error": …}` with
    500. */
module Handlers {
  import opened Wrappers
  import opened Crops
  import opened Features
  import opened Pipeline

  /** A JSON value as the request body decodes it. */
  datatype JsonValue =
    | JNull
    | JBool(b: bool)
    | JNumber(x: real)
    | JString(s: string)
    | JArray(items: seq<JsonValue>)
    | JObject(members: map<string, JsonValue>)

  /** Python's `float()` applied to a decoded JSON value: a number is kept,
      a boolean becomes 1 or 0, a string goes through the text parser, and
      null, lists and objects raise `TypeError`. */
  function JsonFloat(parseText: string -> Option<real>, v: JsonValue): (r: Option<real>)
    ensures v.JNumber? ==> r == Some(v.x)
    ensures v.JString? ==> r == parseText(v.s)
    ensures v.JBool? ==> r == Some(if v.b then 1.0 else 0.0)
    ensures (v.JNull? || v.JArray? || v.JObject?) ==> r.None?
  {
    match v
    case JNumber(x) => Some(x)
    case JBool(b) => Some(if b then 1.0 else 0.0)
    case JString(s) => parseText(s)
    case _ => None
  }

  /** `JsonFloat` with the text parser fixed, as the JSON handler applies it to each field. */
  function JsonFloatWith(parseText: string -> Option<real>): JsonValue -> Option<real> {
    v => JsonFloat(parseText, v)
  }

  /** The exception a handler catches; `V` is the type of the request's field
      values (form text or decoded JSON). */
  datatype Caught<V> =
    | BodyUnreadable                    // reading the request as JSON raised
    | BodyNotObject(body: JsonValue)    // the body is JSON, but not an object to index by key
    | Field(fieldError: FieldError<V>)
    | Inference(inferenceError: InferenceError)

  /** `str(e)` of the caught exception. A pipeline stage's exception carries
      its own text; the text of the exceptions Python and the web framework
      raise themselves (`KeyError`, `ValueError`, `TypeError`, `IndexError`,
      a bad-request error) is left to `describe`. */
  function ExceptionText<V>(describe: Caught<V> -> string, f: Caught<V>): (t: string)
    ensures f.Inference? && f.inferenceError.StageFailed? ==> t == f.inferenceError.message
    ensures !(f.Inference? && f.inferenceError.StageFailed?) ==> t == describe(f)
  {
    match f
    case Inference(StageFailed(_, message)) => message
    case _ => describe(f)
  }

  /** The pipeline both handlers share: extract the seven fields named by
      `keyOf`, infer a label, resolve it to a crop name. */
  function Recommend<V>(a: Artifacts, fields: map<string, V>, keyOf: Feature -> string,
                        toFloat: V -> Option<real>): (r: Result<string, Caught<V>>)
    ensures Extract(fields, keyOf, toFloat).Failure? ==>
              r == Failure(Field(Extract(fields, keyOf, toFloat).error))
    ensures Extract(fields, keyOf, toFloat).Success? ==>
              var v := Extract(fields, keyOf, toFloat).value;
              && (Infer(a, v).Failure? ==> r == Failure(Inference(Infer(a, v).error)))
              && (forall n :: ClassifiedAs(a, v, n) ==> r == Success(Resolve(n)))
    ensures r.Success? ==> CropName(r.value)
  {
    match Extract(fields, keyOf, toFloat)
    case Failure(e) => Failure(Field(e))
    case Success(v) =>
      match Infer(a, v)
      case Failure(e) => Failure(Inference(e))
      case Success(n) => Success(Resolve(n))
  }

  // ---------------------------------------------------------------------
  // The form handler

  /** The sentence the page shows on success follows the crop name. */
  const SuccessSuffix: string := " is the best crop to be cultivated right there"

  /** The page shows this before the exception text on failure. */
  const ErrorPrefix: string := "Error in prediction: "

  const StatusOk: int := 200
  const StatusServerError: int := 500

  /** The rendered page: its HTTP status and the result string it shows. */
  datatype Page = Page(status: int, result: string)

  /** The success sentence for `crop`; reading the crop back from it gives
      `crop` again. */
  function Sentence(crop: string): (s: string)
    ensures |s| == |crop| + |SuccessSuffix|
    ensures s[..|crop|] == crop && s[|crop|..] == SuccessSuffix
    ensures CropOfSentence(s) == Some(crop)
  {
    crop + SuccessSuffix
  }

  /** The crop a success sentence names, recovered from the page. */
  function CropOfSentence(s: string): Option<string> {
    if |s| >= |SuccessSuffix| && s[|s| - |SuccessSuffix|..] == SuccessSuffix
    then Some(s[..|s| - |SuccessSuffix|])
    else None
  }

  /** `POST /predict`: the form fields are strings, parsed by `parseText`. */
  function PredictWeb(a: Artifacts, parseText: string -> Option<real>, describe: Caught<string> -> string,
                      form: map<string, string>): (p: Page)
    ensures p.status == StatusOk
    ensures match Recommend(a, form, FormKey, parseText)
            case Success(crop) => CropOfSentence(p.result) == Some(crop)
            case Failure(f) => p.result == ErrorPrefix + ExceptionText(describe, f)
  {
    var result :=
      match Recommend(a, form, FormKey, parseText)
      case Success(crop) => Sentence(crop)
      case Failure(f) => ErrorPrefix + ExceptionText(describe, f);
    Page(StatusOk, result)
  }

  // ---------------------------------------------------------------------
  // The JSON handler

  const RecommendedCropKey: string := "recommended_crop"
  const ErrorKey: string := "error"

  /** A JSON response: its HTTP status and the string-valued object it carries. */
  datatype Reply = Reply(status: int, body: map<string, string>)

  /** The object to read the fields from, or the exception indexing the body raises. */
  function JsonFields(body: Option<JsonValue>): (r: Result<map<string, JsonValue>, Caught<JsonValue>>)
    ensures r.Success? <==> body.Some? && body.value.JObject?
    ensures r.Success? ==> r.value == body.value.members
    ensures body.None? ==> r == Failure(BodyUnreadable)
    ensures body.Some? && !body.value.JObject? ==> r == Failure(BodyNotObject(body.value))
  {
    match body
    case None => Failure(BodyUnreadable)
    case Some(JObject(members)) => Success(members)
    case Some(other) => Failure(BodyNotObject(other))
  }

  /** `POST /api/predict`: `body` is the decoded request body, or `None` when
      reading the request as JSON raised. */
  function ApiPredict(a: Artifacts, parseText: string -> Option<real>, describe: Caught<JsonValue> -> string,
                      body: Option<JsonValue>): (r: Reply)
    ensures r.status == StatusOk || r.status == StatusServerError
    ensures r.status == StatusOk ==> r.body.Keys == {RecommendedCropKey} && CropName(r.body[RecommendedCropKey])
    ensures r.status == StatusServerError ==> r.body.Keys == {ErrorKey}
  {
    var outcome :=
      match JsonFields(body)
      case Failure(f) => Failure(f)
      case Success(data) => Recommend(a, data, JsonKey, JsonFloatWith(parseText));
    match outcome
    case Success(crop) => Reply(StatusOk, map[RecommendedCropKey := crop])
    case Failure(f) => Reply(StatusServerError, map[ErrorKey := ExceptionText(describe, f)])
  }

  // ---------------------------------------------------------------------
  // Properties of the handlers

  /** No crop name, and so no success sentence, begins with the letter `E`. */
  lemma CropInitialNotE(name: string)
    requires CropName(name)
    ensures |name| > 0 && name[0] != 'E'
  {
  }

  /** A success sentence never carries the error prefix. */
  lemma SentenceIsNotError(crop: string)
    requires CropName(crop)
    ensures !(ErrorPrefix <= Sentence(crop))
  {
    CropInitialNotE(crop);
    assert Sentence(crop)[0] == crop[0];
  }

  /** The form page shows the error prefix exactly when some step failed,
      and the crop sentence exactly when every step succeeded; the status is
      200 either way. */
  lemma FormOutcomeVisible(a: Artifacts, parseText: string -> Option<real>, describe: Caught<string> -> string,
                           form: map<string, string>)
    ensures var p := PredictWeb(a, parseText, describe, form);
            && p.status == StatusOk
            && (ErrorPrefix <= p.result <==> Recommend(a, form, FormKey, parseText).Failure?)
  {
    var r := Recommend(a, form, FormKey, parseText);
    if r.Success? {
      SentenceIsNotError(r.value);
    }
  }

  /** The form page reports the error of the first field, in reading order,
      that is missing or not a number; no later field is consulted. */
  lemma FormReportsFirstBadField(a: Artifacts, parseText: string -> Option<real>, describe: Caught<string> -> string,
                                 form: map<string, string>, i: int)
    requires 0 <= i < FeatureCount
    requires FirstUnreadable(form, FormKey, parseText, FeatureOrder, i)
    ensures PredictWeb(a, parseText, describe, form).result
            == ErrorPrefix + describe(Field(ErrorFor(form, FormKey(FeatureOrder[i]))))
  {
  }

  /** A form without one of the seven fields yields the error page, still
      with status 200. */
  lemma FormMissingFieldIsError(a: Artifacts, parseText: string -> Option<real>, describe: Caught<string> -> string,
                                form: map<string, string>, f: Feature)
    requires FormKey(f) !in form
    ensures PredictWeb(a, parseText, describe, form).status == StatusOk
    ensures ErrorPrefix <= PredictWeb(a, parseText, describe, form).result
  {
  }

  /** The form handler reads the seven fields under these exact names and
      lays out their values in this order. */
  lemma FormFieldsAsWritten(parseText: string -> Option<real>, form: map<string, string>)
    requires Extract(form, FormKey, parseText).Success?
    ensures
      var keys := ["Nitrogen", "Phosporus", "Potassium", "Temperature", "Humidity", "Ph", "Rainfall"];
      var v := Extract(form, FormKey, parseText).value;
      forall i :: 0 <= i < |keys| ==> keys[i] in form && parseText(form[keys[i]]) == Some(v[i])
  {
    var keys := ["Nitrogen", "Phosporus", "Potassium", "Temperature", "Humidity", "Ph", "Rainfall"];
    KeyListsInOrder();
    assert keys == FormFieldNames;
  }

  /** The JSON reply is the success object with status 200 exactly when the
      body is an object and every step succeeded; otherwise it is the error
      object, carrying the caught exception's text, with status 500. The two
      keys never appear together. */
  lemma ApiOutcome(a: Artifacts, parseText: string -> Option<real>, describe: Caught<JsonValue> -> string,
                   body: Option<JsonValue>)
    ensures var r := ApiPredict(a, parseText, describe, body);
            && !(RecommendedCropKey in r.body && ErrorKey in r.body)
            && (r.status == StatusOk <==>
                  body.Some? && body.value.JObject?
                  && Recommend(a, body.value.members, JsonKey, JsonFloatWith(parseText)).Success?)
            && (body.Some? && body.value.JObject? ==>
                  match Recommend(a, body.value.members, JsonKey, JsonFloatWith(parseText))
                  case Success(crop) => r == Reply(StatusOk, map[RecommendedCropKey := crop])
                  case Failure(f) => r == Reply(StatusServerError, map[ErrorKey := ExceptionText(describe, f)]))
            && (body.None? ==> r == Reply(StatusServerError, map[ErrorKey := describe(BodyUnreadable)]))
            && (body.Some? && !body.value.JObject? ==>
                  r == Reply(StatusServerError, map[ErrorKey := describe(BodyNotObject(body.value))]))
  {
  }

  /** A JSON object with one of the seven fields missing or not a number gets
      the error object and status 500. */
  lemma ApiBadFieldIsError(a: Artifacts, parseText: string -> Option<real>, describe: Caught<JsonValue> -> string,
                           members: map<string, JsonValue>, f: Feature)
    requires !Readable(members, JsonKey(f), JsonFloatWith(parseText))
    ensures var r := ApiPredict(a, parseText, describe, Some(JObject(members)));
            r.status == StatusServerError && ErrorKey in r.body && RecommendedCropKey !in r.body
  {
    assert f in FeatureOrder;
  }

  /** The JSON handler reads the seven fields under these exact keys and lays
      out their values in this order. */
  lemma JsonFieldsAsWritten(parseText: string -> Option<real>, members: map<string, JsonValue>)
    requires Extract(members, JsonKey, JsonFloatWith(parseText)).Success?
    ensures
      var keys := ["nitrogen", "phosphorus", "potassium", "temperature", "humidity", "ph", "rainfall"];
      var v := Extract(members, JsonKey, JsonFloatWith(parseText)).value;
      forall i :: 0 <= i < |keys| ==> keys[i] in members && JsonFloatWith(parseText)(members[keys[i]]) == Some(v[i])
  {
    var keys := ["nitrogen", "phosphorus", "potassium", "temperature", "humidity", "ph", "rainfall"];
    KeyListsInOrder();
    assert keys == JsonKeyNames;
  }

  /** Given the same measurements, the two handlers agree: the form page
      names a crop exactly when the JSON reply recommends that crop, the page
      shows the error prefix exactly when the reply has status 500, and when
      a pipeline stage raised, both show that stage's exception text. */
  lemma HandlersAgree(a: Artifacts, parseText: string -> Option<real>,
                      describeForm: Caught<string> -> string, describeJson: Caught<JsonValue> -> string,
                      form: map<string, string>, members: map<string, JsonValue>)
    requires Extract(form, FormKey, parseText).Success?
    requires Extract(members, JsonKey, JsonFloatWith(parseText)).Success?
    requires Extract(members, JsonKey, JsonFloatWith(parseText)).value == Extract(form, FormKey, parseText).value
    ensures var p := PredictWeb(a, parseText, describeForm, form);
            var r := ApiPredict(a, parseText, describeJson, Some(JObject(members)));
            var v := Extract(form, FormKey, parseText).value;
            && (forall crop :: p.result == Sentence(crop) && CropName(crop)
                  <==> r == Reply(StatusOk, map[RecommendedCropKey := crop]))
            && (r.status == StatusServerError <==> ErrorPrefix <= p.result)
            && (Infer(a, v).Failure? && Infer(a, v).error.StageFailed? ==>
                  p.result == ErrorPrefix + r.body[ErrorKey])
  {
    var p := PredictWeb(a, parseText, describeForm, form);
    var r := ApiPredict(a, parseText, describeJson, Some(JObject(members)));
    var rf := Recommend(a, form, FormKey, parseText);
    var rj := Recommend(a, members, JsonKey, JsonFloatWith(parseText));
    RecommendDependsOnVector(a, form, FormKey, parseText, members, JsonKey, JsonFloatWith(parseText));
    if rf.Success? {
      assert p.result == Sentence(rf.value);
      assert r == Reply(StatusOk, map[RecommendedCropKey := rf.value]);
      SentenceIsNotError(rf.value);
      forall crop
        ensures p.result == Sentence(crop) && CropName(crop) <==> r == Reply(StatusOk, map[RecommendedCropKey := crop])
      {
        if p.result == Sentence(crop) {
          SentenceInjective(crop, rf.value);
        }
        assert r == Reply(StatusOk, map[RecommendedCropKey := crop]) ==> crop == r.body[RecommendedCropKey];
      }
    } else {
      var e := rf.error.inferenceError;
      assert p.result == ErrorPrefix + ExceptionText(describeForm, Inference(e));
      assert r == Reply(StatusServerError, map[ErrorKey := ExceptionText(describeJson, Inference(e))]);
      assert ErrorPrefix <= p.result;
      forall crop
        ensures !(p.result == Sentence(crop) && CropName(crop))
      {
        if CropName(crop) {
          SentenceIsNotError(crop);
        }
      }
    }
  }

  /** Once the fields are read, the outcome depends only on the vector: two
      requests that yield the same vector get the same crop, or fail in
      inference with the same error. */
  lemma RecommendDependsOnVector<V, W>(a: Artifacts,
                                       fields1: map<string, V>, keyOf1: Feature -> string, toFloat1: V -> Option<real>,
                                       fields2: map<string, W>, keyOf2: Feature -> string, toFloat2: W -> Option<real>)
    requires Extract(fields1, keyOf1, toFloat1).Success? && Extract(fields2, keyOf2, toFloat2).Success?
    requires Extract(fields1, keyOf1, toFloat1).value == Extract(fields2, keyOf2, toFloat2).value
    ensures var r1 := Recommend(a, fields1, keyOf1, toFloat1);
            var r2 := Recommend(a, fields2, keyOf2, toFloat2);
            && (r1.Success? <==> r2.Success?)
            && (r1.Success? ==> r1.value == r2.value)
            && (r1.Failure? ==> r1.error.Inference? && r2.error == Inference(r1.error.inferenceError))
  {
  }

  /** Two success sentences are equal only when they name the same crop. */
  lemma SentenceInjective(c1: string, c2: string)
    requires Sentence(c1) == Sentence(c2)
    ensures c1 == c2
  {
  }
}
