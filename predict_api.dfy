/** The Flask endpoints of `backend/src/app.py`: `/health`, the validation
    of `/predict`, and the loop of `/predict-batch`. The request body is
    what `request.get_json()` produced, and the model behind
    `predict_bias` is a function parameter. */
module PredictApi {
  import opened Wrappers
  import Text
  import opened Numbers
  import opened Json

  type Dict = seq<(string, Json)>

  /** The parsed body, or the message of the exception `get_json` raised. */
  datatype Body = Parsed(data: Json) | Unparsable(reason: string)

  /** What `predict_bias(text)` did: a label and a confidence, or an
      exception with its `str(e)`. */
  datatype Prediction = Predicted(predictedLabel: string, confidence: real) | PredictRaised(message: string)

  /** A status code and the JSON object sent back. */
  datatype Response = Response(status: nat, body: Dict)

  const ReadyStatus: string := "Model is ready"
  const MissingText: string := "Missing 'text' field in request"
  const MissingTexts: string := "Missing 'texts' field in request"
  const TextNotString: string := "Text must be a non-empty string"
  const TextsNotList: string := "Texts must be a list"

  /** `/health`. */
  function Health(): (r: Response)
    ensures r.status == 200 && Get(r.body, "status", JNull) == JStr(ReadyStatus)
  {
    Response(200, [("status", JStr(ReadyStatus))])
  }

  function ErrorBody(message: string): Dict {
    [("error", JStr(message))]
  }

  /** The result of `not data or key not in data` followed by `data[key]`. */
  datatype Lookup = Absent | LookupRaised(message: string) | Present(value: Json)

  /** The messages CPython gives for the operations that can fail here. */
  function NotIterableMessage(j: Json): string {
    "argument of type '" + TypeName(j) + "' is not iterable"
  }

  function IndexMessage(j: Json): string {
    if j.JStr? then "string indices must be integers, not 'str'"
    else "list indices must be integers or slices, not str"
  }

  /** Reading `key` out of the body: a falsy body or one without the key is
      `Absent`; only a dict that holds the key yields a value; everything
      else raises inside the handler's `try`. */
  function Field(body: Body, key: string): (r: Lookup)
    ensures r.Absent? <==> body.Parsed? && (!Truthy(body.data) || Contains(body.data, key) == Some(false))
    ensures r.Present? <==> body.Parsed? && body.data.JObj? && HasKey(body.data.fields, key)
    ensures r.Present? ==> r.value == Get(body.data.fields, key, JNull)
  {
    match body
    case Unparsable(reason) => LookupRaised(reason)
    case Parsed(data) =>
      if !Truthy(data) then Absent
      else match Contains(data, key)
        case None => LookupRaised(NotIterableMessage(data))
        case Some(found) =>
          if !found then Absent
          else if data.JObj? then Present(Get(data.fields, key, JNull))
          else LookupRaised(IndexMessage(data))
  }

  /** `isinstance(text, str) and len(text.strip()) > 0`, with Python's
      notion of whitespace. */
  predicate IsValidText(j: Json) {
    j.JStr? && !Text.PyIsBlank(j.s)
  }

  /** One prediction as the endpoints send it. */
  function PredictionFields(text: string, predictedLabel: string, confidence: real): (d: Dict)
    ensures Keys(d) == ["text", "predicted_label", "confidence"]
    ensures d[0].1 == JStr(text) && d[1].1 == JStr(predictedLabel) && d[2].1 == JNum(Round4(confidence))
  {
    [("text", JStr(text)), ("predicted_label", JStr(predictedLabel)), ("confidence", JNum(Round4(confidence)))]
  }

  /** `/predict`: 400 for a missing or unusable text, 500 for anything that
      raises, otherwise 200 with the text and the model's answer. */
  function Predict(body: Body, predictBias: string -> Prediction): (r: Response)
    ensures r.status == 200 || r.status == 400 || r.status == 500
    ensures Field(body, "text").Absent? ==> r == Response(400, ErrorBody(MissingText))
    ensures Field(body, "text").Present? && !IsValidText(Field(body, "text").value) ==>
      r == Response(400, ErrorBody(TextNotString))
    ensures r.status == 200 <==>
      Field(body, "text").Present? && IsValidText(Field(body, "text").value)
      && predictBias(Field(body, "text").value.s).Predicted?
    ensures r.status == 200 ==>
      var text := Field(body, "text").value.s;
      r.body == PredictionFields(text, predictBias(text).predictedLabel, predictBias(text).confidence)
    ensures r.status == 500 ==> |r.body| == 1 && r.body[0].0 == "error"
    ensures Field(body, "text").LookupRaised? ==>
      r == Response(500, ErrorBody(Field(body, "text").message))
    ensures (Field(body, "text").Present? && IsValidText(Field(body, "text").value)
             && predictBias(Field(body, "text").value.s).PredictRaised?) ==>
      r == Response(500, ErrorBody(predictBias(Field(body, "text").value.s).message))
  {
    match Field(body, "text")
    case Absent => Response(400, ErrorBody(MissingText))
    case LookupRaised(m) => Response(500, ErrorBody(m))
    case Present(text) =>
      if !IsValidText(text) then Response(400, ErrorBody(TextNotString))
      else match predictBias(text.s)
        case PredictRaised(m) => Response(500, ErrorBody(m))
        case Predicted(lb, c) => Response(200, PredictionFields(text.s, lb, c))
  }

  /** The model is consulted only for a valid text: for any other request
      the response is the same whoever answers. */
  lemma PredictConsultsModelOnlyForValidText(body: Body, f: string -> Prediction, g: string -> Prediction)
    requires !(Field(body, "text").Present? && IsValidText(Field(body, "text").value))
    ensures Predict(body, f) == Predict(body, g)
  {
  }

  /** The echoed text is the request's own non-blank text. */
  lemma PredictEchoesText(body: Body, predictBias: string -> Prediction)
    requires Predict(body, predictBias).status == 200
    ensures body.Parsed? && body.data.JObj?
    ensures Get(Predict(body, predictBias).body, "text", JNull) == Get(body.data.fields, "text", JNull)
    ensures !Text.PyIsBlank(Get(body.data.fields, "text", JNull).s)
  {
  }

  /** A text made only of a separator character that Python's `strip()`
      removes, though JavaScript's `trim()` keeps it, is refused with 400. */
  lemma SeparatorOnlyTextRefused(predictBias: string -> Prediction)
    ensures Predict(Parsed(JObj([("text", JStr("\U{1C}"))])), predictBias)
         == Response(400, ErrorBody(TextNotString))
  {
    var body := Parsed(JObj([("text", JStr("\U{1C}"))]));
    assert body.data.fields[0].0 == "text";
    assert Field(body, "text") == Present(JStr("\U{1C}"));
    assert Text.PyIsSpace(JStr("\U{1C}").s[0]);
  }

  /** One element of `texts`: a prediction for a valid text, the error item
      for anything else, or the exception `predict_bias` raised. */
  function BatchItem(item: Json, predictBias: string -> Prediction): (r: Result<Json, string>)
    ensures r.Failure? ==> IsValidText(item) && predictBias(item.s).PredictRaised?
    ensures r.Success? ==> r.value.JObj? && |r.value.fields| > 0 && r.value.fields[0] == ("text", item)
    ensures r.Success? ==> (HasKey(r.value.fields, "error") <==> !IsValidText(item))
  {
    if !IsValidText(item) then
      var fields := [("text", item), ("error", JStr(TextNotString))];
      assert fields[1].0 == "error";
      Success(JObj(fields))
    else match predictBias(item.s)
      case PredictRaised(m) => Failure(m)
      case Predicted(lb, c) =>
        var fields := PredictionFields(item.s, lb, c);
        assert fields[0].0 == "text" && fields[1].0 == "predicted_label" && fields[2].0 == "confidence";
        Success(JObj(fields))
  }

  /** `/predict-batch`: 400 when `texts` is missing or not a list; otherwise
      the loop answers every element in order, and the first exception from
      `predict_bias` turns the whole response into a 500. */
  method PredictBatch(body: Body, predictBias: string -> Prediction) returns (r: Response)
    ensures Field(body, "texts").Absent? ==> r == Response(400, ErrorBody(MissingTexts))
    ensures Field(body, "texts").Present? && !Field(body, "texts").value.JArr? ==>
      r == Response(400, ErrorBody(TextsNotList))
    ensures Field(body, "texts").LookupRaised? ==>
      r == Response(500, ErrorBody(Field(body, "texts").message))
    ensures r.status == 200 <==>
      Field(body, "texts").Present? && Field(body, "texts").value.JArr?
      && forall i :: 0 <= i < |Field(body, "texts").value.items| ==>
           BatchItem(Field(body, "texts").value.items[i], predictBias).Success?
    ensures r.status == 200 ==>
      var items := Field(body, "texts").value.items;
      && |r.body| == 1 && r.body[0].0 == "predictions" && r.body[0].1.JArr?
      && |r.body[0].1.items| == |items|
      && forall i :: 0 <= i < |items| ==> r.body[0].1.items[i] == BatchItem(items[i], predictBias).value
    ensures Field(body, "texts").Present? && Field(body, "texts").value.JArr? && r.status != 200 ==>
      var items := Field(body, "texts").value.items;
      exists k :: 0 <= k < |items|
        && (forall i :: 0 <= i < k ==> BatchItem(items[i], predictBias).Success?)
        && BatchItem(items[k], predictBias).Failure?
        && r == Response(500, ErrorBody(BatchItem(items[k], predictBias).error))
  {
    var texts: Json;
    match Field(body, "texts") {
      case Absent => return Response(400, ErrorBody(MissingTexts));
      case LookupRaised(m) => return Response(500, ErrorBody(m));
      case Present(v) => texts := v;
    }
    if !texts.JArr? {
      return Response(400, ErrorBody(TextsNotList));
    }
    var items := texts.items;
    var results: seq<Json> := [];
    var i := 0;
    while i < |items|
      invariant 0 <= i <= |items|
      invariant |results| == i
      invariant forall k :: 0 <= k < i ==> BatchItem(items[k], predictBias).Success?
      invariant forall k :: 0 <= k < i ==> results[k] == BatchItem(items[k], predictBias).value
    {
      var text := items[i];
      if IsValidText(text) {
        var prediction := predictBias(text.s);
        if prediction.PredictRaised? {
          return Response(500, ErrorBody(prediction.message));
        }
        results := results + [JObj(PredictionFields(text.s, prediction.predictedLabel, prediction.confidence))];
      } else {
        results := results + [JObj([("text", text), ("error", JStr(TextNotString))])];
      }
      i := i + 1;
    }
    r := Response(200, [("predictions", JArr(results))]);
  }

  /** A batch answers element by element as `/predict` would answer the same
      text alone: the fields of a valid element are those of its single
      request. */
  lemma BatchAgreesWithSingle(text: string, predictBias: string -> Prediction)
    requires !Text.PyIsBlank(text) && predictBias(text).Predicted?
    ensures BatchItem(JStr(text), predictBias).value.fields
         == Predict(Parsed(JObj([("text", JStr(text))])), predictBias).body
  {
    var body := Parsed(JObj([("text", JStr(text))]));
    assert body.data.fields[0].0 == "text";
    assert Field(body, "text") == Present(JStr(text));
  }
}
