/** The few-shot classifier's data shaping (`backend/src/few_shot_classifier.py`):
    building the chat prompt from the loaded configuration, the fixed result
    shapes of `classify_bias_few_shot`, the sub-type count of
    `get_model_info`, and the `classify_for_api` aggregation. The OpenAI call
    and `json.loads` are replaced by an `Attempt` parameter, `json.dumps` by a
    function parameter. A Python call that raises yields `None`. */
module FewShot {
  import opened Wrappers
  import opened Numbers
  import opened Json

  type Dict = seq<(string, Json)>

  /** One chat message; role and content are whatever the configuration holds. */
  datatype Message = Message(role: Json, content: Json)

  const UserPrefix: string := "Analyze this medical content for bias:\n\n"

  /** A list of JSON values read as dicts, when every one is a dict. */
  function AsDicts(items: seq<Json>): (r: Option<seq<Dict>>)
    ensures r.Some? <==> forall i :: 0 <= i < |items| ==> items[i].JObj?
    ensures r.Some? ==> |r.value| == |items| && forall i :: 0 <= i < |items| ==> items[i] == JObj(r.value[i])
  {
    if items == [] then Some([])
    else if !items[0].JObj? then None
    else match AsDicts(items[1..])
      case None => None
      case Some(rest) => Some([items[0].fields] + rest)
  }

  /** A value a loop iterates and calls `.get` on each element of: `None`
      when the value is not iterable or an element is not a dict. */
  function DictItems(v: Json): (r: Option<seq<Dict>>)
    ensures r.Some? ==> Iterate(v).Some? && AsDicts(Iterate(v).value) == r
    ensures r.None? <==> Iterate(v).None? || AsDicts(Iterate(v).value).None?
  {
    match Iterate(v)
    case None => None
    case Some(items) => AsDicts(items)
  }

  /** `CONFIG.get("few_shot_examples", [])` as the loop sees it. */
  function ExampleDicts(config: Dict): Option<seq<Dict>> {
    DictItems(Get(config, "few_shot_examples", JArr([])))
  }

  /** An example turned into a message: a dict content becomes its JSON text. */
  function ExampleMessage(example: Dict, dumps: Json -> string): (m: Message)
    ensures m.role == Get(example, "role", JNull)
    ensures Get(example, "content", JNull).JObj? ==>
      m.content == JStr(dumps(Get(example, "content", JNull)))
    ensures !Get(example, "content", JNull).JObj? ==> m.content == Get(example, "content", JNull)
  {
    var content := Get(example, "content", JNull);
    Message(Get(example, "role", JNull), if content.JObj? then JStr(dumps(content)) else content)
  }

  /** `build_few_shot_prompt`: the system prompt, one message per example in
      order, and the user's text behind the fixed prefix; `None` when the
      configuration lacks `system_prompt` or holds an example that is not a
      dict. */
  method BuildFewShotPrompt(config: Dict, inputText: string, dumps: Json -> string)
    returns (messages: Option<seq<Message>>)
    ensures messages.None? <==> !HasKey(config, "system_prompt") || ExampleDicts(config).None?
    ensures messages.Some? ==>
      var es := ExampleDicts(config).value;
      var ms := messages.value;
      && |ms| == 2 + |es|
      && ms[0] == Message(JStr("system"), Get(config, "system_prompt", JNull))
      && (forall i :: 0 <= i < |es| ==> ms[i + 1] == ExampleMessage(es[i], dumps))
      && ms[|ms| - 1] == Message(JStr("user"), JStr(UserPrefix + inputText))
  {
    if !HasKey(config, "system_prompt") {
      return None;
    }
    var msgs := [Message(JStr("system"), Get(config, "system_prompt", JNull))];
    var examples := Iterate(Get(config, "few_shot_examples", JArr([])));
    if examples.None? {
      return None;
    }
    var items := examples.value;
    var i := 0;
    while i < |items|
      invariant 0 <= i <= |items|
      invariant forall k :: 0 <= k < i ==> items[k].JObj?
      invariant |msgs| == 1 + i
      invariant msgs[0] == Message(JStr("system"), Get(config, "system_prompt", JNull))
      invariant forall k :: 0 <= k < i ==> msgs[k + 1] == ExampleMessage(items[k].fields, dumps)
    {
      var example := items[i];
      if !example.JObj? {
        return None;
      }
      var role := Get(example.fields, "role", JNull);
      var content := Get(example.fields, "content", JNull);
      if content.JObj? {
        content := JStr(dumps(content));
      }
      msgs := msgs + [Message(role, content)];
      i := i + 1;
    }
    msgs := msgs + [Message(JStr("user"), JStr(UserPrefix + inputText))];
    messages := Some(msgs);
  }

  /** How the call went once the API key was found: no client, a raised
      exception (`str(e)`), a reply that is not JSON (`str(e)` of the decode
      error), or the decoded reply. */
  datatype Attempt =
    | ClientMissing
    | Raised(message: string)
    | BadJson(message: string)
    | Parsed(reply: Json)

  const MissingKeySummary: string := "OpenAI API Key not configured. Please set OPENAI_API_KEY environment variable."
  const ClientInitSummary: string := "Failed to initialize OpenAI client. Check your API key."

  /** The six documented keys, in order. */
  const ResultKeys: seq<string> :=
    ["bias_detected", "primary_category", "overall_bias_level", "biases_found", "bias_free_sections", "summary"]

  /** The default each documented key gets when the reply lacks it. */
  const ResultDefaults: seq<Json> :=
    [JBool(false), JStr("unknown"), JStr("NONE"), JArr([]), JArr([]), JStr("No summary provided.")]

  /** The shape of every failure: nothing detected, category `"error"`, level
      `"NONE"`, no findings, a summary, and an `error` code. */
  function ErrorShape(summary: string, code: string): Dict {
    [("bias_detected", JBool(false)), ("primary_category", JStr("error")),
     ("overall_bias_level", JStr("NONE")), ("biases_found", JArr([])),
     ("bias_free_sections", JArr([])), ("summary", JStr(summary)), ("error", JStr(code))]
  }

  /** A parsed reply reduced to the six documented keys. */
  function Normalise(reply: Dict): (r: Dict)
    ensures Keys(r) == ResultKeys
    ensures forall k :: 0 <= k < 6 ==> r[k].1 == Get(reply, ResultKeys[k], ResultDefaults[k])
  {
    [("bias_detected", Get(reply, "bias_detected", JBool(false))),
     ("primary_category", Get(reply, "primary_category", JStr("unknown"))),
     ("overall_bias_level", Get(reply, "overall_bias_level", JStr("NONE"))),
     ("biases_found", Get(reply, "biases_found", JArr([]))),
     ("bias_free_sections", Get(reply, "bias_free_sections", JArr([]))),
     ("summary", Get(reply, "summary", JStr("No summary provided.")))]
  }

  /** The message of calling `.get` on a reply that is not a dict. */
  function NoGetMessage(j: Json): string {
    "'" + TypeName(j) + "' object has no attribute 'get'"
  }

  /** Whether the call produced a dict reply: the one path without an `error`. */
  predicate Succeeds(apiKeySet: bool, attempt: Attempt) {
    apiKeySet && attempt.Parsed? && attempt.reply.JObj?
  }

  /** The `error` code of a failing call. */
  function ErrorCode(apiKeySet: bool, attempt: Attempt): string
    requires !Succeeds(apiKeySet, attempt)
  {
    if !apiKeySet then "missing_api_key"
    else match attempt
      case ClientMissing => "client_init_failed"
      case BadJson(_) => "json_parse_error"
      case Raised(m) => m
      case Parsed(j) => NoGetMessage(j)
  }

  /** The summary of a failing call. */
  function FailureSummary(apiKeySet: bool, attempt: Attempt): string
    requires !Succeeds(apiKeySet, attempt)
  {
    if !apiKeySet then MissingKeySummary
    else match attempt
      case ClientMissing => ClientInitSummary
      case BadJson(m) => "Failed to parse model response as JSON: " + m
      case Raised(m) => "Classification failed: " + m
      case Parsed(j) => "Classification failed: " + NoGetMessage(j)
  }

  /** `classify_bias_few_shot`: the documented keys always come first; a
      dict reply is reduced to them, every other outcome is the error shape
      with the path's summary and code. */
  function ClassifyFewShot(apiKeySet: bool, attempt: Attempt): (r: Dict)
    ensures |r| >= 6 && Keys(r)[..6] == ResultKeys
    ensures Succeeds(apiKeySet, attempt) ==> r == Normalise(attempt.reply.fields)
    ensures !Succeeds(apiKeySet, attempt) ==>
      r == ErrorShape(FailureSummary(apiKeySet, attempt), ErrorCode(apiKeySet, attempt))
  {
    if !apiKeySet then ErrorShape(MissingKeySummary, "missing_api_key")
    else match attempt
      case ClientMissing => ErrorShape(ClientInitSummary, "client_init_failed")
      case BadJson(m) => ErrorShape("Failed to parse model response as JSON: " + m, "json_parse_error")
      case Raised(m) => ErrorShape("Classification failed: " + m, m)
      case Parsed(j) =>
        if j.JObj? then Normalise(j.fields)
        else ErrorShape("Classification failed: " + NoGetMessage(j), NoGetMessage(j))
  }

  /** The keys `" | ".join` and friends read off one finding, in order, kept
      only where truthy: `[b.get(key, "") for b in biases if b.get(key)]`. */
  function TruthyValues(findings: seq<Dict>, key: string): (vs: seq<Json>)
    ensures |vs| <= |findings|
    ensures forall i :: 0 <= i < |vs| ==> Truthy(vs[i])
  {
    if findings == [] then []
    else
      var v := Get(findings[0], key, JStr(""));
      (if Truthy(v) then [v] else []) + TruthyValues(findings[1..], key)
  }

  /** When every finding has a truthy value, all of them are kept in order. */
  lemma {:induction false} TruthyValuesAll(findings: seq<Dict>, key: string)
    requires forall i :: 0 <= i < |findings| ==> Truthy(Get(findings[i], key, JStr("")))
    ensures TruthyValues(findings, key) == seq(|findings|, i requires 0 <= i < |findings| => Get(findings[i], key, JStr("")))
    decreases |findings|
  {
    if findings != [] {
      TruthyValuesAll(findings[1..], key);
    }
  }

  /** `sum(b.get("confidence", 0) for b in biases)`; `None` if a value is not a number. */
  function ConfidenceSum(findings: seq<Dict>): Option<real> {
    if findings == [] then Some(0.0)
    else match (AsNumber(Get(findings[0], "confidence", JNum(0.0))), ConfidenceSum(findings[1..]))
      case (Some(a), Some(b)) => Some(a + b)
      case _ => None
  }

  /** A finding whose confidence is a number in [0, 1]. */
  predicate UnitConfidence(finding: Dict) {
    var c := Get(finding, "confidence", JNum(0.0));
    c.JNum? && 0.0 <= c.n <= 1.0
  }

  /** Confidences in [0, 1] add up to at most the number of findings. */
  lemma {:induction false} ConfidenceSumBounds(findings: seq<Dict>)
    requires forall i :: 0 <= i < |findings| ==> UnitConfidence(findings[i])
    ensures ConfidenceSum(findings).Some?
    ensures 0.0 <= ConfidenceSum(findings).value <= |findings| as real
    decreases |findings|
  {
    if findings != [] {
      ConfidenceSumBounds(findings[1..]);
    }
  }

  /** `" | ".join(parts)`; `None` if a part is not a string. */
  function JoinStrings(parts: seq<Json>, sep: string): Option<string> {
    if parts == [] then Some([])
    else if !parts[0].JStr? then None
    else if |parts| == 1 then Some(parts[0].s)
    else match JoinStrings(parts[1..], sep)
      case Some(rest) => Some(parts[0].s + sep + rest)
      case None => None
  }

  /** The findings of a result, when the loops over them can run. */
  function Findings(result: Dict): Option<seq<Dict>> {
    DictItems(Get(result, "biases_found", JArr([])))
  }

  /** The average confidence before rounding. */
  function MeanConfidence(result: Dict, findings: seq<Dict>): Option<real> {
    if findings != [] then
      match ConfidenceSum(findings)
      case Some(total) => Some(total / |findings| as real)
      case None => None
    else if Get(result, "primary_category", JNull) == JStr("no_bias") then Some(0.95)
    else Some(0.0)
  }

  /** The keys of the `/predict`-style dict, in order. */
  const ApiKeys: seq<string> :=
    ["predicted_label", "confidence", "rationale", "flags", "recommended_revision",
     "overall_bias_level", "biases_found", "bias_free_sections"]

  /** The dict `classify_for_api` returns, field by field. */
  function ApiShape(category: Json, confidence: real, rationale: Json, flags: seq<Json>,
                    revision: string, level: Json, biases: Json, free: Json): (d: Dict)
    ensures Keys(d) == ApiKeys
    ensures d[0].1 == category && d[1].1 == JNum(confidence) && d[2].1 == rationale
    ensures d[3].1 == JArr(flags) && d[4].1 == JStr(revision) && d[5].1 == level
    ensures d[6].1 == biases && d[7].1 == free
  {
    [("predicted_label", category), ("confidence", JNum(confidence)), ("rationale", rationale),
     ("flags", JArr(flags)), ("recommended_revision", JStr(revision)),
     ("overall_bias_level", level), ("biases_found", biases), ("bias_free_sections", free)]
  }

  /** `classify_for_api`, given the text and the dict `classify_bias_few_shot`
      returned for it: the label, summary, level and findings are passed on
      with their defaults, the confidence is the rounded mean, the flags are
      the findings' problematic passages, and the revision joins their
      recommendations, or is the text itself when there are none. */
  function ClassifyForApi(text: string, result: Dict): (r: Option<Dict>)
    ensures r.Some? <==>
      Findings(result).Some? && MeanConfidence(result, Findings(result).value).Some?
      && JoinStrings(TruthyValues(Findings(result).value, "recommendation"), " | ").Some?
    ensures r.Some? ==>
      var fs := Findings(result).value;
      var recs := TruthyValues(fs, "recommendation");
      r.value == ApiShape(
        Get(result, "primary_category", JStr("unknown")),
        Round4(MeanConfidence(result, fs).value),
        Get(result, "summary", JStr("")),
        TruthyValues(fs, "problematic_text"),
        if recs == [] then text else JoinStrings(recs, " | ").value,
        Get(result, "overall_bias_level", JStr("NONE")),
        Get(result, "biases_found", JArr([])),
        Get(result, "bias_free_sections", JArr([])))
  {
    match Findings(result)
    case None => None
    case Some(fs) =>
      match MeanConfidence(result, fs)
      case None => None
      case Some(avg) =>
        var recs := TruthyValues(fs, "recommendation");
        match JoinStrings(recs, " | ")
        case None => None
        case Some(joined) =>
          Some(ApiShape(Get(result, "primary_category", JStr("unknown")), Round4(avg),
                        Get(result, "summary", JStr("")), TruthyValues(fs, "problematic_text"),
                        if recs != [] then joined else text,
                        Get(result, "overall_bias_level", JStr("NONE")),
                        Get(result, "biases_found", JArr([])),
                        Get(result, "bias_free_sections", JArr([]))))
  }

  /** Rounding a value in [0, 1] to four places stays in [0, 1]. */
  lemma Round4Unit(x: real)
    requires 0.0 <= x <= 1.0
    ensures 0.0 <= Round4(x) <= 1.0
  {
    RoundWithin(x * 10000.0, 0, 10000);
  }

  lemma DivideUnit(t: real, n: real)
    requires n > 0.0 && 0.0 <= t <= n
    ensures 0.0 <= t / n <= 1.0
  {
    var q := t / n;
    assert q * n == t;
  }

  /** With findings whose confidences lie in [0, 1], the reported confidence
      lies in [0, 1] too. */
  lemma ApiConfidenceInUnit(text: string, result: Dict)
    requires ClassifyForApi(text, result).Some?
    requires forall i :: 0 <= i < |Findings(result).value| ==> UnitConfidence(Findings(result).value[i])
    ensures ClassifyForApi(text, result).value[1].1.JNum?
    ensures 0.0 <= ClassifyForApi(text, result).value[1].1.n <= 1.0
  {
    var fs := Findings(result).value;
    if fs != [] {
      ConfidenceSumBounds(fs);
      var total := ConfidenceSum(fs).value;
      DivideUnit(total, |fs| as real);
      Round4Unit(total / |fs| as real);
    } else {
      Round4Unit(MeanConfidence(result, fs).value);
    }
  }

  /** The findings of the error shape are empty and its category is
      `"error"`. */
  lemma ErrorShapeFields(summary: string, code: string)
    ensures Get(ErrorShape(summary, code), "biases_found", JArr([])) == JArr([])
    ensures Get(ErrorShape(summary, code), "primary_category", JNull) == JStr("error")
    ensures Get(ErrorShape(summary, code), "primary_category", JStr("unknown")) == JStr("error")
  {
    var d := ErrorShape(summary, code);
    assert |"bias_detected"| != |"biases_found"| && |"primary_category"| != |"biases_found"|;
    assert |"overall_bias_level"| != |"biases_found"| && |"bias_detected"| != |"primary_category"|;
    assert d[1..][1..][1..][0].0 == "biases_found";
  }

  /** The error shape reaches the endpoint format as label `"error"`,
      confidence 0, no flags, and the input text as the revision. */
  lemma ErrorShapeReachesApi(text: string, summary: string, code: string)
    ensures var r := ClassifyForApi(text, ErrorShape(summary, code));
      && r.Some?
      && r.value[0].1 == JStr("error")
      && r.value[1].1 == JNum(0.0)
      && r.value[3].1 == JArr([])
      && r.value[4].1 == JStr(text)
  {
    var res := ErrorShape(summary, code);
    ErrorShapeFields(summary, code);
    assert Findings(res) == Some([]);
    assert MeanConfidence(res, []) == Some(0.0);
    assert TruthyValues([], "recommendation") == [];
    assert JoinStrings([], " | ") == Some([]);
    assert Round4(0.0) == 0.0;
  }

  /** Every failure of the few-shot call reaches the endpoint format that
      way. */
  lemma FailureReachesApi(text: string, apiKeySet: bool, attempt: Attempt)
    requires !Succeeds(apiKeySet, attempt)
    ensures var r := ClassifyForApi(text, ClassifyFewShot(apiKeySet, attempt));
      && r.Some?
      && r.value[0].1 == JStr("error")
      && r.value[1].1 == JNum(0.0)
      && r.value[3].1 == JArr([])
      && r.value[4].1 == JStr(text)
  {
    ErrorShapeReachesApi(text, FailureSummary(apiKeySet, attempt), ErrorCode(apiKeySet, attempt));
  }

  /** What one category adds to `total_sub_types`: `len(cat["sub_types"])`
      when `"sub_types" in cat`, else nothing; `None` where Python raises. */
  function SubTypeCount(cat: Json): (n: Option<nat>)
    ensures cat.JObj? && !HasKey(cat.fields, "sub_types") ==> n == Some(0)
    ensures cat.JObj? && HasKey(cat.fields, "sub_types") ==> n == Len(Get(cat.fields, "sub_types", JNull))
  {
    match Contains(cat, "sub_types")
    case None => None
    case Some(found) =>
      if !found then Some(0)
      else if cat.JObj? then Len(Get(cat.fields, "sub_types", JNull))
      else None
  }

  /** The sum over categories, failing if any category fails. */
  function SubTypeTotal(cats: Dict): Option<nat> {
    if cats == [] then Some(0)
    else match (SubTypeTotal(cats[..|cats| - 1]), SubTypeCount(cats[|cats| - 1].1))
      case (Some(a), Some(b)) => Some(a + b)
      case _ => None
  }

  function AddOpt(a: Option<nat>, b: Option<nat>): Option<nat> {
    if a.Some? && b.Some? then Some(a.value + b.value) else None
  }

  /** The total over two runs of categories is the sum of their totals. */
  lemma {:induction false} SubTypeTotalAppend(a: Dict, b: Dict)
    ensures SubTypeTotal(a + b) == AddOpt(SubTypeTotal(a), SubTypeTotal(b))
    decreases |b|
  {
    if b == [] {
      assert a + b == a;
    } else {
      var b' := b[..|b| - 1];
      assert (a + b)[..|a + b| - 1] == a + b';
      assert (a + b)[|a + b| - 1] == b[|b| - 1];
      SubTypeTotalAppend(a, b');
    }
  }

  /** One failing category makes every longer prefix fail. */
  lemma {:induction false} SubTypeTotalFails(cats: Dict, i: nat, j: nat)
    requires i < j <= |cats| && SubTypeCount(cats[i].1).None?
    ensures SubTypeTotal(cats[..j]).None?
    decreases j
  {
    assert cats[..j][..j - 1] == cats[..j - 1];
    if j > i + 1 {
      SubTypeTotalFails(cats, i, j - 1);
    }
  }

  datatype ModelInfo = ModelInfo(
    model: string,
    examples_file: string,
    categories: seq<string>,
    total_sub_types: nat,
    total_examples: nat)

  /** `get_model_info`; the model name and file path are parameters. */
  method GetModelInfo(config: Dict, model: string, examplesFile: string) returns (info: Option<ModelInfo>)
    ensures var categories := Get(config, "categories", JObj([]));
      var examples := Len(Get(config, "few_shot_examples", JArr([])));
      && (info.Some? <==> categories.JObj? && SubTypeTotal(categories.fields).Some? && examples.Some?)
      && (info.Some? ==>
            info.value == ModelInfo(model, examplesFile, Keys(categories.fields),
                                    SubTypeTotal(categories.fields).value, examples.value / 2))
  {
    var categories := Get(config, "categories", JObj([]));
    if !categories.JObj? {
      return None;
    }
    var cats := categories.fields;
    var totalSubTypes := 0;
    var i := 0;
    while i < |cats|
      invariant 0 <= i <= |cats|
      invariant SubTypeTotal(cats[..i]) == Some(totalSubTypes)
    {
      var n := SubTypeCount(cats[i].1);
      if n.None? {
        SubTypeTotalFails(cats, i, |cats|);
        assert cats[..|cats|] == cats;
        return None;
      }
      assert cats[..i + 1][..i] == cats[..i];
      totalSubTypes := totalSubTypes + n.value;
      i := i + 1;
    }
    assert cats[..i] == cats;
    var examples := Len(Get(config, "few_shot_examples", JArr([])));
    if examples.None? {
      return None;
    }
    info := Some(ModelInfo(model, examplesFile, Keys(cats), totalSubTypes, examples.value / 2));
  }
}
