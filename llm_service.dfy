/** `generate_bias_explanation` (`backend/src/llm_service.py`): the two
    fallback objects and the cleaning of the model's reply before it is
    parsed, and the formatting of the confidence into the prompt. The OpenAI
    call is the `Reply` parameter and `json.loads` the `loads` parameter. */
module LlmService {
  import opened Wrappers
  import opened Json
  import Text

  type Dict = seq<(string, Json)>

  /** What the chat completion gave: an exception's `str(e)`, or the
      message content, which the client library may leave `None`. */
  datatype Reply = CallFailed(message: string) | Replied(content: Option<string>)

  const MissingKeyRationale: string := "OpenAI API Key not configured. Using fallback templates."
  const ServiceErrorPrefix: string := "Analysis unavailable due to service error: "
  const JsonFence: string := "```json"
  const NoneNotIterable: string := "argument of type 'NoneType' is not iterable"

  /** The object returned instead of the model's answer. */
  function Fallback(rationale: string, text: string, code: string): (d: Dict)
    ensures Keys(d) == ["rationale", "flags", "recommended_revision", "error"]
    ensures d[0].1 == JStr(rationale) && d[1].1 == JArr([])
    ensures d[2].1 == JStr(text) && d[3].1 == JStr(code)
  {
    [("rationale", JStr(rationale)), ("flags", JArr([])), ("recommended_revision", JStr(text)), ("error", JStr(code))]
  }

  /** The markdown fences taken out: only when the reply contains
      "```json", and then every "```json" first and every "```" after. */
  function StripFences(content: string): (r: string)
    ensures !Text.Occurs(content, JsonFence, false) ==> r == content
    ensures Text.Occurs(content, JsonFence, false) ==> !Text.Occurs(r, Text.Fence, false)
  {
    if Text.Contains(content, JsonFence, false) then
      var once := Text.ReplaceAll(content, JsonFence, Text.Fixed([]), false);
      Text.RemoveFenceLeavesNone(once);
      Text.NoTripleTickHasNoFence(Text.ReplaceAll(once, Text.Fence, Text.Fixed([]), false));
      Text.ReplaceAll(once, Text.Fence, Text.Fixed([]), false)
    else content
  }

  /** `content.strip()` after the fences are gone: what `json.loads` sees. */
  function ParserInput(content: string): string {
    Text.Trim(StripFences(content))
  }

  /** A reply without "```json" reaches the parser only trimmed. */
  lemma UnfencedReplyOnlyTrimmed(content: string)
    requires !Text.Occurs(content, JsonFence, false)
    ensures ParserInput(content) == Text.Trim(content)
  {
  }

  predicate NoBacktick(s: string) {
    forall i :: 0 <= i < |s| ==> s[i] != '`'
  }

  /** A body wrapped in a "```json" fence comes out of the stripping as it
      went in. */
  lemma FencedReplyRoundTrip(body: string)
    requires NoBacktick(body)
    ensures StripFences(JsonFence + body + Text.Fence) == body
  {
    var tail := body + Text.Fence;
    var content := JsonFence + tail;
    assert JsonFence + body + Text.Fence == content;
    assert Text.MatchesAt(content, 0, JsonFence, false) by {
      forall k | 0 <= k < |JsonFence| ensures Text.CharEq(content[0 + k], JsonFence[k], false) {
        assert content[k] == JsonFence[k];
      }
    }
    assert Text.Occurs(content, JsonFence, false);
    assert content[..|JsonFence|] == JsonFence && content[|JsonFence|..] == tail;
    assert !Text.Occurs(tail, JsonFence, false) by {
      forall i: nat ensures !Text.MatchesAt(tail, i, JsonFence, false) {
        if i + |JsonFence| <= |tail| {
          assert tail[i] == body[i];
          assert !Text.CharEq(tail[i + 0], JsonFence[0], false);
        }
      }
    }
    Text.ReplaceAbsent(tail, JsonFence, Text.Fixed([]), false);
    assert Text.ReplaceAll(content, JsonFence, Text.Fixed([]), false) == tail;
    assert Text.NoStartChar(body, Text.Fence, false);
    Text.ReplaceAfterFreePrefix(body, Text.Fence, Text.Fence, Text.Fixed([]), false);
    assert Text.MatchesAt(Text.Fence, 0, Text.Fence, false);
    assert Text.Fence[|Text.Fence|..] == [];
    assert Text.ReplaceAll(Text.Fence, Text.Fence, Text.Fixed([]), false) == [];
    assert body + [] == body;
  }

  /** Whether `f"{confidence:.2f}"` succeeds: numbers and booleans format
      with `.2f`, every other value raises. */
  predicate FormatsFixed(confidence: Json) {
    confidence.JNum? || confidence.JBool?
  }

  /** The message of the exception a failed `.2f` format raises: a
      `ValueError` for a string, a `TypeError` for anything else. */
  function FormatError(confidence: Json): string {
    if confidence.JStr? then "Unknown format code 'f' for object of type 'str'"
    else "unsupported format string passed to " + TypeName(confidence) + ".__format__"
  }

  /** Whether the parsed reply is what gets returned. */
  predicate Answered(confidence: Json, apiKeySet: bool, reply: Reply, loads: string -> Result<Json, string>) {
    apiKeySet && FormatsFixed(confidence) && reply.Replied? && reply.content.Some?
    && loads(ParserInput(reply.content.value)).Success?
  }

  /** `generate_bias_explanation`: whatever `json.loads` made of the cleaned
      reply, or a fallback that keeps the text as its revision. The prompt is
      built before the `try`, so a confidence that does not format as `.2f`
      raises out of the function (`Failure`, with the exception's message). */
  function GenerateBiasExplanation(text: string, confidence: Json, apiKeySet: bool, reply: Reply,
                                   loads: string -> Result<Json, string>): (r: Result<Json, string>)
    ensures r.Failure? <==> apiKeySet && !FormatsFixed(confidence)
    ensures r.Failure? ==> r.error == FormatError(confidence)
    ensures Answered(confidence, apiKeySet, reply, loads) ==>
      r == Success(loads(ParserInput(reply.content.value)).value)
    ensures !apiKeySet ==> r == Success(JObj(Fallback(MissingKeyRationale, text, "missing_api_key")))
    ensures apiKeySet && FormatsFixed(confidence) && reply.CallFailed? ==>
      r == Success(JObj(Fallback(ServiceErrorPrefix + reply.message, text, reply.message)))
    ensures apiKeySet && FormatsFixed(confidence) && reply == Replied(None) ==>
      r == Success(JObj(Fallback(ServiceErrorPrefix + NoneNotIterable, text, NoneNotIterable)))
    ensures apiKeySet && FormatsFixed(confidence) && reply.Replied? && reply.content.Some?
            && loads(ParserInput(reply.content.value)).Failure? ==>
      r == Success(JObj(Fallback(ServiceErrorPrefix + loads(ParserInput(reply.content.value)).error,
                                 text, loads(ParserInput(reply.content.value)).error)))
    ensures r.Success? && !Answered(confidence, apiKeySet, reply, loads) ==>
      r.value.JObj? && Keys(r.value.fields) == ["rationale", "flags", "recommended_revision", "error"]
      && r.value.fields[1].1 == JArr([]) && r.value.fields[2].1 == JStr(text)
  {
    if !apiKeySet then Success(JObj(Fallback(MissingKeyRationale, text, "missing_api_key")))
    else if !FormatsFixed(confidence) then Failure(FormatError(confidence))
    else match reply
      case CallFailed(m) => Success(JObj(Fallback(ServiceErrorPrefix + m, text, m)))
      case Replied(None) => Success(JObj(Fallback(ServiceErrorPrefix + NoneNotIterable, text, NoneNotIterable)))
      case Replied(Some(content)) =>
        match loads(ParserInput(content))
        case Failure(m) => Success(JObj(Fallback(ServiceErrorPrefix + m, text, m)))
        case Success(data) => Success(data)
  }

  /** Every fallback reads as no flags and the text itself as the revision. */
  lemma FallbackReadsAsUnchanged(text: string, confidence: Json, apiKeySet: bool, reply: Reply,
                                 loads: string -> Result<Json, string>)
    requires !Answered(confidence, apiKeySet, reply, loads)
    requires GenerateBiasExplanation(text, confidence, apiKeySet, reply, loads).Success?
    ensures var r := GenerateBiasExplanation(text, confidence, apiKeySet, reply, loads).value;
      Get(r.fields, "flags", JNull) == JArr([])
      && Get(r.fields, "recommended_revision", JNull) == JStr(text)
  {
    var f := GenerateBiasExplanation(text, confidence, apiKeySet, reply, loads).value.fields;
    assert f[0].0 == "rationale" && f[1].0 == "flags" && f[2].0 == "recommended_revision";
    assert |"rationale"| != |"recommended_revision"| && |"flags"| != |"recommended_revision"|;
    assert |"rationale"| != |"flags"|;
  }
}
