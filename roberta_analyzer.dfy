/** `RoBERTaAnalyzer` (`frontend/components/analyzers/RoBERTaAnalyzer.tsx`): a
    text area with four quick samples and a classify button. Its state is
    `text`, `result`, `loading` and `error`; `handleAnalyze` is split at its
    `await` into `BeginAnalyze` and `Settle`, the outcome of the awaited call
    being a parameter. */
module RoBERTa {
  import opened Wrappers
  import opened Text
  import opened BiasTypes
  import opened Enrichment

  datatype Sample = Sample(caption: string, text: string)

  /** `sampleTexts`. */
  const Samples: seq<Sample> := [
    Sample("Demographic", "The patient's failure to adhere to the diet is likely due to cultural preferences common in Hispanic populations."),
    Sample("Clinical Stigma", "Patient claims 10/10 pain but appears comfortable and is likely drug-seeking."),
    Sample("Assessment", "The resident is abrasive and too confident, often challenging attending decisions."),
    Sample("No Bias", "The patient declined the procedure after a thorough discussion of risks and benefits.")
  ]

  /** One entry of `labelConfig`. */
  datatype LabelStyle = LabelStyle(color: string, bg: string, icon: string)

  const NoBiasStyle := LabelStyle("#22c55e", "bg-green-500/10 border-green-500/20 text-green-700 dark:text-green-400", "\U{2705}")
  const DemographicStyle := LabelStyle("#ef4444", "bg-red-500/10 border-red-500/20 text-red-700 dark:text-red-400", "\U{1F465}")
  const ClinicalStigmaStyle := LabelStyle("#f97316", "bg-orange-500/10 border-orange-500/20 text-orange-700 dark:text-orange-400", "\U{1F3E5}")
  const AssessmentStyle := LabelStyle("#a855f7", "bg-purple-500/10 border-purple-500/20 text-purple-700 dark:text-purple-400", "\U{2696}\U{FE0F}")

  /** The four labels `labelConfig` has an entry for. */
  predicate HasOwnStyle(l: BiasLabel) {
    l == NoBias || l == DemographicBias || l == ClinicalStigmaBias || l == AssessmentBias
  }

  /** `labelConfig[label] || labelConfig.no_bias`. */
  function StyleFor(l: BiasLabel): (st: LabelStyle)
    ensures !HasOwnStyle(l) ==> st == NoBiasStyle
    ensures st == NoBiasStyle <==> l != DemographicBias && l != ClinicalStigmaBias && l != AssessmentBias
  {
    match l
    case DemographicBias => DemographicStyle
    case ClinicalStigmaBias => ClinicalStigmaStyle
    case AssessmentBias => AssessmentStyle
    case _ => NoBiasStyle
  }

  /** The four styled labels are told apart by colour. */
  lemma StylesDistinct(a: BiasLabel, b: BiasLabel)
    requires HasOwnStyle(a) && HasOwnStyle(b) && a != b
    ensures StyleFor(a).color != StyleFor(b).color
  {
  }

  const ClassificationFailed: string := "Classification failed"

  class RoBERTaAnalyzer {
    var text: string
    var result: Option<AnalysisResult>
    var loading: bool
    var error: Option<string>

    constructor ()
      ensures text == [] && result == None && !loading && error == None
    {
      text := [];
      result := None;
      loading := false;
      error := None;
    }

    /** The text area's `onChange`. */
    method Edit(value: string)
      modifies this
      ensures text == value
      ensures result == old(result) && loading == old(loading) && error == old(error)
    {
      text := value;
    }

    /** A sample button: its text replaces the input, result and error go. */
    method ChooseSample(i: nat)
      requires i < |Samples|
      modifies this
      ensures text == Samples[i].text && result == None && error == None
      ensures loading == old(loading)
    {
      text := Samples[i].text;
      result := None;
      error := None;
    }

    /** The button's `disabled`. */
    function SubmitDisabled(): (d: bool)
      reads this
      ensures d <==> loading || IsBlank(text)
    {
      loading || Trim(text) == []
    }

    /** `handleAnalyze` up to its `await`: a blank text returns at once and
        changes nothing; otherwise loading goes on and the error is cleared. */
    method BeginAnalyze() returns (started: bool)
      modifies this
      ensures started <==> !IsBlank(old(text))
      ensures started ==> loading && error == None
      ensures !started ==> loading == old(loading) && error == old(error)
      ensures text == old(text) && result == old(result)
    {
      if Trim(text) == [] {
        return false;
      }
      loading := true;
      error := None;
      started := true;
    }

    /** `handleAnalyze` after the awaited call settles. */
    method Settle(outcome: Result<AnalysisResult, Thrown>)
      modifies this
      ensures !loading && text == old(text)
      ensures outcome.Success? ==> result == Some(outcome.value) && error == old(error)
      ensures outcome.Failure? ==> result == None && error == Some(FailureText(outcome.error))
    {
      match outcome {
        case Success(r) =>
          result := Some(r);
        case Failure(e) =>
          error := Some(FailureText(e));
          result := None;
      }
      loading := false;
    }

    /** The style of the shown result, none without a result. */
    function Style(): (st: Option<LabelStyle>)
      reads this
      ensures st.Some? <==> result.Some?
      ensures result.Some? ==> st == Some(StyleFor(result.value.response.predicted_label))
    {
      if result.Some? then Some(StyleFor(result.value.response.predicted_label)) else None
    }
  }

  /** `err.message`, or the fixed text for a thrown non-`Error`. */
  function FailureText(e: Thrown): (m: string)
    ensures e.ErrorObject? ==> m == e.message
    ensures e.NonError? ==> m == ClassificationFailed
  {
    match e
    case ErrorObject(_, message) => message
    case NonError => ClassificationFailed
  }

  /** The message of calling the `analyzeBiasLegacy` binding: `api.ts` exports
      no such function, so the imported name is `undefined`. */
  const LegacyNotAFunction: string := "analyzeBiasLegacy is not a function"

  /** The call at line 67 as written: it throws before any request is sent. */
  function LegacyCallAsWritten(text: string): (r: Result<AnalysisResult, Thrown>)
    ensures r == Failure(ErrorObject(TypeError, LegacyNotAFunction))
  {
    Failure(ErrorObject(TypeError, LegacyNotAFunction))
  }

  /** As written, every classification of a non-blank text ends with the
      `TypeError`'s message on screen and no result. */
  method ClassifyAsWritten(input: string) returns (shown: Option<AnalysisResult>, message: Option<string>)
    requires !IsBlank(input)
    ensures shown == None
    ensures message == Some(LegacyNotAFunction)
  {
    var panel := new RoBERTaAnalyzer();
    panel.Edit(input);
    var started := panel.BeginAnalyze();
    panel.Settle(LegacyCallAsWritten(panel.text));
    shown := panel.result;
    message := panel.error;
  }

  /** With the exported `analyzeBias` in place of the missing binding, a
      delivered response with a taxonomy label is shown enriched, and a
      transport failure shows the backend's message or the hint. */
  method ClassifyCorrected(input: string, post: PostOutcome)
    returns (shown: Option<AnalysisResult>, message: Option<string>)
    requires !IsBlank(input)
    ensures post.Delivered? && !post.data.predicted_label.Other? ==>
      shown == Some(EnrichResponse(post.data).value) && message == None
    ensures post.AxiosFailed? ==>
      shown == None && message == Some(AxiosMessage(post.serverError))
  {
    var panel := new RoBERTaAnalyzer();
    panel.Edit(input);
    var started := panel.BeginAnalyze();
    panel.Settle(AnalyzeBias(post));
    shown := panel.result;
    message := panel.error;
  }
}
