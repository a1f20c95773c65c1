/** `BiasChecker` (`frontend/components/BiasChecker.tsx`): the analyzer panel.
    Its state is `selectedText`, `result`, `isLoading` and `error`; it owns an
    `ArtifactConsole` whose `initialText` prop is `selectedText`. The async
    `handleAnalyze` is split at its `await`: `BeginAnalysis` is the part that
    runs on the click, `SettleAnalysis` the part that runs when `analyzeBias`
    settles, with the request's outcome as a parameter. */
module Checker {
  import opened Wrappers
  import opened BiasTypes
  import opened Enrichment
  import opened Console

  const GenericError: string := "An error occurred during analysis"

  /** The message shown for a thrown value: an `Error`'s `message`, else the
      generic text. */
  function ErrorText(e: Thrown): (m: string)
    ensures e.ErrorObject? ==> m == e.message
    ensures e.NonError? ==> m == GenericError
  {
    match e
    case ErrorObject(_, message) => message
    case NonError => GenericError
  }

  /** Everything `analyzeBias` throws is an `Error`, so the generic text is
      never what the panel shows: it shows the backend's message or the hint
      for a transport failure, and the `TypeError`'s message for a label with
      no template. */
  lemma SettledErrorText(outcome: PostOutcome)
    requires AnalyzeBias(outcome).Failure?
    ensures outcome.AxiosFailed? ==>
      ErrorText(AnalyzeBias(outcome).error) == AxiosMessage(outcome.serverError)
    ensures outcome.Delivered? ==>
      ErrorText(AnalyzeBias(outcome).error) == MissingTemplateMessage
  {
  }

  class BiasChecker {
    var selectedText: string
    var result: Option<AnalysisResult>
    var isLoading: bool
    var error: Option<string>
    /** The rendered `ArtifactConsole`. */
    const console: ArtifactConsole

    /** The console's last prop is the selected text. */
    ghost predicate Valid()
      reads this, console
    {
      console.initialText == selectedText
    }

    constructor ()
      ensures Valid() && fresh(console)
      ensures selectedText == [] && result == None && !isLoading && error == None
      ensures console.text == []
    {
      selectedText := [];
      result := None;
      isLoading := false;
      error := None;
      console := new ArtifactConsole([]);
    }

    /** `handleAnalyze` up to its `await`: loading on, error cleared; the
        previous result stays, and no check is made on the text. */
    method BeginAnalysis()
      modifies this
      ensures isLoading && error == None
      ensures result == old(result) && selectedText == old(selectedText)
    {
      isLoading := true;
      error := None;
    }

    /** `handleAnalyze` after `analyzeBias` settles: the result on success, the
        message and no result on failure, loading off in both cases. Nothing
        ties the outcome to the request that produced it. */
    method SettleAnalysis(outcome: PostOutcome)
      modifies this
      ensures !isLoading && selectedText == old(selectedText)
      ensures AnalyzeBias(outcome).Success? ==>
        result == Some(AnalyzeBias(outcome).value) && error == old(error)
      ensures AnalyzeBias(outcome).Failure? ==>
        result == None && error == Some(ErrorText(AnalyzeBias(outcome).error))
    {
      match AnalyzeBias(outcome) {
        case Success(r) =>
          result := Some(r);
        case Failure(e) =>
          error := Some(ErrorText(e));
          result := None;
      }
      isLoading := false;
    }

    /** `handleSelectExample`, followed by the render that passes the new
        `selectedText` to the console. */
    method SelectExample(text: string)
      requires Valid()
      modifies this, console
      ensures Valid()
      ensures selectedText == text && result == None && error == None
      ensures isLoading == old(isLoading)
      ensures text != old(selectedText) && text != [] ==> console.text == text
      ensures text == old(selectedText) || text == [] ==> console.text == old(console.text)
    {
      selectedText := text;
      result := None;
      error := None;
      console.SyncInitialText(text);
    }

    /** A click on the console's button. The console is rendered without
        `isOffline`, so only a blank text or a running request disables it;
        an enabled click starts an analysis of the console's text. */
    method ClickAnalyze() returns (sent: Option<string>)
      modifies this
      ensures sent.Some? <==> !console.Disabled(old(isLoading), false)
      ensures sent.Some? ==>
        sent.value == console.text && isLoading && error == None && result == old(result)
      ensures sent.None? ==>
        isLoading == old(isLoading) && error == old(error) && result == old(result)
      ensures selectedText == old(selectedText)
    {
      if console.Disabled(isLoading, false) {
        return None;
      }
      var submission := console.Submission();
      sent := Some(submission.value.0);
      BeginAnalysis();
    }

    /** `result.summary || result.rationale`, or nothing without a result. */
    function DisplayedRationale(): (r: Option<string>)
      reads this
      ensures result.None? ==> r.None?
      ensures result.Some? ==> r == Some(ShownRationale(result.value))
    {
      if result.Some? then Some(ShownRationale(result.value)) else None
    }
  }

  /** `summary || rationale`: a non-empty summary wins. */
  function ShownRationale(res: AnalysisResult): (r: string)
    ensures res.response.rich.summary.Some? && res.response.rich.summary.value != []
      ==> r == res.response.rich.summary.value
    ensures res.response.rich.summary.None? || res.response.rich.summary.value == []
      ==> r == res.rationale
  {
    match res.response.rich.summary
    case Some(s) => if s != [] then s else res.rationale
    case None => res.rationale
  }

  /** The props handed to `BiasDetailsCard`. */
  datatype DetailsProps = DetailsProps(biases: seq<BiasFound>, biasLevel: string, biasFreeSection: seq<string>)

  /** `biases_found || []`, `overall_bias_level || "NONE"`,
      `bias_free_sections || []`. */
  function DetailsFor(res: AnalysisResult): (p: DetailsProps)
    ensures res.response.rich.biases_found.Some? ==> p.biases == res.response.rich.biases_found.value
    ensures res.response.rich.biases_found.None? ==> p.biases == []
    ensures res.response.rich.overall_bias_level.Some? && res.response.rich.overall_bias_level.value != []
      ==> p.biasLevel == res.response.rich.overall_bias_level.value
    ensures res.response.rich.overall_bias_level.None? || res.response.rich.overall_bias_level.value == []
      ==> p.biasLevel == "NONE"
    ensures res.response.rich.bias_free_sections.Some? ==> p.biasFreeSection == res.response.rich.bias_free_sections.value
    ensures res.response.rich.bias_free_sections.None? ==> p.biasFreeSection == []
  {
    var rich := res.response.rich;
    DetailsProps(
      if rich.biases_found.Some? then rich.biases_found.value else [],
      if rich.overall_bias_level.Some? && rich.overall_bias_level.value != [] then rich.overall_bias_level.value else "NONE",
      if rich.bias_free_sections.Some? then rich.bias_free_sections.value else [])
  }

  /** A legacy `/predict` response carries no rich fields: the card shows the
      label's template rationale and the details fall back to empty lists and
      level `"NONE"`. */
  lemma LegacyResponseFallbacks(resp: AnalysisResponse)
    requires resp.rich == NoRichFields && !resp.predicted_label.Other?
    ensures var res := EnrichResponse(resp).value;
      && Some(ShownRationale(res)) == Rationale(resp.predicted_label)
      && DetailsFor(res) == DetailsProps([], "NONE", [])
  {
  }

  /** A response that settles after the user picked another example still
      lands: the panel shows the selected example next to the result of the
      earlier request. */
  method StaleResponseOverwrites(example: string, data: AnalysisResponse)
    returns (shownText: string, shownResult: Option<AnalysisResult>)
    requires !data.predicted_label.Other?
    ensures shownText == example
    ensures shownResult == Some(EnrichResponse(data).value)
  {
    var panel := new BiasChecker();
    panel.BeginAnalysis();
    panel.SelectExample(example);
    panel.SettleAnalysis(Delivered(data));
    shownText := panel.selectedText;
    shownResult := panel.result;
  }
}
