/** The front end's shared types (`frontend/types/index.ts`): bias labels, the
    legacy response `{text, predicted_label, confidence}` and the enriched
    result. The richer few-shot fields (`summary`, `overall_bias_level`,
    `biases_found`, `bias_free_sections`) are not declared there, but
    `BiasChecker` reads them off the result, so they ride along as optional
    pass-through fields. */
module BiasTypes {
  import opened Wrappers

  /** The seven labels of the taxonomy, plus any other string the server sends
      (`"error"`, `"unknown"`, …) that does not name a member of JavaScript's
      `Object.prototype`: the object-literal tables look those names up with
      no own entry and no inherited one. */
  datatype BiasLabel =
    | NoBias
    | DemographicBias
    | ClinicalStigmaBias
    | AssessmentBias
    | AlgorithmicBias
    | DocumentationBias
    | StructuralBias
    | Other(name: string)

  predicate IsTaxonomyName(s: string) {
    s == "no_bias" || s == "demographic_bias" || s == "clinical_stigma_bias"
    || s == "assessment_bias" || s == "algorithmic_bias" || s == "documentation_bias"
    || s == "structural_bias"
  }

  /** An `Other` label never spells one of the seven names. */
  predicate WellFormed(l: BiasLabel) {
    l.Other? ==> !IsTaxonomyName(l.name)
  }

  /** The label as it travels in JSON. */
  function LabelName(l: BiasLabel): string {
    match l
    case NoBias => "no_bias"
    case DemographicBias => "demographic_bias"
    case ClinicalStigmaBias => "clinical_stigma_bias"
    case AssessmentBias => "assessment_bias"
    case AlgorithmicBias => "algorithmic_bias"
    case DocumentationBias => "documentation_bias"
    case StructuralBias => "structural_bias"
    case Other(name) => name
  }

  /** Reading a label off the wire: every string denotes exactly one label. */
  function ParseLabel(s: string): (l: BiasLabel)
    ensures LabelName(l) == s && WellFormed(l)
    ensures l.Other? <==> !IsTaxonomyName(s)
  {
    if s == "no_bias" then NoBias
    else if s == "demographic_bias" then DemographicBias
    else if s == "clinical_stigma_bias" then ClinicalStigmaBias
    else if s == "assessment_bias" then AssessmentBias
    else if s == "algorithmic_bias" then AlgorithmicBias
    else if s == "documentation_bias" then DocumentationBias
    else if s == "structural_bias" then StructuralBias
    else Other(s)
  }

  lemma ParseLabelName(l: BiasLabel)
    requires WellFormed(l)
    ensures ParseLabel(LabelName(l)) == l
  {
  }

  datatype SourceType = Vignette | Feedback

  /** One finding of the few-shot protocol. */
  datatype BiasFound = BiasFound(
    category: string,
    sub_type: string,
    confidence: real,
    evidence: string,
    problematic_text: string,
    recommendation: string)

  /** Optional fields of a richer response; `None` is an absent field. */
  datatype RichFields = RichFields(
    summary: Option<string>,
    overall_bias_level: Option<string>,
    biases_found: Option<seq<BiasFound>>,
    bias_free_sections: Option<seq<string>>)

  const NoRichFields := RichFields(None, None, None, None)

  /** `BiasAnalysisResponse`, as returned by `POST /predict`. */
  datatype AnalysisResponse = AnalysisResponse(
    text: string,
    predicted_label: BiasLabel,
    confidence: real,
    rich: RichFields)

  /** `BiasAnalysisResult`: the response spread unchanged, plus the enrichment. */
  datatype AnalysisResult = AnalysisResult(
    response: AnalysisResponse,
    rationale: string,
    flags: seq<string>,
    recommended_revision: string,
    audit_score: int,
    compliance_rating: string)

  datatype ErrorKind = PlainError | TypeError | AxiosError

  /** A value thrown by an `async` call: an `Error` object, or anything else. */
  datatype Thrown = ErrorObject(kind: ErrorKind, message: string) | NonError
}
