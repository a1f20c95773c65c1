/** The local enrichment engine of `frontend/services/api.ts`: from a bare
    `{text, predicted_label, confidence}` response it derives a rationale, a
    flag list, a suggested revision, an audit score and a compliance rating;
    and `analyzeBias` turns a transport failure into a user message. */
module Enrichment {
  import opened Wrappers
  import opened Text
  import opened Numbers
  import opened BiasTypes

  const NoBiasRationale: string :=
    "This text uses neutral, patient-centered language without stereotypes or stigmatizing descriptors. The clinical information is presented objectively."

  const DemographicRationale: string :=
    "The vignette attributes medical non-adherence or clinical outcomes to the patient's demographic background (race, ethnicity, nationality, or cultural group) and makes generalized assumptions about behavior based on these demographic stereotypes, which is a form of negative profiling."

  const ClinicalStigmaRationale: string :=
    "This text contains stigmatizing language about the patient's condition, behavior, or circumstances. Such language can negatively influence clinical judgment and perpetuate harmful stereotypes."

  const AssessmentRationale: string :=
    "This evaluation uses biased framing that may unfairly penalize the trainee or candidate. The language suggests subjective judgment rather than objective, constructive feedback."

  const AlgorithmicRationale: string :=
    "This text reflects potential bias from algorithmic or automated systems, such as biased scoring logic, unfair risk stratification, or inequitable resource allocation patterns."

  const DocumentationRationale: string :=
    "The documentation contains unnecessary negative descriptors or judgmental language that goes beyond clinically relevant information and may reflect implicit bias."

  const StructuralRationale: string :=
    "This text attributes individual blame for issues that are actually rooted in systemic barriers, healthcare access inequities, or resource limitations beyond the patient's control."

  /** `rationaleTemplates[label]`: one fixed sentence per taxonomy label, and
      `undefined` (here `None`) for any other label. */
  function Rationale(l: BiasLabel): (r: Option<string>)
    ensures r.Some? <==> !l.Other?
  {
    match l
    case NoBias => Some(NoBiasRationale)
    case DemographicBias => Some(DemographicRationale)
    case ClinicalStigmaBias => Some(ClinicalStigmaRationale)
    case AssessmentBias => Some(AssessmentRationale)
    case AlgorithmicBias => Some(AlgorithmicRationale)
    case DocumentationBias => Some(DocumentationRationale)
    case StructuralBias => Some(StructuralRationale)
    case Other(_) => None
  }

  /** `flagPatterns[label] || []`: a fixed list per label, empty for `no_bias`
      and for labels outside the seven. */
  function FlagPatterns(l: BiasLabel): (flags: seq<string>)
    ensures flags == [] <==> l == NoBias || l.Other?
  {
    match l
    case NoBias => []
    case DemographicBias => ["cultural dietary preferences common in this demographic", "likely due to cultural", "Hispanic background", "immigration status", "given the background"]
    case ClinicalStigmaBias => ["drug-seeking", "non-compliant", "failure to adhere", "refuses to", "difficult patient"]
    case AssessmentBias => ["unprofessional", "lacks competence", "poor judgment", "inadequate"]
    case AlgorithmicBias => ["risk score indicates", "algorithmic assessment", "automated flagging"]
    case DocumentationBias => ["appears unmotivated", "seems uninterested", "claims to have", "alleges"]
    case StructuralBias => ["lives in a high-crime area", "limited resources in neighborhood", "lack of access"]
    case Other(_) => []
  }

  /** `text.replace(/pattern/gi, replacement)`. */
  function ReplaceCI(text: string, pattern: string, replacement: string): string {
    ReplaceAll(text, pattern, Fixed(replacement), true)
  }

  /** What `assessment_bias` returns whatever the input. */
  const AssessmentRewrite: string :=
    "The trainee demonstrated [specific observable behavior]. Recommend focusing on [specific skill development area] to strengthen competency."

  /** `revisionTemplates[label](text)`; `None` when the label has no template,
      where the call throws. */
  function Revision(l: BiasLabel, text: string): (r: Option<string>)
    ensures r.Some? <==> !l.Other?
    ensures l == NoBias ==> r == Some(text)
    ensures l == AssessmentBias ==> r == Some(AssessmentRewrite)
  {
    match l
    case NoBias => Some(text)
    case DemographicBias =>
      Some(ReplaceCI(ReplaceCI(text, "cultural dietary preferences common in this demographic", "dietary preferences"), "Hispanic background", "background"))
    case ClinicalStigmaBias =>
      Some(ReplaceCI(ReplaceCI(text, "non-compliant", "having difficulty with adherence"), "drug-seeking", "expressing pain-related concerns"))
    case AssessmentBias => Some(AssessmentRewrite)
    case AlgorithmicBias =>
      Some(ReplaceCI(ReplaceCI(text, "algorithmic", "clinical"), "automated", "clinical"))
    case DocumentationBias =>
      Some(ReplaceCI(ReplaceCI(ReplaceCI(text, "appears", "reports"), "claims", "states"), "alleges", "reports"))
    case StructuralBias =>
      Some(ReplaceCI(ReplaceCI(text, "high-crime area", "community"), "limited resources", "healthcare access challenges"))
    case Other(_) => None
  }

  /** The phrases a label's revision rewrites, in the order it rewrites them. */
  function RevisionTargets(l: BiasLabel): seq<string> {
    match l
    case DemographicBias => ["cultural dietary preferences common in this demographic", "Hispanic background"]
    case ClinicalStigmaBias => ["non-compliant", "drug-seeking"]
    case AlgorithmicBias => ["algorithmic", "automated"]
    case DocumentationBias => ["appears", "claims", "alleges"]
    case StructuralBias => ["high-crime area", "limited resources"]
    case _ => []
  }

  /** A text holding none of its label's target phrases (in any case) comes
      back from the revision unchanged. */
  lemma RevisionWithoutTargets(l: BiasLabel, text: string)
    requires l != AssessmentBias && !l.Other?
    requires forall k :: 0 <= k < |RevisionTargets(l)| ==> !Occurs(text, RevisionTargets(l)[k], true)
    ensures Revision(l, text) == Some(text)
  {
    var ts := RevisionTargets(l);
    if |ts| > 0 {
      assert !Occurs(text, ts[0], true);
      ReplaceAbsent(text, ts[0], Fixed([]), true);
      ReplaceAbsent(text, ts[0], Fixed(RevisionReplacement(l, 0)), true);
      assert !Occurs(text, ts[1], true);
      ReplaceAbsent(text, ts[1], Fixed(RevisionReplacement(l, 1)), true);
      if |ts| > 2 {
        assert !Occurs(text, ts[2], true);
        ReplaceAbsent(text, ts[2], Fixed(RevisionReplacement(l, 2)), true);
      }
    }
  }

  /** The replacement a revision writes for its `k`-th target phrase. */
  function RevisionReplacement(l: BiasLabel, k: nat): string {
    match l
    case DemographicBias => if k == 0 then "dietary preferences" else "background"
    case ClinicalStigmaBias => if k == 0 then "having difficulty with adherence" else "expressing pain-related concerns"
    case AlgorithmicBias => "clinical"
    case DocumentationBias => if k == 1 then "states" else "reports"
    case StructuralBias => if k == 0 then "community" else "healthcare access challenges"
    case _ => ""
  }

  function Min(a: int, b: int): int { if a <= b then a else b }
  function Max(a: int, b: int): int { if a >= b then a else b }

  /** `calculateAuditScore`: confidence in `no_bias` pushes the score up to the
      8..10 band, confidence in any other label pushes it down toward 1. */
  function AuditScore(l: BiasLabel, confidence: real): (score: int)
    ensures l == NoBias ==> score <= 10
    ensures l != NoBias ==> score >= 1
    ensures 0.0 <= confidence <= 1.0 ==>
      if l == NoBias then 8 <= score <= 10 else 1 <= score <= 10
  {
    if l == NoBias then
      RoundWithinIfUnit(8.0 + confidence * 2.0, 8, 10, confidence);
      Min(10, Round(8.0 + confidence * 2.0))
    else
      RoundWithinIfUnit((1.0 - confidence) * 10.0, 0, 10, confidence);
      Max(1, Round((1.0 - confidence) * 10.0))
  }

  lemma RoundWithinIfUnit(x: real, lo: int, hi: int, confidence: real)
    requires 0.0 <= confidence <= 1.0 ==> lo as real <= x <= hi as real
    ensures 0.0 <= confidence <= 1.0 ==> lo <= Round(x) <= hi
  {
    if 0.0 <= confidence <= 1.0 {
      RoundWithin(x, lo, hi);
    }
  }

  /** More confidence in `no_bias` never lowers the score. */
  lemma NoBiasScoreMonotone(c1: real, c2: real)
    requires c1 <= c2
    ensures AuditScore(NoBias, c1) <= AuditScore(NoBias, c2)
  {
    RoundMonotone(8.0 + c1 * 2.0, 8.0 + c2 * 2.0);
  }

  /** More confidence in a bias label never raises the score. */
  lemma BiasScoreAntitone(l: BiasLabel, c1: real, c2: real)
    requires l != NoBias && c1 <= c2
    ensures AuditScore(l, c2) <= AuditScore(l, c1)
  {
    RoundMonotone((1.0 - c2) * 10.0, (1.0 - c1) * 10.0);
  }

  /** `getComplianceRating`: a step function whose bands include their lower bound. */
  function ComplianceRating(score: int): (rating: string)
    ensures rating == "Excellent" <==> score >= 9
    ensures rating == "Good" <==> 7 <= score < 9
    ensures rating == "Fair" <==> 5 <= score < 7
    ensures rating == "Needs Improvement" <==> 3 <= score < 5
    ensures rating == "High Risk" <==> score < 3
  {
    if score >= 9 then "Excellent"
    else if score >= 7 then "Good"
    else if score >= 5 then "Fair"
    else if score >= 3 then "Needs Improvement"
    else "High Risk"
  }

  /** The position of a rating from worst (0) to best (4). */
  function RatingRank(rating: string): int {
    if rating == "Excellent" then 4
    else if rating == "Good" then 3
    else if rating == "Fair" then 2
    else if rating == "Needs Improvement" then 1
    else 0
  }

  lemma RatingMonotone(s1: int, s2: int)
    requires s1 <= s2
    ensures RatingRank(ComplianceRating(s1)) <= RatingRank(ComplianceRating(s2))
  {
  }

  /** The message of the `TypeError` thrown when a label has no revision template. */
  const MissingTemplateMessage: string := "revisionTemplates[predicted_label] is not a function"

  /** `enrichResponse`. The rationale and flags are looked up first; the revision
      template is then called, and for a label outside the seven it is
      `undefined`, so the call throws before a score is computed. */
  function EnrichResponse(resp: AnalysisResponse): (r: Result<AnalysisResult, Thrown>)
    ensures r.Success? <==> !resp.predicted_label.Other?
    ensures r.Failure? ==> r.error == ErrorObject(TypeError, MissingTemplateMessage)
    ensures r.Success? ==>
      var res := r.value;
      && res.response == resp
      && Some(res.rationale) == Rationale(resp.predicted_label)
      && res.flags == FlagPatterns(resp.predicted_label)
      && Some(res.recommended_revision) == Revision(resp.predicted_label, resp.text)
      && res.audit_score == AuditScore(resp.predicted_label, resp.confidence)
      && res.compliance_rating == ComplianceRating(res.audit_score)
  {
    var lb := resp.predicted_label;
    match Revision(lb, resp.text)
    case None => Failure(ErrorObject(TypeError, MissingTemplateMessage))
    case Some(revision) =>
      var score := AuditScore(lb, resp.confidence);
      Success(AnalysisResult(resp, Rationale(lb).value, FlagPatterns(lb), revision,
                             score, ComplianceRating(score)))
  }

  /** For a taxonomy label and a confidence in [0, 1], the enriched result has a
      score in 1..10 whose rating is one of the five bands; the score is in
      8..10, and so the rating at least "Good", exactly for `no_bias`. */
  lemma EnrichedScoreInRange(resp: AnalysisResponse)
    requires !resp.predicted_label.Other? && 0.0 <= resp.confidence <= 1.0
    ensures EnrichResponse(resp).Success?
    ensures var res := EnrichResponse(resp).value;
      && 1 <= res.audit_score <= 10
      && (resp.predicted_label == NoBias ==>
            8 <= res.audit_score && RatingRank(res.compliance_rating) >= 3)
  {
  }

  /** The flag list depends on the label alone, never on the text. */
  lemma FlagsIgnoreText(a: AnalysisResponse, b: AnalysisResponse)
    requires a.predicted_label == b.predicted_label && !a.predicted_label.Other?
    ensures EnrichResponse(a).value.flags == EnrichResponse(b).value.flags
  {
  }

  /** `no_bias` keeps the text as its revision and flags nothing. */
  lemma NoBiasKeepsText(resp: AnalysisResponse)
    requires resp.predicted_label == NoBias
    ensures EnrichResponse(resp).Success?
    ensures EnrichResponse(resp).value.recommended_revision == resp.text
    ensures EnrichResponse(resp).value.flags == []
  {
  }

  /** `assessment_bias` discards the text: any two inputs get the same revision. */
  lemma AssessmentRevisionIsConstant(a: AnalysisResponse, b: AnalysisResponse)
    requires a.predicted_label == AssessmentBias && b.predicted_label == AssessmentBias
    ensures EnrichResponse(a).value.recommended_revision
         == EnrichResponse(b).value.recommended_revision
  {
  }

  /** The outcome of `api.post('/predict', …)`: the response body, or an Axios
      error carrying the server's `error` field when there was one. */
  datatype PostOutcome =
    | Delivered(data: AnalysisResponse)
    | AxiosFailed(serverError: Option<string>)

  const BackendHint: string := "Failed to analyze bias. Please ensure the backend API is running."

  /** The message of the `Error` raised for an Axios failure: the server's
      `error` field when present and non-empty, else the fixed hint. */
  function AxiosMessage(serverError: Option<string>): (m: string)
    ensures serverError.Some? && serverError.value != [] ==> m == serverError.value
    ensures serverError.None? || serverError.value == [] ==> m == BackendHint
  {
    if serverError.Some? && serverError.value != [] then serverError.value else BackendHint
  }

  /** `analyzeBias`: a delivered response is enriched; an Axios error becomes a
      plain `Error` with the server's message or the hint; any other error, such
      as the `TypeError` of an unknown label, is re-thrown as it is. */
  function AnalyzeBias(outcome: PostOutcome): (r: Result<AnalysisResult, Thrown>)
    ensures outcome.Delivered? ==> r == EnrichResponse(outcome.data)
    ensures outcome.AxiosFailed? ==>
      r == Failure(ErrorObject(PlainError, AxiosMessage(outcome.serverError)))
    ensures r.Failure? ==> r.error.ErrorObject?
  {
    match outcome
    case AxiosFailed(serverError) => Failure(ErrorObject(PlainError, AxiosMessage(serverError)))
    case Delivered(data) => EnrichResponse(data)
  }

  /** A response labelled outside the seven fails with the `TypeError` itself,
      not with the backend hint. */
  lemma UnknownLabelRethrown(resp: AnalysisResponse)
    requires resp.predicted_label.Other?
    ensures AnalyzeBias(Delivered(resp)) == Failure(ErrorObject(TypeError, MissingTemplateMessage))
  {
  }

  /** Worked examples: 0.82 confidence of clinical stigma scores 2 ("High Risk"),
      0.9 confidence of no bias scores 10 ("Excellent"). */
  lemma ScoreExamples()
    ensures AuditScore(ClinicalStigmaBias, 0.82) == 2
    ensures ComplianceRating(AuditScore(ClinicalStigmaBias, 0.82)) == "High Risk"
    ensures AuditScore(NoBias, 0.9) == 10
    ensures ComplianceRating(AuditScore(NoBias, 0.9)) == "Excellent"
  {
    assert (1.0 - 0.82) * 10.0 + 0.5 == 2.3;
    assert (8.0 + 0.9 * 2.0) + 0.5 == 10.3;
  }
}
