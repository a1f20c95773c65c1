# Bias-Checker-Healthcare: a verified model of the analysis pipeline

Bias-Checker-Healthcare audits clinical text for bias. The Python backend classifies a text, with a fine-tuned RoBERTa model behind `/predict` or with a few-shot GPT prompt. The Next.js frontend enriches the bare `{text, predicted_label, confidence}` answer, and shows it:

- a rationale template;
- fixed flag lists;
- label-specific rewrites;
- an integer audit score and a compliance rating.

This project models, in Dafny, the logic between the HTTP calls and the screen. It also proves what that logic promises.

The model has one module per source file, plus the shared modules `Wrappers`, `Numbers`, `Text`, `Json` and `BiasTypes`:

- `Enrichment` (`frontend/services/api.ts`): the rationale, flag, revision, score and rating tables. It also covers `enrichResponse` and the error mapping of `analyzeBias`.
- `Checker`, `Console` and `RoBERTa`: the three stateful components, each as a class.
  - Their fields are the React state.
  - A handler that awaits is split at its `await` into a method that starts the request and one that settles it.
  - The request's outcome is a parameter.
- `BiasDetails`, `FlagHighlight`, `AuditScoreView` and `BadgeView` cover the rendering decisions.
- `FewShot`, `PredictApi`, `LlmService` and `TrainLabels`: the backend shaping in `few_shot_classifier.py`, `app.py`, `llm_service.py` and `train_model.py`.
  - Python dicts are ordered lists of key/value pairs over a small JSON datatype.
  - A Python operation that raises yields `None`, or the error path the handler takes.
  - OpenAI, `json.loads`/`json.dumps`, `predict_bias` and the environment variable are parameters.

Where the code and its description disagree, the model follows the code:

- `BiasChecker` has no guard against stale responses. `Checker.StaleResponseOverwrites` shows that a late response still lands after another example was picked.
- `BiasChecker` never passes `isOffline`, so its console is only disabled by a blank text or a running request.
- A label outside the seven taxonomy labels (`"error"`, `"unknown"`) makes `enrichResponse` throw. There is no template function for it, and `analyzeBias` re-throws the resulting `TypeError`. This holds for labels that do not name an `Object.prototype` member (see "## Left out").

## Model

| member | source | states |
|---|---|---|
| Numbers.Round | frontend/services/api.ts:49 | `Math.round` gives the integer within one half of its argument, rounding halves up |
| Numbers.RoundMonotone | frontend/services/api.ts:52 | rounding never reverses the order of two values |
| Numbers.RoundWithin | frontend/services/api.ts:49-52 | a value between two integers rounds to an integer between them |
| Numbers.Round4 | backend/src/few_shot_classifier.py:304 | `round(x, 4)` lies within 0.00005 of x |
| Text.Trim | frontend/components/analyze/ArtifactConsole.tsx:23 | `trim()` is empty exactly for whitespace-only text; otherwise it neither starts nor ends with whitespace |
| Text.Contains | backend/src/llm_service.py:54 | substring test: true exactly when the pattern occurs at some position |
| Text.ReplaceAbsent | frontend/services/api.ts:38-43 | a global replace whose pattern does not occur returns the text unchanged |
| Text.ReplaceAfterFreePrefix | frontend/components/analyze/FlagsDetected.tsx:20-24 | a stretch where no match can start passes through a global replace unchanged |
| Text.HighlightOne | frontend/components/analyze/FlagsDetected.tsx:23 | a `$1` replacement wraps a matched piece, keeping its own characters |
| Text.RemoveFenceLeavesNone | backend/src/llm_service.py:55 | after replacing every "```" with nothing, no three backticks in a row remain |
| Text.NoTripleTickHasNoFence | backend/src/llm_service.py:55 | text without three consecutive backticks contains no fence |
| Json.Get | backend/src/few_shot_classifier.py:172-177 | `dict.get` returns the default when the key is absent, and otherwise a value stored under that key |
| Json.Iterate | backend/src/few_shot_classifier.py:80 | what a `for` loop visits: a list's items, a string's characters, a dict's keys; defined exactly on those three, with nothing to visit exactly when the value is falsy |
| Json.Len | backend/src/few_shot_classifier.py:253 | `len` is defined exactly on iterable values and counts what the loop visits |
| Json.Contains | backend/src/few_shot_classifier.py:252 | `in` is defined exactly on iterable values |
| BiasTypes.ParseLabelName | frontend/types/index.ts:1-8 | reading back a label's wire name gives the label |
| Enrichment.Rationale | frontend/services/api.ts:14-22 | every taxonomy label has a rationale template; a label outside the seven, and not an `Object.prototype` name, has none |
| Enrichment.FlagPatterns | frontend/services/api.ts:25-33 | the flag list is empty exactly for `no_bias` and for labels outside the table (the `\|\| []` of line 69) |
| Enrichment.Revision | frontend/services/api.ts:36-44 | among labels that are not `Object.prototype` names, a revision exists exactly for taxonomy labels; it is the text itself for `no_bias` and one constant for `assessment_bias` |
| Enrichment.RevisionWithoutTargets | frontend/services/api.ts:38-43 | a text containing none of a label's target phrases, in any case, comes back unchanged |
| Enrichment.AuditScore | frontend/services/api.ts:47-53 | for confidence in [0, 1] the score is 8..10 for `no_bias` and 1..10 for every other label |
| Enrichment.NoBiasScoreMonotone | frontend/services/api.ts:48-50 | for `no_bias` a higher confidence never lowers the score |
| Enrichment.BiasScoreAntitone | frontend/services/api.ts:51-52 | for any other label a higher confidence never raises the score |
| Enrichment.ComplianceRating | frontend/services/api.ts:56-62 | each rating holds exactly on its score band: ≥9, 7..8, 5..6, 3..4, below 3 |
| Enrichment.RatingMonotone | frontend/services/api.ts:56-62 | a higher score never gets a worse rating |
| Enrichment.EnrichResponse | frontend/services/api.ts:65-81 | keeps text, label and confidence; fills in rationale, flags, revision and score; rating is the score's rating; fails with the `TypeError` exactly for labels outside the seven (labels naming an `Object.prototype` member are not modelled) |
| Enrichment.EnrichedScoreInRange | frontend/services/api.ts:71-72 | an enriched result with confidence in [0, 1] has a score in 1..10 |
| Enrichment.FlagsIgnoreText | frontend/services/api.ts:69 | two responses with the same label get the same flags, whatever their texts |
| Enrichment.NoBiasKeepsText | frontend/services/api.ts:37 | a `no_bias` result has no flags and its text as the revision |
| Enrichment.AssessmentRevisionIsConstant | frontend/services/api.ts:40 | every `assessment_bias` result gets the same revision |
| Enrichment.AxiosMessage | frontend/services/api.ts:91 | the server's `error` field when present, else the backend hint |
| Enrichment.AnalyzeBias | frontend/services/api.ts:84-95 | a delivered response is enriched; a transport failure becomes an `Error` with the Axios message; every failure is an `Error` |
| Enrichment.UnknownLabelRethrown | frontend/services/api.ts:93 | the unknown-label `TypeError` leaves `analyzeBias` as it was thrown |
| Enrichment.ScoreExamples | frontend/services/api.ts:47-62 | confidence 0.82 on a bias label gives 2, "High Risk"; 0.9 on `no_bias` gives 10, "Excellent" |
| Console.Utf16Length | frontend/components/analyze/ArtifactConsole.tsx:55 | `text.length` counts UTF-16 units: between the number of characters and twice that, equal exactly for text without astral characters |
| Console.ArtifactConsole.constructor | frontend/components/analyze/ArtifactConsole.tsx:21 | the text starts as `initialText` |
| Console.ArtifactConsole.Edit | frontend/components/analyze/ArtifactConsole.tsx:50 | typing replaces the text and nothing else |
| Console.ArtifactConsole.SyncInitialText | frontend/components/analyze/ArtifactConsole.tsx:28-32 | a changed, non-empty `initialText` replaces the text; an empty or unchanged one leaves it |
| Console.ArtifactConsole.Submission | frontend/components/analyze/ArtifactConsole.tsx:22-26 | `onAnalyze(text, "vignette")` happens exactly when the text is not blank |
| Console.ArtifactConsole.Disabled | frontend/components/analyze/ArtifactConsole.tsx:71 | disabled exactly when the text is blank, or loading, or offline |
| Console.ArtifactConsole.ButtonLabel | frontend/components/analyze/ArtifactConsole.tsx:75-82 | "Processing diagnostics..." while loading, else "Engine Offline" when offline, else "Start Analysis Engine" |
| Console.ArtifactConsole.CharCount | frontend/components/analyze/ArtifactConsole.tsx:55 | the counter is the text's UTF-16 length |
| Console.EnabledButtonSubmits | frontend/components/analyze/ArtifactConsole.tsx:22-26 | an enabled button always submits the text |
| Console.CharCountOfPlainText | frontend/components/analyze/ArtifactConsole.tsx:55 | for text without astral characters the counter is the number of characters |
| Checker.ErrorText | frontend/components/BiasChecker.tsx:28-32 | an `Error`'s message, else "An error occurred during analysis" |
| Checker.SettledErrorText | frontend/components/BiasChecker.tsx:27-33 | a failed analysis shows the Axios message for a transport failure and the `TypeError` message for an unknown label |
| Checker.BiasChecker.constructor | frontend/components/BiasChecker.tsx:15-18 | empty text, no result, not loading, no error; the console starts empty |
| Checker.BiasChecker.BeginAnalysis | frontend/components/BiasChecker.tsx:20-22 | loading on and error cleared, with no check on the text; result and text kept |
| Checker.BiasChecker.SettleAnalysis | frontend/components/BiasChecker.tsx:24-36 | success stores the result; failure clears it and stores the message; loading is off after both |
| Checker.BiasChecker.SelectExample | frontend/components/BiasChecker.tsx:39-43 | sets the selected text, clears result and error, and passes the text on to the console |
| Checker.BiasChecker.ClickAnalyze | frontend/components/BiasChecker.tsx:68-72 | without `isOffline` only a blank text or a running request blocks the click; an enabled click starts an analysis of the console's text |
| Checker.BiasChecker.DisplayedRationale | frontend/components/BiasChecker.tsx:103 | the shown rationale of the current result, none without one |
| Checker.ShownRationale | frontend/components/BiasChecker.tsx:103 | a non-empty summary wins over the rationale |
| Checker.DetailsFor | frontend/components/BiasChecker.tsx:108-112 | missing findings, level and sections become `[]`, "NONE" and `[]` |
| Checker.LegacyResponseFallbacks | frontend/components/BiasChecker.tsx:103-111 | a bare `/predict` response shows its label's template rationale and empty details at level "NONE" |
| Checker.StaleResponseOverwrites | frontend/components/BiasChecker.tsx:20-43 | a response settling after another example was selected still becomes the shown result |
| RoBERTa.StyleFor | frontend/components/analyzers/RoBERTaAnalyzer.tsx:77-79 | labels without their own entry get the `no_bias` style |
| RoBERTa.StylesDistinct | frontend/components/analyzers/RoBERTaAnalyzer.tsx:32-54 | the four styled labels have four colours |
| RoBERTa.RoBERTaAnalyzer.constructor | frontend/components/analyzers/RoBERTaAnalyzer.tsx:57-60 | empty text, no result, not loading, no error |
| RoBERTa.RoBERTaAnalyzer.Edit | frontend/components/analyzers/RoBERTaAnalyzer.tsx:118 | typing replaces the text and nothing else |
| RoBERTa.RoBERTaAnalyzer.ChooseSample | frontend/components/analyzers/RoBERTaAnalyzer.tsx:102-106 | a sample replaces the text and clears result and error |
| RoBERTa.RoBERTaAnalyzer.SubmitDisabled | frontend/components/analyzers/RoBERTaAnalyzer.tsx:125 | disabled exactly while loading or when the text is blank |
| RoBERTa.RoBERTaAnalyzer.BeginAnalyze | frontend/components/analyzers/RoBERTaAnalyzer.tsx:62-65 | a blank text changes nothing; otherwise loading goes on and the error is cleared |
| RoBERTa.RoBERTaAnalyzer.Settle | frontend/components/analyzers/RoBERTaAnalyzer.tsx:66-74 | success stores the result; failure clears it and stores `err.message` or "Classification failed"; loading is off after both |
| RoBERTa.RoBERTaAnalyzer.Style | frontend/components/analyzers/RoBERTaAnalyzer.tsx:77-79 | a style exactly when there is a result, namely its label's |
| RoBERTa.FailureText | frontend/components/analyzers/RoBERTaAnalyzer.tsx:70 | an `Error`'s message, else "Classification failed" |
| RoBERTa.LegacyCallAsWritten | frontend/components/analyzers/RoBERTaAnalyzer.tsx:67 | the imported `analyzeBiasLegacy` is undefined, so the call throws a `TypeError` |
| RoBERTa.ClassifyAsWritten | frontend/components/analyzers/RoBERTaAnalyzer.tsx:62-75 | as written, every classification of a non-blank text ends with no result and the `TypeError` message |
| RoBERTa.ClassifyCorrected | frontend/components/analyzers/RoBERTaAnalyzer.tsx:62-75 | with `analyzeBias` in its place, a delivered taxonomy label is shown enriched and a transport failure shows the Axios message |
| BiasDetails.Split | frontend/components/analyze/BiasDetailsCard.tsx:47 | `split` always yields at least one piece |
| BiasDetails.FormatFrom | frontend/components/analyze/BiasDetailsCard.tsx:45-50 | a one-pass reference formatter: same length, no `_` |
| BiasDetails.FormatFromPointwise | frontend/components/analyze/BiasDetailsCard.tsx:45-50 | each output character is the space for `_`, the upper-cased character at a word start, the character itself elsewhere |
| BiasDetails.PipelineIsFormatFrom | frontend/components/analyze/BiasDetailsCard.tsx:46-49 | split-capitalise-join equals the one-pass formatter |
| BiasDetails.FormatSubTypeSpec | frontend/components/analyze/BiasDetailsCard.tsx:45-50 | `formatSubType` keeps the length, turns `_` into spaces, capitalises word starts, and leaves no `_` |
| BiasDetails.FormatCategory | frontend/components/analyze/BiasDetailsCard.tsx:52-57 | `formatCategory` computes the same function as `formatSubType` |
| BiasDetails.LevelConfig | frontend/components/analyze/BiasDetailsCard.tsx:64 | an unrecognised level gets the `NONE` style |
| BiasDetails.LevelColoursDistinct | frontend/components/analyze/BiasDetailsCard.tsx:14-43 | the five levels have five colours |
| BiasDetails.ConfidenceBand | frontend/components/analyze/BiasDetailsCard.tsx:141-147 | danger exactly from 0.8, orange exactly on [0.6, 0.8), yellow exactly below 0.6 |
| BiasDetails.BandMonotone | frontend/components/analyze/BiasDetailsCard.tsx:141-158 | a higher confidence never gets a milder band |
| BiasDetails.Percent | frontend/components/analyze/BiasDetailsCard.tsx:160 | the percentage of a confidence in [0, 1] lies in 0..100 |
| BiasDetails.PercentWithin | frontend/components/analyze/BiasDetailsCard.tsx:160 | rounding a hundredfold confidence in [0, 1] gives 0..100 |
| BiasDetails.Render | frontend/components/analyze/BiasDetailsCard.tsx:59-219 | the "No Biases Detected" view exactly when there are no findings but some bias-free sections; otherwise one card per finding in order, with the bias-free block exactly when sections exist |
| BiasDetails.EmptyInputIsDetailed | frontend/components/analyze/BiasDetailsCard.tsx:66 | no findings and no sections still give the detailed view, empty |
| FlagHighlight.Highlight | frontend/components/analyze/FlagsDetected.tsx:13-25 | nothing for an empty list; otherwise the flags applied in list order, each to the previous result |
| FlagHighlight.AbsentFlagsLeaveText | frontend/components/analyze/FlagsDetected.tsx:19-25 | flags that do not occur, in any case, leave the text unchanged |
| FlagHighlight.MarkKeepsMatchedText | frontend/components/analyze/FlagsDetected.tsx:20-24 | an occurrence is wrapped in the `<mark>` markup with its own casing |
| FlagHighlight.MarkExample | frontend/components/analyze/FlagsDetected.tsx:20-24 | "drug-seeking" highlights "DRUG-SEEKING" in capitals |
| BadgeView.Style | frontend/components/ui/Badge.tsx:31 | labels missing from the table get the `error` style |
| BadgeView.Name | frontend/components/ui/Badge.tsx:32 | labels missing from the table are shown as their raw string; keyed labels get a display name |
| BadgeView.ExtendedLabelsFallBack | frontend/components/ui/Badge.tsx:9-32 | `algorithmic_bias`, `documentation_bias` and `structural_bias` get the error style and their raw names |
| BadgeView.KeyedLabelsDistinct | frontend/components/ui/Badge.tsx:9-28 | the five keyed labels have distinct styles and names |
| AuditScoreView.ToneFor | frontend/components/analyze/AuditScore.tsx:47-53 | success exactly from 7, warning exactly on 4..6, danger exactly below 4 |
| AuditScoreView.Certainty | frontend/components/analyze/AuditScore.tsx:65 | the certainty is the confidence rounded to a whole percent |
| AuditScoreView.Render | frontend/components/analyze/AuditScore.tsx:18-71 | the rating is shown as passed, not recomputed; tone and certainty come from score and confidence |
| AuditScoreView.ToneAgainstRating | frontend/components/analyze/AuditScore.tsx:47-55 | success exactly for "Good" or better; scores 3 and 4 share a rating but not a tone |
| AuditScoreView.CertaintyInRange | frontend/components/analyze/AuditScore.tsx:65 | a confidence in [0, 1] shows 0..100 percent |
| FewShot.BuildFewShotPrompt | backend/src/few_shot_classifier.py:65-96 | 2 + number-of-examples messages: the system prompt, the examples in order, the prefixed user text; fails exactly without a system prompt or with an example that is not a dict |
| FewShot.ExampleMessage | backend/src/few_shot_classifier.py:81-88 | role and content copied, with a dict content serialised |
| FewShot.ClassifyFewShot | backend/src/few_shot_classifier.py:118-200 | the six documented keys come first; a dict reply is reduced to them with their defaults; every failure is the error shape with its path's summary and code |
| FewShot.Normalise | backend/src/few_shot_classifier.py:171-178 | exactly the six documented keys, each the reply's value or its default |
| FewShot.TruthyValues | backend/src/few_shot_classifier.py:296 | at most one value per finding, all truthy |
| FewShot.TruthyValuesAll | backend/src/few_shot_classifier.py:296-299 | when every finding has the value, all values are kept in order |
| FewShot.ConfidenceSumBounds | backend/src/few_shot_classifier.py:291 | confidences in [0, 1] add up to at most the number of findings |
| FewShot.ClassifyForApi | backend/src/few_shot_classifier.py:273-311 | passes on label, summary, level, findings and sections with their defaults; confidence is the rounded mean, else 0.95 for `no_bias` and 0.0 otherwise; flags are the problematic passages; revision is the joined recommendations or the text; fails exactly where Python raises |
| FewShot.Round4Unit | backend/src/few_shot_classifier.py:304 | rounding a value in [0, 1] stays in [0, 1] |
| FewShot.ApiConfidenceInUnit | backend/src/few_shot_classifier.py:289-304 | with confidences in [0, 1] the reported confidence is in [0, 1] |
| FewShot.ErrorShapeReachesApi | backend/src/few_shot_classifier.py:285-304 | an error result reaches the endpoint format as label "error", confidence 0, no flags, the text as revision |
| FewShot.FailureReachesApi | backend/src/few_shot_classifier.py:118-200 | every failure of the few-shot call reaches the endpoint format that way |
| FewShot.SubTypeCount | backend/src/few_shot_classifier.py:252-253 | a category dict adds the length of its `sub_types`, or nothing without the key |
| FewShot.SubTypeTotalAppend | backend/src/few_shot_classifier.py:250-253 | the total over two runs of categories is the sum of their totals |
| FewShot.SubTypeTotalFails | backend/src/few_shot_classifier.py:251-253 | one category that raises makes the whole count raise |
| FewShot.GetModelInfo | backend/src/few_shot_classifier.py:245-261 | category names in order, the sub-type total, half the example count; fails exactly where Python raises |
| PredictApi.Health | backend/src/app.py:14-17 | always 200 with the ready status |
| PredictApi.Field | backend/src/app.py:28-31 | a falsy body or one without the key counts as missing; only a dict holding the key yields a value; every other case raises |
| PredictApi.PredictionFields | backend/src/app.py:39-43 | text, label and the confidence rounded to four places, in the dict literal's order (the key order on the wire is `jsonify`'s) |
| PredictApi.Predict | backend/src/app.py:19-46 | 400 for a missing text and for a non-string or blank one; 200 exactly for a valid text the model answers, with the text echoed; 500 with `error` otherwise, carrying `str(e)` of a failed lookup or of the exception `predict_bias` raised |
| PredictApi.SeparatorOnlyTextRefused | backend/src/app.py:33-34 | a text made only of `\x1c`, which Python's `strip()` removes, is refused with 400 |
| PredictApi.PredictConsultsModelOnlyForValidText | backend/src/app.py:33-37 | for any request without a valid text the response does not depend on the model |
| PredictApi.PredictEchoesText | backend/src/app.py:39-43 | a 200 response echoes the request's own non-blank text |
| PredictApi.BatchItem | backend/src/app.py:66-78 | each element's dict echoes its text first (the dict literal's order); it carries `error` exactly when it is not a non-blank string; only a valid text can fail |
| PredictApi.PredictBatch | backend/src/app.py:48-83 | 400 when `texts` is missing or not a list; 200 exactly when no prediction raises, with one answer per element in order; otherwise 500 with the first exception |
| PredictApi.BatchAgreesWithSingle | backend/src/app.py:66-73 | a batch element is answered with the fields `/predict` gives for the same text |
| LlmService.Fallback | backend/src/llm_service.py:15-20 | rationale, no flags, the text as revision, and an error code |
| LlmService.StripFences | backend/src/llm_service.py:54-55 | unchanged without "```json"; with it, no fence remains |
| LlmService.UnfencedReplyOnlyTrimmed | backend/src/llm_service.py:54-57 | a reply without "```json" reaches the parser only trimmed |
| LlmService.FencedReplyRoundTrip | backend/src/llm_service.py:54-55 | a backtick-free body wrapped in a "```json" fence comes out as it went in |
| LlmService.GenerateBiasExplanation | backend/src/llm_service.py:8-68 | the missing-key fallback first; then a confidence that does not format as `.2f` raises out of the function with its message; otherwise the parsed reply when all goes well; a failed call, `None` content (the `TypeError` of `"```json" in None`) and a `json.loads` failure each give the service-error fallback whose rationale and `error` carry that exception's `str(e)`, with no flags and the text as revision |
| LlmService.FallbackReadsAsUnchanged | backend/src/llm_service.py:14-68 | every fallback that is returned reads, by key, as no flags and the text as revision |
| TrainLabels.LabelMap | backend/train_model.py:110-118 | the four kept labels map to themselves; structural and algorithmic to demographic; documentation to clinical stigma; exactly the labels outside the seven keys map to nothing |
| TrainLabels.LabelMapIdempotent | backend/train_model.py:110-118 | mapping a consolidated label again changes nothing |
| TrainLabels.BelowIrreflexive | backend/train_model.py:127 | no string sorts strictly before itself |
| TrainLabels.BelowTransitive | backend/train_model.py:127 | Python's string order is transitive |
| TrainLabels.BelowTotal | backend/train_model.py:127 | any two different strings are ordered one way or the other |
| TrainLabels.Insert | backend/train_model.py:127 | inserting keeps a list strictly sorted and adds exactly one element |
| TrainLabels.SortUnique | backend/train_model.py:127 | `sorted(unique(...))` is strictly sorted with exactly the input's elements |
| TrainLabels.SortedIsUnique | backend/train_model.py:127 | two strictly sorted lists with the same elements are equal |
| TrainLabels.MapAll | backend/train_model.py:120 | the column maps element-wise exactly when every label is one of the seven |
| TrainLabels.Labels | backend/train_model.py:120-127 | the distinct consolidated labels, strictly sorted |
| TrainLabels.LabelIdsBijective | backend/train_model.py:128-129 | `label2id` and `id2label` are inverse over ids 0..n-1 and the labels |
| TrainLabels.SortedKeptIsPredictTable | backend/src/predict.py:52-57 | the four classes in sort order give the inference table |
| TrainLabels.TrainingMatchesInferenceTable | backend/train_model.py:127-129 | with all four classes present, training's `id2label` equals the one inference hard-codes |

## Left out

- Transport:
  - the axios requests and `checkHealth`;
  - Flask routing, CORS and `request.get_json()`;
  - `jsonify`'s serialisation, including its sorting of keys: the model's dicts keep the order of the source's dict literals.

  Their outcomes are parameters: `PostOutcome`, `Body`, `Prediction`.
- OpenAI calls, torch inference and training are left out. They are parameters where a result flows on (`Attempt`, `Reply`), and absent otherwise.
  - `json.loads` and `json.dumps` are function parameters.
  - The prompt text of `generate_bias_explanation` (`llm_service.py:23-38`) is not modelled beyond the `.2f` formatting of the confidence, the one step of it that can raise. Formatting `text` and `predicted_label` with an empty format spec cannot raise for JSON values.
- Floating point: confidences are reals.
  - `Math.round` is floor(x + 1/2).
  - Python's `round(x, 4)` is modelled the same way at four places, not with banker's rounding on binary doubles.
- Text handling works on ASCII:
  - `Text.IsSpace` covers the six ASCII whitespace characters that JavaScript's `trim()` removes;
  - `Text.PyIsSpace` adds the four separators `\x1c`..`\x1f`, which Python's `strip()` also removes, and `/predict` validation uses it;
  - `Lower` and `Upper` fold ASCII letters only;
  - Python's `strip()` and JavaScript's `trim()` also remove Unicode spaces, which neither predicate covers.
- LlmService.ParserInput: trims with `Text.Trim`, so the separators `\x1c`..`\x1f` that Python's `strip()` at `llm_service.py:57` removes reach the `loads` parameter.
- `toLocaleString` of the character counter is left out; the model keeps the number.
- FlagHighlight.Highlight: requires every flag to be free of regular-expression metacharacters. The component passes flags to `new RegExp` unescaped, and a flag with metacharacters is a pattern, not a literal.
- No model lemma shows that the enrichment layer's own flags satisfy that requirement. `FlagsDetected` is not rendered by any component in this model.
- Enrichment.EnrichResponse: a label naming an `Object.prototype` member (`"toString"`, `"constructor"`, …) is not modelled. `BiasLabel.Other(name)` stands only for names that the prototype does not supply. For such a label the table lookups of `api.ts:68-70` find the inherited member, so `api.ts:70` calls it instead of throwing.
- Enrichment.Rationale: a label naming an `Object.prototype` member finds an inherited function, not `undefined`; not modelled.
- Enrichment.Revision: a label naming an `Object.prototype` member calls the inherited function (`"toString"` gives `"[object Object]"`); not modelled.
- Enrichment.FlagPatterns: the `|| []` fallback is modelled only for labels that do not name an `Object.prototype` member.
- RoBERTa.StyleFor: the `|| labelConfig.no_bias` fallback is modelled only for labels that do not name an `Object.prototype` member.
- BiasDetails.LevelConfig: the `|| levelConfig.NONE` fallback is modelled only for levels that do not name an `Object.prototype` member.
- BadgeView.Style: the `|| badgeStyles.error` fallback is modelled only for labels that do not name an `Object.prototype` member.
- BadgeView.Name: the `|| label` fallback is modelled only for labels that do not name an `Object.prototype` member.
- RoBERTa.LegacyCallAsWritten: the `TypeError` texts (`Enrichment.MissingTemplateMessage`, `RoBERTa.LegacyNotAFunction`) are V8's wording for the source as written. A bundled build names the compiled expression instead, and only the message text differs.
- JSON objects are key/value lists; the model assumes their keys are distinct, as in parsed JSON.
- Python's exception wording is written out for the errors that reach a response (`PredictApi.NotIterableMessage`, `PredictApi.IndexMessage`, `FewShot.NoGetMessage`, `LlmService.NoneNotIterable`), as CPython 3.11 words them.
- Json.TypeName: a number with no fractional part is named `int`, so an integral float such as a `/predict` body of `5.0` gets `'int'` in `PredictApi.NotIterableMessage` where Python says `'float'`; the JSON datatype does not keep the two apart.
- TrainLabels.Labels: returns nothing whenever a label is unmapped. pandas gives a single `NaN` label when the column has no mapped label at all, and that case is not modelled.
- FewShot.ClassifyFewShot: does not relate the `Raised` case to `build_few_shot_prompt`. Any exception before the reply, including a failed prompt build, is the one `Raised(message)` outcome.
- `get_openai_client`'s memoisation and `get_bias_categories` are left out: the first is I/O, the second a plain lookup.
- FewShot.ClassifyFewShot: fixes `verbose=False`, the default used by both callers (few_shot_classifier.py:285, 341) and by the usage example at line 15. With `verbose=True`, `_print_report` runs inside the `try` and could raise (e.g. `.replace` on a non-string `primary_category`), turning a success into the "Classification failed" shape; that path is not modelled.
- The audit history page, charts, navigation and other presentation components hold no logic beyond markup.

## Findings

| source | as written | input that shows it | evidently intended | confidence | as-written member | corrected member |
|---|---|---|---|---|---|---|
| frontend/components/analyzers/RoBERTaAnalyzer.tsx:3 | imports `analyzeBiasLegacy`, which `frontend/services/api.ts` does not export, and calls it at line 67 | any non-blank text, e.g. sample "No Bias", then the classify button | call the exported `analyzeBias` and show its enriched result or its error message | not executed | RoBERTa.ClassifyAsWritten | RoBERTa.ClassifyCorrected |
