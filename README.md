# SpecEngine in Dafny

SpecEngine turns a free-text project description into a structured specification
document. This project models its core in Dafny:

- the typed field model (`ProjectType`, `REQUIRED_FIELDS`, `FieldCandidate`, `SpecDraft`);
- the heuristic extraction of `parse_prompt`: label patterns, keyword inference of the project
  type, title inference of the name, and the goal excerpt;
- `normalize_user_field_value`, the normalisation of an interactive answer;
- the pluggable provider protocol, in two forms:
  - the local provider;
  - the LLM-backed provider: its retry loop, its strict payload validation and its follow-up check;
- the interactive gap-resolution loop and `build_spec_draft`;
- the Markdown renderer and the structural validator;
- the exit-code decisions of `spec-engine generate`.

The properties are proved for every input. They cover the order and exactness of the missing
and ambiguous lists, which fields the loop asks about and in what order, the first-error
behaviour of payload validation, the retry bound, and the round trip render-then-validate.

Files, one module each (`quality.dfy` holds two):

| file | module | models |
|---|---|---|
| `wrappers.dfy` | `Wrappers` | `Option` and `Result` (a raised exception is an `Err`) |
| `json.dfy` | `JsonValues` | JSON values as `json.loads` produces them |
| `text.dfy` | `Text` | the `str` methods the source uses: `strip`, `split`, `lower`, `splitlines`, slicing |
| `models.dfy` | `Models` | `models.py`; `SpecDraft` is a class with the eight fields, `Draft` its value |
| `parser.dfy` | `Parser` | `parser.py` |
| `quality.dfy` | `SpecHeadings`, `Quality` | `quality.py` |
| `renderer.dfy` | `Renderer` | `renderer.py` |
| `providers.dfy` | `Providers` | `providers.py`; `OpenAIProvider` is a class over a scripted client |
| `engine.dfy` | `Engine` | `engine.py` |
| `cli.dfy` | `Cli` | the key check, the default model and the exit codes of `cli.py` |

Python's structural `SpecProvider` protocol becomes the datatype `Providers.Provider`:

- `Local`;
- `Injected(extract, followup, normalize)`, any other provider, given as three functions that
  return a `Result`.

The user's answers are a function `ask(n, q)`: the answer typed to the `n`-th question asked,
whose text is `q`.

Points where the code's behaviour is easy to misread:

- `_resolve_gaps_interactively` (`src/spec_engine/engine.py:44-62`) asks about every weak
  field. There is no cap on the number of follow-up questions, and the model has none either.
- Validation runs after `_call_json` has returned (`src/spec_engine/providers.py:78-79,109-110`),
  so a payload that fails validation is never retried. The model has the same order.
- `_validate_and_build` ends with `SpecDraft.from_dict`, which `models.py` does not define.
  The model builds the draft field by field from the `normalized` dictionary (`Providers.FromDict`).
- `_ensure_json_keyword` is idempotent on non-blank text only:
  - `""` becomes `"\nReturn valid json."`;
  - a second pass strips the leading line break.
  Both facts are proved (`Providers.EnsureJsonKeywordIdempotent`,
  `Providers.EnsureJsonKeywordBlankNotIdempotent`).

## Model

| member | source | states |
|---|---|---|
| Models.ProjectTypeValuesDistinct | src/spec_engine/models.py:8-15 | two different project types differ even after lower-casing, so a case-insensitive match picks at most one |
| Models.ProjectTypesEnumerated | src/spec_engine/models.py:8-15 | every project type occurs in the iteration order, and exactly once |
| Models.KeysDistinct | src/spec_engine/models.py:18-27 | different fields have different names, so a name identifies its field |
| Models.RequiredFieldsInOrder | src/spec_engine/models.py:18-27 | `REQUIRED_FIELDS` lists every field once, in declaration order, each name its field's key |
| Models.Select | src/spec_engine/models.py:58-72 | the fields of a list that meet a criterion, in list order: never more than the list |
| Models.SelectMember | src/spec_engine/models.py:58-72 | a field is selected exactly when it is in the list and its candidate meets the criterion |
| Models.SelectInOrder | src/spec_engine/models.py:58-72 | selecting from a list in field order keeps that order and repeats nothing |
| Models.With | src/spec_engine/models.py:37-46 | assigning one field of the draft sets that field and leaves the other seven unchanged |
| Models.AsDictEntries | src/spec_engine/models.py:48-56 | `as_dict` has exactly the eight required keys; each holds its field's value, confidence and rationale unchanged |
| Models.MissingField | src/spec_engine/models.py:58-64 | a field is missing exactly when its value strips to "" or its confidence is below `min_confidence` |
| Models.AmbiguousField | src/spec_engine/models.py:66-72 | a field is ambiguous exactly when its value is not blank and `min_confidence <= confidence < accepted_confidence` |
| Models.MissingInOrder | src/spec_engine/models.py:58-64 | `missing_fields` is in `REQUIRED_FIELDS` order, without duplicates |
| Models.AmbiguousInOrder | src/spec_engine/models.py:66-72 | `ambiguous_fields` is in `REQUIRED_FIELDS` order, without duplicates |
| Models.MissingAmbiguousDisjoint | src/spec_engine/models.py:58-72 | with the same `min_confidence`, no field is both missing and ambiguous |
| Models.AcceptedFieldUnlisted | src/spec_engine/models.py:58-72 | a non-blank field with confidence at least 0.8 is in neither list under the default thresholds |
| Models.DefaultDraftClassification | src/spec_engine/models.py:30-72 | a default draft is missing all eight fields, in order, and has no ambiguous field, whatever the thresholds |
| Models.SpecDraft.constructor | src/spec_engine/models.py:37-46 | `SpecDraft()` holds `("", 0.0, "")` in every field |
| Models.SpecDraft.FromDraft | src/spec_engine/models.py:37-46 | a draft built from eight candidates holds exactly them |
| Models.SpecDraft.Set | src/spec_engine/models.py:37-46 | `setattr` replaces the one field in place and keeps the rest |
| Models.SpecDraft.MissingFields | src/spec_engine/models.py:58-64 | the append loop returns the missing fields of the current draft, which the lemmas above characterise |
| Models.SpecDraft.AmbiguousFields | src/spec_engine/models.py:66-72 | the append loop returns the ambiguous fields of the current draft |
| Parser.LabelsWellFormed | src/spec_engine/parser.py:9-18 | every field has at least one label alternative, and each alternative is a well-formed sequence of words |
| Parser.CleanCaptureShape | src/spec_engine/parser.py:61 | a cleaned capture is the stripped group with its trailing full stops cut: it never starts with whitespace or ends with '.' |
| Parser.ExtractedIsFirstMatch | src/spec_engine/parser.py:57-62 | the extracted value is the cleaned group of the first line the pattern matches, or "" when no line matches |
| Parser.ExtractFromLines | src/spec_engine/parser.py:57-62 | the early-return loop returns that extracted value |
| Parser.LabelLineRoundTrip | src/spec_engine/parser.py:9-62 | a line made of a field's label, ": " and a stripped one-line value not ending in '.' extracts to exactly that value |
| Parser.EmptyLabelStopsSearch | src/spec_engine/parser.py:58-61 | a first labelled line whose value cleans to "" ends the search, so a later labelled line is ignored |
| Parser.InferProjectType | src/spec_engine/parser.py:65-79 | the loop over the keyword table returns the inferred type's text, or "" |
| Parser.FirstHitIsFirst | src/spec_engine/parser.py:76-78 | the first bucket in priority order that has a term in the lower-cased text decides |
| Parser.FirstHitNone | src/spec_engine/parser.py:76-79 | nothing is inferred exactly when no bucket has a term in the text |
| Parser.InferredTypeSpec | src/spec_engine/parser.py:65-79 | `_infer_project_type` returns the result of the highest-priority bucket hit in the lower-cased text |
| Parser.InferredTypeNone | src/spec_engine/parser.py:65-79 | `_infer_project_type` returns "" exactly when no bucket is hit |
| Parser.BuildSomethingBuckets | src/spec_engine/parser.py:67-70 | "build something" misses the full-stack and backend buckets and hits the frontend bucket |
| Parser.SubstringMatchQuirk | src/spec_engine/parser.py:70-77 | matching is by substring: "Build something" contains "ui" and is taken for a frontend UI |
| Parser.CapitalizeKeepsClass | src/spec_engine/parser.py:87 | capitalising a token keeps each of its characters a token character, never whitespace |
| Parser.InferProjectNameSpec | src/spec_engine/parser.py:82-87 | the inferred name is the first four or fewer tokens, capitalised and joined by single spaces; it splits back into them and is empty exactly when the text has no token character |
| Parser.MatchProjectType | src/spec_engine/parser.py:50-52 | the matched type is in the list and equals the text ignoring case; no match means no type equals it ignoring case |
| Parser.ValueCollapsed | src/spec_engine/models.py:8-15 | every project type's value is already whitespace-collapsed |
| Parser.NormalizeOtherField | src/spec_engine/parser.py:47-54 | for every field but `project_type` the answer is whitespace-collapsed, with confidence 1.0 when something is left and 0.0 exactly when the answer was blank |
| Parser.NormalizeProjectType | src/spec_engine/parser.py:48-53 | a case-insensitive match returns the canonical value at 1.0; otherwise the collapsed text is kept at 0.4, never rejected |
| Parser.NormalizeIdempotent | src/spec_engine/parser.py:47-54 | normalising a normalised answer again changes neither the text nor the confidence |
| Parser.NormalizeCanonicalType | src/spec_engine/parser.py:49-52 | a canonical project type value normalises to itself at 1.0 |
| Parser.StrippedNonBlank | src/spec_engine/parser.py:23 | the kept lines are stripped and non-empty |
| Parser.StrippedNonBlankEmpty | src/spec_engine/parser.py:23 | nothing is kept exactly when every line is blank |
| Parser.ParsePrompt | src/spec_engine/parser.py:21-44 | `parse_prompt` fills a fresh draft with the label pass and then the three fallbacks |
| Parser.ApplyLabels | src/spec_engine/parser.py:26-29 | the loop over the label patterns leaves the label pass's draft |
| Parser.ApplyTypeFallback | src/spec_engine/parser.py:31-34 | the `project_type` fallback applied in place |
| Parser.ApplyNameFallback | src/spec_engine/parser.py:36-39 | the `project_name` fallback applied in place |
| Parser.ApplyGoalFallback | src/spec_engine/parser.py:41-42 | the `primary_goal` fallback applied in place |
| Parser.LabelledField | src/spec_engine/parser.py:26-29 | after the label pass a visited field holds `(v, 0.95, "explicit_label")` when its extracted `v` is non-empty; every other field stays empty |
| Parser.FallbacksKeep | src/spec_engine/parser.py:31-42 | the fallbacks change only the field each fills, and only when its value is empty |
| Parser.LabelPassField | src/spec_engine/parser.py:22-29 | the candidate the label pass leaves for each field of a prompt |
| Parser.ParsedLabelled | src/spec_engine/parser.py:26-29 | a field with a non-empty labelled value ends with it at 0.95, "explicit_label" |
| Parser.ParsedNoFallback | src/spec_engine/parser.py:22-44 | the five fields without a fallback stay `("", 0.0, "")` unless labelled |
| Parser.ParsedTypeFallback | src/spec_engine/parser.py:31-34 | without a label, `project_type` is the inferred type at 0.7, "keyword_inference", or stays empty |
| Parser.ParsedNameFallback | src/spec_engine/parser.py:36-39 | without a label, `project_name` is the inferred title at 0.55, "title_inference", or stays empty when there is no token |
| Parser.ParsedGoalFallback | src/spec_engine/parser.py:41-42 | without a label, `primary_goal` is the first 220 characters of the joined lines at 0.4, or stays empty when nothing is joined |
| Parser.ParsedBlankPrompt | src/spec_engine/parser.py:22-44 | an empty or all-blank prompt parses to the default draft |
| Quality.HeadingsTrimmed | src/spec_engine/quality.py:5-19 | the thirteen expected headings each start with '#' and have no surrounding whitespace |
| Quality.FirstNonBlank | src/spec_engine/quality.py:26 | the index found has only blank lines before it and is a non-blank line or the end |
| Quality.ValidateSpecMarkdown | src/spec_engine/quality.py:22-42 | the three checks append to one list of errors: the validation result |
| Quality.FindFirstNonEmpty | src/spec_engine/quality.py:26 | the scan returns the first non-blank stripped line, or "" |
| Quality.CheckLines | src/spec_engine/quality.py:34-40 | the enumerate loop returns the per-line errors |
| Quality.ProseErrorsSpec | src/spec_engine/quality.py:34-40 | the per-line errors name exactly the offending lines, each once with its 1-based number and stripped text, in ascending line order |
| Quality.ValidationShape | src/spec_engine/quality.py:23-42 | the first-line error is present, once, exactly when the first non-blank stripped line is not the title (an empty document counts as ""); the heading error is present, once, exactly when the headings differ; the errors are the first-line error, then the heading error, then the per-line errors |
| Quality.ValidIff | src/spec_engine/quality.py:22-42 | a document passes exactly when it opens with the title, its headings are the expected ones, and no line offends |
| Quality.ErrorCountBound | src/spec_engine/quality.py:22-42 | there are at most two errors plus one per non-blank line |
| Quality.LoneMarkersFail | src/spec_engine/quality.py:34-40 | the lines "- " and "1. " are reported, because stripping removes the whitespace the pattern needs |
| Quality.HeadingsAppend | src/spec_engine/quality.py:30 | the headings of two documents joined are the headings of each, in order |
| Renderer.SplitToBullets | src/spec_engine/renderer.py:70-72 | never empty; every item is stripped and non-empty |
| Renderer.SplitToBulletsSpec | src/spec_engine/renderer.py:70-72 | no piece is kept exactly when the value has only separators and whitespace, and then the result is the default item; items hold no ',' or ';' and only characters of the value |
| Renderer.FunctionalRequirementsSpec | src/spec_engine/renderer.py:75-81 | four requirements, each a SHALL statement, quoting the inputs, outputs and goal in turn; the fourth is the same for every draft |
| Renderer.AcceptanceCriteriaSpec | src/spec_engine/renderer.py:100-105 | three criteria; the first starts with the backticked project name and quotes the outputs; the other two are fixed |
| Renderer.DefaultNonFunctionalRequirements | src/spec_engine/renderer.py:84-97 | the conditional appends return the non-functional requirements of the constraints |
| Renderer.NonFunctionalRequirementsShape | src/spec_engine/renderer.py:84-97 | one to four items: the default alone exactly when no concern is raised, otherwise the raised concerns' items in the fixed order |
| Renderer.NonFunctionalRequirementsMembers | src/spec_engine/renderer.py:86-94 | a concern's item is listed exactly when the lower-cased constraints contain one of its tokens |
| Renderer.RaisedUpToSpec | src/spec_engine/renderer.py:87-94 | the raised concerns come in ascending rank, each once, exactly those raised |
| Renderer.RenderedHeadings | src/spec_engine/renderer.py:26-66 | for every draft the heading lines are exactly `EXPECTED_HEADINGS`, in order |
| Renderer.LayoutValid | src/spec_engine/renderer.py:26-67 | lists whose items make allowed lines, laid out under the fixed headings, pass the validator |
| Renderer.RenderValid | src/spec_engine/renderer.py:6-67 | if no value holds a line break and inputs, outputs and constraints are not blank, the validator finds no error in the rendered document |
| Renderer.NumberedFour | src/spec_engine/renderer.py:46 | four items are numbered `1.` to `4.` |
| Renderer.RenderFunctionalBlock | src/spec_engine/renderer.py:45-46 | every document holds the four functional requirements numbered `1.` to `4.` under their heading |
| Renderer.RenderAssumptionsBlock | src/spec_engine/renderer.py:60-62 | every document holds the two fixed assumption bullets under their heading |
| Renderer.RenderAcceptanceBlock | src/spec_engine/renderer.py:64-67 | every document closes with the three acceptance criteria under their heading |
| Renderer.RenderEnd | src/spec_engine/renderer.py:67 | the document ends in exactly one line break |
| Renderer.RenderValuesOnly | src/spec_engine/renderer.py:7-14 | two drafts with the same eight values render alike, whatever their confidences and rationales |
| Providers.LocalFollowup | src/spec_engine/providers.py:35-46 | the local question table answers exactly the eight required names, each with a non-empty question; any other name raises |
| Providers.LocalFollowupAsks | src/spec_engine/providers.py:35-46 | the local provider asks a non-blank question about every field and never fails |
| Providers.NamedIffRequired | src/spec_engine/models.py:18-27 | a name is found among the required fields exactly when it is one of their keys |
| Providers.FieldNamed | src/spec_engine/models.py:18-27 | a found field is in the list and has that name; if none is found, no field of the list has it |
| Providers.EnsureJsonKeyword | src/spec_engine/providers.py:248-252 | the result mentions json in some letter case |
| Providers.EnsureJsonKeywordShape | src/spec_engine/providers.py:248-252 | stripped text that mentions json comes back as it is; any other text gets the reminder appended to its stripped form |
| Providers.EnsureJsonKeywordIdempotent | src/spec_engine/providers.py:248-252 | guarding a non-blank text twice is the same as guarding it once |
| Providers.EnsureJsonKeywordBlankNotIdempotent | src/spec_engine/providers.py:249-252 | on "" the guard is not idempotent: the second pass strips the reminder's leading line break |
| Providers.ProviderToClientConfig | src/spec_engine/providers.py:236-245 | a blank key is refused first; an accepted configuration carries the stripped key |
| Providers.ProviderNameDecides | src/spec_engine/providers.py:236-245 | with a key, "openrouter" (ignoring case and surrounding whitespace) gives the OpenRouter base URL, "openai" gives none, and any other name is refused |
| Providers.ResolveLlmClientConfig | src/spec_engine/providers.py:216-233 | an accepted configuration carries a stripped, non-empty key |
| Providers.EnvClientConfig | src/spec_engine/providers.py:220-233 | a key taken from the environment is stripped and non-empty |
| Providers.ExplicitConfigWins | src/spec_engine/providers.py:217-218 | an explicit provider name and key decide alone; the environment is not read |
| Providers.OpenRouterTakesPrecedence | src/spec_engine/providers.py:220-225 | without explicit arguments, a non-blank OpenRouter key is used with its base URL, whatever the OpenAI key |
| Providers.OpenAiKeyFallback | src/spec_engine/providers.py:227-229 | with a blank OpenRouter key the OpenAI key is used with no base URL |
| Providers.MissingKeysFail | src/spec_engine/providers.py:216-233 | without explicit arguments resolution fails exactly when both keys are blank |
| Providers.CheckEntry | src/spec_engine/providers.py:165-185 | an entry passes exactly when it is an object with a string value, a number confidence in [0, 1] and a string rationale, and then carries the stripped value and rationale; otherwise it fails with the message of the first violated check, in the order object, value, confidence type, confidence range, rationale |
| Providers.CheckedPrefix | src/spec_engine/providers.py:163-185 | a successful pass over the fields holds each one's checked candidate |
| Providers.FromDict | src/spec_engine/providers.py:186 | the draft holds each field's normalised candidate |
| Providers.ValidatedFields | src/spec_engine/providers.py:160-186 | a payload validates exactly when it is an object whose every entry passes; each field is then its entry's normalised candidate |
| Providers.ValidatedFirstError | src/spec_engine/providers.py:164-180 | a rejected object fails with the error of the first field, in order, whose entry fails; all fields before it pass |
| Providers.ExtraKeysIgnored | src/spec_engine/providers.py:164-165 | keys other than the eight field names do not affect validation |
| Providers.EmptyEntryDefaults | src/spec_engine/providers.py:168-170 | an empty entry takes the defaults "", 0.0 and "" |
| Providers.ValidatedDraftClean | src/spec_engine/providers.py:181-185 | a validated draft has stripped values and rationales and confidences in [0, 1] |
| Providers.ValidateAndBuild | src/spec_engine/providers.py:160-186 | `_validate_and_build` returns a fresh draft exactly when the payload validates, else raises the validation error |
| Providers.CheckFields | src/spec_engine/providers.py:163-185 | the loop fills `normalized` field by field and stops at the first violation |
| Providers.Attempts | src/spec_engine/providers.py:116-157 | the attempts made from a given one are at least one more and at most `max_retries + 1` in all |
| Providers.AttemptsStopAtFirstSuccess | src/spec_engine/providers.py:116-157 | every attempt before the last failed, the result is the last attempt's, and a failed last attempt is attempt `max_retries` |
| Providers.CallOutcomeSpec | src/spec_engine/providers.py:112-158 | at most `max_retries + 1` attempts; a payload is returned exactly when some attempt succeeds, namely the first successful one; otherwise every attempt failed and the error names the last attempt's |
| Providers.FollowupQuestion | src/spec_engine/providers.py:98-101 | an accepted question is stripped and non-empty |
| Providers.FollowupQuestionRefusesBlank | src/spec_engine/providers.py:98-100 | a follow-up payload is refused exactly when its question is blank |
| Providers.OpenAIProvider.constructor | src/spec_engine/providers.py:52-68 | a provider with its model, retry count, observer flag and client, with nothing sent yet |
| Providers.OpenAIProvider.CallJson | src/spec_engine/providers.py:112-158 | one call sends the json-guarded request once per attempt, sleeps only between attempts, and emits one observer event whose `retry_count` is the last attempt's index and whose `schema_valid` says whether it succeeded |
| Providers.OpenAIProvider.RunAttempts | src/spec_engine/providers.py:115-158 | the retry loop yields the number of attempts and the outcome that `CallOutcomeSpec` characterises |
| Providers.OpenAIProvider.ExtractRequirements | src/spec_engine/providers.py:70-79 | the prompt is sent as many times as the retry loop makes attempts, with one back-off sleep between attempts and one `parse_prompt` observer event; a failed call raises its error; a returned payload is validated, never retried |
| Providers.OpenAIProvider.GenerateFollowup | src/spec_engine/providers.py:81-101 | the serialised field and draft are sent once per attempt, with the sleeps between attempts and one `generate_followup` observer event; a failed call raises its error; otherwise the question is the payload's stripped question, and a blank one raises |
| Providers.OpenAIProvider.NormalizeSpec | src/spec_engine/providers.py:103-110 | the serialised draft is sent once per attempt of one call, with the sleeps between attempts and one `normalize` observer event; a failed call raises its error; a returned payload is validated, never retried |
| Engine.ResolveStep | src/spec_engine/engine.py:45-62 | one visit changes only the visited field, asks about it exactly when it needs an answer, and sets it only to a candidate made from an answer |
| Engine.StepBlankAnswer | src/spec_engine/engine.py:50-52 | a blank answer leaves the draft unchanged and the field counted as asked |
| Engine.StepAnswer | src/spec_engine/engine.py:53-62 | a non-blank answer replaces the visited field with the normalised answer at its confidence, "interactive_user_answer" |
| Engine.ResolvedOutside | src/spec_engine/engine.py:44-62 | a field outside the visited list is never changed |
| Engine.ResolvedCandidates | src/spec_engine/engine.py:44-62 | each field ends as it was or as a candidate made from an answer |
| Engine.ResolvedAsked | src/spec_engine/engine.py:44-49 | the loop asks only about fields that needed an answer at the start; with nothing raised, about exactly those, in field order, once each |
| Engine.ResolvedKeepsAccepted | src/spec_engine/engine.py:45-48 | a field non-blank at 0.8 or more is never asked about and never changed |
| Engine.LocalNeverFails | src/spec_engine/engine.py:44-62 | with the local provider the loop never raises |
| Engine.AnsweredFields | src/spec_engine/engine.py:50-62 | when every answer is non-blank, every field that needed one ends with a candidate made from an answer |
| Engine.AnswerCandidateShape | src/spec_engine/engine.py:53-62 | a candidate made from an answer has a non-blank value, "interactive_user_answer", and confidence 1.0, or 0.4 for a non-canonical project type |
| Engine.ResolveGapsInteractively | src/spec_engine/engine.py:43-62 | the loop updates the draft in place to the resolved draft and raises the provider's error if one occurs |
| Engine.ResolveFields | src/spec_engine/engine.py:44-62 | the loop over a list of fields, stopping at the first raised error |
| Engine.VisitField | src/spec_engine/engine.py:45-62 | one iteration of the loop, as `ResolveStep` describes |
| Engine.FailureStays | src/spec_engine/engine.py:44-62 | once an error is raised, the remaining fields are not visited |
| Engine.AllAnsweredOnlyTypeMissing | src/spec_engine/engine.py:53-62 | with every answer non-blank, only a `project_type` answered with a non-canonical text (confidence 0.4) can still be missing |
| Engine.KeyList | src/spec_engine/engine.py:20-21 | the lists of field names, one string per field |
| Engine.KeyListDecodes | src/spec_engine/engine.py:20-21 | every listed name decodes back to its field |
| Engine.ToJsonDictShape | src/spec_engine/engine.py:17-22 | `to_json_dict` has exactly the keys `fields`, `missing_fields` and `ambiguous_fields`: the draft's dictionary and both lists by name |
| Engine.BuildSpecDraft | src/spec_engine/engine.py:25-40 | `build_spec_draft` extracts, resolves gaps when interactive, normalises and classifies, propagating any raised error |
| Engine.BuiltClassifies | src/spec_engine/engine.py:36-40 | the result lists its own draft's missing and ambiguous fields under the default thresholds, in field order, and no field in both |
| Engine.LocalNonInteractive | src/spec_engine/engine.py:31-35 | with no provider and no interaction the result is the classified parse of the prompt |
| Engine.BlankPromptAllMissing | src/spec_engine/engine.py:31-40 | a blank prompt without interaction gives the default draft with all eight fields missing |
| Engine.LocalAllAnswered | src/spec_engine/engine.py:31-40 | locally, with every answer non-blank, the build succeeds and at most `project_type` is missing |
| Engine.SeededWeakFields | tests/test_engine.py:11-21 | test instance: in the fake provider's draft, holding only a name at 1.0 and a goal at 0.9, exactly the other six fields need an answer |
| Engine.SeededSelection | tests/test_engine.py:11-21 | test instance: those six fields, in field order, are the ones needing an answer (the general fact is `Engine.NameAndGoalAccepted`) |
| Engine.NameAndGoalAccepted | src/spec_engine/engine.py:44-48 | any draft whose only accepted fields are the name and the goal selects the other six in order |
| Engine.SeededFollowupOrder | tests/test_engine.py:32-57 | test instance: from that draft, whatever the provider and the answers, with nothing raised, follow-ups are asked for exactly the six weak fields, one at a time and in order (the general fact is `Engine.ResolvedAsked`) |
| Cli.IsValidApiKeySpec | src/spec_engine/cli.py:195-205 | a key is accepted exactly for "openrouter" and "openai" when the stripped key starts with "sk-"; a blank key never is |
| Cli.DefaultModelForProvider | src/spec_engine/cli.py:208-211 | "openai/gpt-4o-mini" exactly for "openrouter", "gpt-5-mini" for any other name |
| Cli.WithFinalBreakSpec | src/spec_engine/cli.py:73 | the written text ends in a line break, is the content itself when that already does, and adding the break twice changes nothing |
| Cli.GenerateFrom | src/spec_engine/cli.py:60-74 | a stopped run always stops with 1 |
| Cli.GenerateStops | src/spec_engine/cli.py:58-74 | the run stops exactly when it is not interactive and the build misses a field; a failed build is the only error |
| Cli.MarkdownWrittenAsRendered | src/spec_engine/cli.py:68-73 | a Markdown run that is not stopped writes the rendered document itself, adding no break |
| Cli.BlankPromptStops | src/spec_engine/cli.py:57-63 | a blank prompt built without questions stops with 1 |
| Cli.GeneratedExit | src/spec_engine/cli.py:45-74 | past the prompt and provider checks the exit code is 0 or 1, and it is 1 exactly for a non-interactive build with a missing field |
| Cli.PastPrompt | src/spec_engine/cli.py:39-54 | with a non-blank prompt the code is 3 when the LLM provider cannot be made, else `_generate_spec`'s outcome with the chosen provider |
| Cli.ExitTwoIffBlankPrompt | src/spec_engine/cli.py:34-37 | the exit code is 2 exactly when the prompt is missing or blank, before any provider is made |
| Cli.ExitThreeIffNoProvider | src/spec_engine/cli.py:39-43 | with a non-blank prompt the code is 3 exactly when the LLM is asked for and there is no API key or no `openai` package |
| Cli.ExitCodes | src/spec_engine/cli.py:33-74 | every exit code is 0, 1, 2 or 3; it is 1 exactly when the prompt is not blank, the provider could be made, and a non-interactive build succeeds with a field missing |
| Text.StripEmptyIffBlank | src/spec_engine/models.py:62 | `not s.strip()` holds exactly for blank strings |
| Text.StripIdempotent | src/spec_engine/parser.py:23 | stripping twice is stripping once |
| Text.CollapseShape | src/spec_engine/parser.py:48 | whitespace-collapsing gives a text with no outer and no doubled whitespace, empty exactly for blank input |
| Text.CollapseIdempotent | src/spec_engine/parser.py:48 | collapsing a collapsed text changes nothing |
| Text.WordsOfJoin | src/spec_engine/parser.py:48 | splitting words joined by single spaces gives the words back |
| Text.SplitUnlines | src/spec_engine/renderer.py:67 | splitting the text of break-free lines gives the lines back |
| Text.RStripChar | src/spec_engine/parser.py:61 | `rstrip(".")` drops exactly the trailing full stops |
| Text.Take | src/spec_engine/parser.py:42 | definition of the builtin: a slice `s[:n]` (the goal excerpt `joined[:220]`, the name's `words[:4]`) is the prefix of length `min(len(s), n)` |
| Text.Lower | src/spec_engine/parser.py:66 | definition of the builtin: lower-casing keeps the length and maps each character (it distributes over concatenation, `Text.LowerConcat`) |
| Text.SplitOn | src/spec_engine/renderer.py:71 | splitting gives at least one piece and no piece holds the separator |
| Text.Replace | src/spec_engine/renderer.py:71 | `replace(";", ",")` maps each ';' to ',' and keeps the rest |

## Left out

- Text handling is ASCII only. Whitespace is what Python's `isspace` accepts within ASCII: space,
  tab, '\n', '\r', vertical tab, form feed and the separators \x1c to \x1f. Non-ASCII whitespace
  (\x85, \xa0 and the Unicode spaces) is not modelled. `lower` and `capitalize` change ASCII
  letters only. Regular-expression `\s` and `\d` are ASCII too.
- `splitlines` splits on '\n' only. Python also splits on '\r', "\r\n", vertical tab, form feed
  and \x1c to \x1e. A text holding those breaks is therefore cut into fewer lines in the model.
- The label patterns are modelled as searches for their word alternatives, not as a general
  regular-expression engine. The same holds for the token pattern of `_infer_project_name` and
  the line pattern of the validator.
- `json.dumps` and `json.loads` are parameters:
  - `dumps` stands for serialisation;
  - each attempt of the scripted client says what decoding its response text gives.
  Formatting and indentation are not modelled.
- Float confidences are Dafny `real`. NaN, infinities and rounding are not modelled: a NaN
  confidence slipping past the range check cannot occur. `float(x)` on a string accepts
  decimal literals only.
- The OpenAI client, wall-clock time, latency, token usage and cost estimation are abstracted:
  - the client is a fixed function from the request number to the attempt's outcome;
  - sleeps are counted, not timed;
  - observer events keep only stage, model, retry count and schema validity.
  `_extract_usage_tokens` and `_estimate_cost_usd` are not part of this model.
- Providers.OpenAIProvider.constructor: `__post_init__`'s configuration lookup and dynamic import
  are not part of the constructor. `Cli.NewOpenAIProvider` models both as failures of provider
  construction, with the `installed` flag standing for the import.
- `OpenAIProvider` does not appear in the engine's loop as an object. The engine sees any
  non-local provider as `Injected`, three functions that return a `Result`, so the class's
  request log is not threaded through a build.
- `_default_ask` reads standard input and is not part of this model. Answers are the `ask`
  function.
- `main`, the interactive menus, `_run_guided_generate`, argparse, `getpass`, directory creation
  and file writes in `cli.py` are not part of this model. `main`'s mapping of any other
  exception to exit code 3 is not modelled either: an exception the build raises is an `Err`.
- `config_store.py` and `observability.py` (key storage and run logging, both file I/O) are not
  part of this model.
- `coerce_to_list_markdown` is imported by the quality tests but is not defined in `quality.py`,
  so it is not modelled.
- Some tests expect `_generate_spec` to call a provider's `generate_spec_markdown`. `cli.py`
  never calls it, so the model always renders with `render_spec_markdown`.
- Renderer.SplitToBulletsSpec: the default item is proved only one way (only separators and
  whitespace gives `["None specified."]`). The value "None specified." also gives that list.
- Parser.CleanCaptureShape: a cleaned value is not necessarily stripped at its end. `"a ."`
  cleans to `"a "`, because `rstrip(".")` runs after `strip()`.
