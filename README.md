# VoxRay AI core, modelled in Dafny

VoxRay AI is a chest X-ray assistant. A backend classifies an uploaded radiograph with an
ensemble of Keras models. It can add Monte Carlo dropout uncertainty and a comparison with
radiologist benchmarks. A chat and voice assistant explains the finding, grounded in a small
medical knowledge base. A browser front end drives uploads, an interactive viewer, a voice
panel and a scan history. An MLOps pipeline decides when to retrain and reports data drift
and fairness.

This project models that core. Its modules follow the source files, except that `backend/api/main.py`
is split by concern into `ChatContext`, `ChatPrompt`, `ChatApi`, `ChatEndpoint` and `SpeechText`, and
`backend/api/medical_context.py` into `ConditionRecords`, `MedicalContext` and `MedicalContextExamples`.
Shared helper modules sit beside them:

- `Wrappers` holds option and result values.
- `Text` holds ASCII string operations, word-boundary patterns and substitution scanners.
- `Numbers` holds decimal formatting and parsing on exact reals.
- `Stats` holds the column mean, the population variance and the arg-max.
- `Tables` holds ordered association lists.

The source's forms are kept where they differ:

- Objects whose state the source updates in place are classes with `modifies` clauses.
  This covers the ensemble, the model-server singleton, the vocabulary, the feature-flag
  registry, the ASGI send wrapper, the retraining trigger and every front-end component.
- Loops become methods with invariants, proved against a specification function.
- Everything else is functions and lemmas.
- Timers, animation frames and awaited requests become explicit method calls, each step
  once. Request outcomes, clock readings and file-system facts are parameters.

The older single-page panel (`voxray-ai/src/components/XRaySection.jsx:82-87`) has the same
severity rule as the dashboard's panel, word for word. `XRayPanel.SeverityOf` models both.

## Model

| member | source | states |
|---|---|---|
| Ensemble.Basename | backend/models/ensemble/ensemble_model.py:48 | the recorded name contains no '/', is a suffix of the path, and is the whole path or follows a '/' in it |
| Ensemble.Loaded | backend/models/ensemble/ensemble_model.py:26-53 | construction keeps at most one model per given path |
| Ensemble.LoadedNamesAligned | backend/models/ensemble/ensemble_model.py:26-48 | the kept models and their names stay index-aligned |
| Ensemble.LoadedMembership | backend/models/ensemble/ensemble_model.py:29-53 | a model is kept exactly when some path exists and loads to it; its output shape plays no part |
| Ensemble.SkippedPath | backend/models/ensemble/ensemble_model.py:30-53 | a missing path or one whose load raises adds neither a model nor a name |
| Ensemble.LoadMembers | backend/models/ensemble/ensemble_model.py:26-53 | the loading loop yields exactly the kept models and their basenames, in input order |
| Ensemble.Successful | backend/models/ensemble/ensemble_model.py:83-97 | at most one collected output per member |
| Ensemble.AllSucceed | backend/models/ensemble/ensemble_model.py:83-97 | when no member raises, the collected outputs are the members' outputs in member order |
| Ensemble.Summarise | backend/models/ensemble/ensemble_model.py:99-110 | no output is the "no successful predictions" error; otherwise it succeeds exactly when the outputs have one width, and then the individual predictions are the outputs, model_count is passed through, and mean and variance are the column-wise mean and population variance of the outputs |
| Ensemble.SingleMember | backend/models/ensemble/ensemble_model.py:102-108 | with one successful member the mean is its output and every variance is zero |
| Ensemble.MeanOfProbabilities | backend/models/ensemble/ensemble_model.py:102-108 | the mean of probability vectors is a probability vector and the variance is non-negative |
| Ensemble.MedicalEnsemble.Create | backend/models/ensemble/ensemble_model.py:19-58 | fails with the initialisation message exactly when nothing loaded; otherwise holds exactly the kept models and names |
| Ensemble.MedicalEnsemble.Predict | backend/models/ensemble/ensemble_model.py:64-110 | a tensor that is not a single-image 4-D batch is rejected before any member runs; otherwise the result summarises the members that did not raise, with model_count equal to the number of members |
| Ensemble.MedicalEnsemble.Init | backend/models/ensemble/ensemble_model.py:19-58 | the ensemble holds the given non-empty, index-aligned models and names; Create states which ones those are |
| McDropout.Clip | backend/models/uncertainty/mc_dropout.py:51-52 | the clipped probability lies in [1e-15, 1] and an in-range probability is kept, so every logarithm argument is positive |
| McDropout.UniformEntropy | backend/models/uncertainty/mc_dropout.py:50-53 | on equal entries 1/n the entropy of the mean is the sum of the equal terms -(1/n) ln(1/n) |
| McDropout.UniformEntropyValue | backend/models/uncertainty/mc_dropout.py:50-53 | the uniform distribution over n classes has entropy -ln(1/n) |
| McDropout.Samples | backend/models/uncertainty/mc_dropout.py:34-40 | when all passes succeed there is one sample per pass |
| McDropout.SamplesInOrder | backend/models/uncertainty/mc_dropout.py:36-59 | with no failing pass, sample k is the output of pass k |
| McDropout.FailedPassFails | backend/models/uncertainty/mc_dropout.py:36-40 | an exception in any pass makes the whole call fail |
| McDropout.Summary | backend/models/uncertainty/mc_dropout.py:42-60 | succeeds exactly when every pass has the first pass's width; then the mean is the column mean over passes, the variance their population variance, the entropy that of the clipped mean, and the samples the collected passes |
| McDropout.PredictWithUncertainty | backend/models/uncertainty/mc_dropout.py:6-60 | fewer than 2 iterations is rejected before the shape check, a bad shape next; otherwise exactly num_iterations passes run and their summary is returned, or the call fails if a pass raises |
| McDropout.DeterministicPasses | backend/models/uncertainty/mc_dropout.py:45-57 | agreeing passes give their common output as the mean and zero variance |
| McDropout.Entropy | backend/models/uncertainty/mc_dropout.py:50-53 | the entropy of the clipped mean; UniformEntropy and UniformEntropyValue state its value on a uniform mean |
| McDropout.Outcome | backend/models/uncertainty/mc_dropout.py:6-60 | what the call returns; PredictWithUncertainty states its cases and OutcomeSuccess its success condition |
| McDropout.OutcomeSuccess | backend/models/uncertainty/mc_dropout.py:6-60 | a success needs at least two iterations and a single-image batch, and keeps one sample per pass |
| ModelServer.Truncate | backend/serving/model_server.py:171-188 | the slice has length min(n, len) and keeps the leading entries |
| ModelServer.Zip | backend/serving/model_server.py:182 | the probabilities mapping pairs each label with its probability, in label order |
| ModelServer.BaseReport | backend/serving/model_server.py:164-191 | fails only on an empty probability vector; otherwise the diagnosis is the label at the first maximum of the first min(6, n) probabilities, the confidence is that maximum, the mapping covers exactly those labels, model_count is copied and variance and individual predictions are truncated |
| ModelServer.UncertaintyEntry | backend/serving/model_server.py:194-204 | the uncertainty entry is present exactly when the MC call succeeded, with its entropy and truncated mean and variance |
| ModelServer.ExistingCandidates | backend/serving/model_server.py:81-87 | the valid paths are exactly the candidate files that exist |
| ModelServer.Server.Initialize | backend/serving/model_server.py:53-104 | an ensemble is present exactly when the ML dependencies import and some existing candidate loads |
| ModelServer.Server.Predict | backend/serving/model_server.py:137-213 | no ensemble gives only the error entry; ensemble failures propagate; otherwise the base report plus the uncertainty entry only when requested and the MC call succeeds, and always the benchmark comparison of the diagnosis and confidence |
| ModelServer.Registry.Obtain | backend/serving/model_server.py:38-51 | every construction returns the same instance; initialisation runs only on the first |
| ModelServer.Server.constructor | backend/serving/model_server.py:38-42 | a new instance starts uninitialised, without an ensemble |
| ModelServer.Registry.constructor | backend/serving/model_server.py:26 | no instance exists before the first construction |
| ClinicalBenchmarks.Grade | backend/models/benchmarks/clinical_benchmarks.py:61-71 | meets exactly when confidence >= sensitivity, approaches exactly in [max(0, sensitivity - 0.1), sensitivity), below otherwise |
| ClinicalBenchmarks.CompareScore | backend/models/benchmarks/clinical_benchmarks.py:40-71 | an unmapped label gets the no-mapping message, and the no-data message never occurs |
| ClinicalBenchmarks.MappedLabelsHaveData | backend/models/benchmarks/clinical_benchmarks.py:11-59 | every mapped condition has a benchmark, so the no-data branch is unreachable |
| ClinicalBenchmarks.CompareMonotone | backend/models/benchmarks/clinical_benchmarks.py:61-71 | for one label, raising the confidence never lowers the verdict tier |
| ClinicalBenchmarks.PneumoniaBands | backend/models/benchmarks/clinical_benchmarks.py:12-71 | both pneumonia classes meet from 0.85, approach from 0.75 and are below otherwise |
| ClinicalBenchmarks.LungCancerBands | backend/models/benchmarks/clinical_benchmarks.py:17-71 | lung cancer meets from 0.78, approaches from 0.68 and is below otherwise |
| ClinicalBenchmarks.UnmappedLabels | backend/models/benchmarks/clinical_benchmarks.py:26-55 | lookup is exact: the fracture class, a bare condition name and the normal-lung class have no mapping |
| ClinicalBenchmarks.BenchmarkCaseInsensitive | backend/models/benchmarks/clinical_benchmarks.py:36-38 | the condition name is lower-cased before lookup; an unknown condition has no benchmark |
| ClinicalBenchmarks.GetConditionForLabel | backend/models/benchmarks/clinical_benchmarks.py:26-35 | exact lookup of the class label; MappedConditionsHaveBenchmarks and UnmappedLabels state which labels map |
| ClinicalBenchmarks.MappedConditionsHaveBenchmarks | backend/models/benchmarks/clinical_benchmarks.py:11-39 | exactly the listed class labels map to a condition, and every mapped condition has a benchmark |
| ClinicalBenchmarks.GetBenchmark | backend/models/benchmarks/clinical_benchmarks.py:36-39 | lookup of the lower-cased name; BenchmarkCaseInsensitive states that letter case does not matter and an unknown condition has none |
| ClinicalBenchmarks.Compare | backend/models/benchmarks/clinical_benchmarks.py:41-71 | the verdict tier; MappedLabelsHaveData states it is never "no data", CompareMonotone that it never drops as the confidence rises |
| ConditionRecords.FallbackDescription | backend/api/medical_context.py:203 | the fallback description quotes the raw label in single quotes |
| ConditionRecords.FallbackInfo | backend/api/medical_context.py:200-215 | the fallback record has severity level 1, an empty differential, no symptoms or treatment, and a description quoting the label |
| MedicalContext.KeywordTarget | backend/api/medical_context.py:178-194 | every keyword leads to a key of the table |
| MedicalContext.KeysDistinct | backend/api/medical_context.py:26-145 | the table keys are pairwise distinct |
| MedicalContext.CleanLabel | backend/api/medical_context.py:162-166 | a cleaned label contains no space and no hyphen |
| MedicalContext.FirstPartial | backend/api/medical_context.py:172-175 | the first key, in declaration order, that contains or is contained in the cleaned label; none exactly when no key does |
| MedicalContext.FirstKeyword | backend/api/medical_context.py:192-194 | the first keyword, in map order, contained in the cleaned label; none exactly when no keyword is |
| MedicalContext.Match | backend/api/medical_context.py:168-194 | an exact key wins; otherwise the first partially matching key; otherwise the key of the first contained keyword; no match exactly when all three stages fail |
| MedicalContext.Resolve | backend/api/medical_context.py:148-197 | a missing or empty label gives the fallback for "Unknown"; otherwise the cleaned label's stage result, or the fallback quoting the raw label exactly when no stage matches |
| MedicalContext.ResolveOfMatch | backend/api/medical_context.py:163-194 | a non-empty label whose cleaned form matches gets that match's record |
| MedicalContext.FallbackStage | backend/api/medical_context.py:196-197 | a non-empty label no stage matches gets the fallback quoting it |
| MedicalContext.ExactMatch | backend/api/medical_context.py:168-170 | every key matches its own entry |
| MedicalContext.PartialMatchAt | backend/api/medical_context.py:172-175 | a non-key matches the first key it contains or that contains it |
| MedicalContext.KeywordMatchAt | backend/api/medical_context.py:177-194 | failing the first two stages, a label matches the key of the first keyword it contains |
| MedicalContext.FallbackRecord | backend/api/medical_context.py:159-215 | a label resolved to the fallback gets severity level 1, no differential, no symptoms and a description quoting the label |
| MedicalContext.UpperOfKeyForm | backend/api/medical_context.py:163 | upper-casing leaves a key-form text unchanged |
| MedicalContext.CleanOfKeyForm | backend/api/medical_context.py:162-166 | a label whose upper-case form is in key form cleans to that upper-case form |
| MedicalContext.LeadingDigitsOf | backend/api/medical_context.py:164 | the digit run of digits followed by a non-digit is exactly the digits |
| MedicalContext.UpperOfClassLabel | backend/api/medical_context.py:163 | upper-casing a class label keeps its numeric prefix |
| MedicalContext.DropOfClassLabel | backend/api/medical_context.py:164 | a leading digits-underscore prefix is removed |
| MedicalContext.CleanOfClassLabel | backend/api/medical_context.py:162-166 | a class label "digits_NAME" cleans to the upper-case name |
| MedicalContext.CleanOfPaddedHyphenated | backend/api/medical_context.py:162-166 | " Lung-Cancer " cleans to the key LUNG_CANCER |
| MedicalContext.SeverityIndicator | backend/api/medical_context.py:237-244 | a missing level counts as 1 (review needed) and a level outside 0..3 is UNKNOWN |
| MedicalContext.SeverityIndicatorsDistinct | backend/api/medical_context.py:239-244 | the levels 0..3 get pairwise distinct indicators, all different from UNKNOWN |
| MedicalContext.DifferentialText | backend/api/medical_context.py:233-235 | an empty differential renders as N/A and a single item as itself |
| MedicalContext.LinesAtHead | backend/api/medical_context.py:246-250 | the section layout puts the title line first and the confidence and severity lines on lines of their own |
| MedicalContext.FormatContextForPrompt | backend/api/medical_context.py:218-285 | the section opens with the detected condition, and holds the confidence with one decimal and the severity indicator line, each on its own line |
| MedicalContext.KnowledgeBaseInfoListsKeys | backend/api/medical_context.py:288-295 | the summary counts the six conditions, lists the keys in order with version and date, and each listed key resolves to its own record |
| MedicalContext.KeyFormOfKey | backend/api/medical_context.py:26-145 | every table key is in key form |
| MedicalContext.EmptyCleanLabel | backend/api/medical_context.py:159-175 | a non-empty label that cleans to "" resolves to NORMAL_LUNG, because the empty text is part of the first key and the emptiness guard tests only the raw label |
| MedicalContext.EmptyInFirstKey | backend/api/medical_context.py:172-175 | "" is no key but partially matches the first key |
| MedicalContext.GetConditionInfo | backend/api/medical_context.py:148-197 | the record of the resolved key, or the fallback; FallbackRecord states what the fallback holds |
| MedicalContext.GetKnowledgeBaseInfo | backend/api/medical_context.py:288-295 | the knowledge-base summary; KnowledgeBaseInfoListsKeys states its count, its key order and that each key resolves to itself |
| MedicalContextExamples.ClassLabelOfKey | backend/api/medical_context.py:162-170 | a classifier label "digits_KEY" resolves to the record of KEY |
| MedicalContextExamples.ClassNameParts | backend/serving/model_server.py:29-36 | each class name is its two-digit position, an underscore and the key at the same position |
| MedicalContextExamples.Digit | backend/serving/model_server.py:29-36 | the position digit is a decimal digit |
| MedicalContextExamples.ClassNamesResolveInOrder | backend/api/medical_context.py:153-170 | every class the model server reports resolves to its own record, in the same order |
| MedicalContextExamples.PaddedHyphenatedLabel | backend/api/medical_context.py:162-170 | " Lung-Cancer " hits the LUNG_CANCER entry exactly |
| MedicalContextExamples.LungLabel | backend/api/medical_context.py:163 | "lung" cleans to "LUNG" |
| MedicalContextExamples.CancerLabel | backend/api/medical_context.py:163 | "cancer" cleans to "CANCER" |
| MedicalContextExamples.LungFragment | backend/api/medical_context.py:172-175 | the partial stage sends "lung" to NORMAL_LUNG, the first key containing it |
| MedicalContextExamples.CancerMissesEarlierKeys | backend/api/medical_context.py:173-174 | "CANCER" partially matches none of the first three keys |
| MedicalContextExamples.CancerFragment | backend/api/medical_context.py:172-175 | the partial stage sends "cancer" to LUNG_CANCER |
| MedicalContextExamples.HealthyLabel | backend/api/medical_context.py:163 | "healthy" cleans to "HEALTHY" |
| MedicalContextExamples.HealthyMatchesNoKey | backend/api/medical_context.py:169-175 | "HEALTHY" is no key and partially matches none |
| MedicalContextExamples.HealthyInNoKey | backend/api/medical_context.py:174 | no key contains "HEALTHY" |
| MedicalContextExamples.HealthyIsFirstKeyword | backend/api/medical_context.py:178-194 | HEALTHY is the first keyword "HEALTHY" contains |
| MedicalContextExamples.KeywordStage | backend/api/medical_context.py:177-194 | the keyword stage sends "healthy" to NORMAL_LUNG |
| MedicalContextExamples.XyzMatchesNothing | backend/api/medical_context.py:168-194 | "XYZ" fails the exact, partial and keyword stages |
| MedicalContextExamples.UnknownLabelFallsBack | backend/api/medical_context.py:196-197 | an unmatched label gets the fallback that quotes it as given |
| SpeechText.PercentAt | backend/api/main.py:500 | a percentage match found at i ends at a '%' right after a digit, with no earlier '%' in the match |
| SpeechText.SpellPlain | backend/api/main.py:500 | a stretch without '%' is kept as it is by the reference reading |
| SpeechText.SpellKept | backend/api/main.py:500 | a character other than '%' is kept by the reference reading |
| SpeechText.PercentFromSpells | backend/api/main.py:500 | from any position not at a number's '%', the substitution scan agrees with the reference reading |
| SpeechText.SpellMatch | backend/api/main.py:500 | a match is read as its number followed by " percent" |
| SpeechText.SpellSign | backend/api/main.py:500 | a '%' right after a digit is read as " percent" |
| SpeechText.PercentRuleSpellsPercents | backend/api/main.py:499-500 | the percentage rule replaces exactly the '%' signs that follow a digit by " percent" and keeps every other character |
| SpeechText.PercentRuleWithoutPercent | backend/api/main.py:500 | a text without '%' passes the percentage rule unchanged |
| SpeechText.DecimalPercent | backend/api/main.py:499-500 | "98.7%" is read as "98.7 percent" |
| SpeechText.StripOfCollapsed | backend/api/main.py:515 | stripping a collapsed text leaves single inner spaces and no padding |
| SpeechText.InfixTidy | backend/api/main.py:513-515 | a piece of a collapsed text that neither starts nor ends with a space is tidy |
| SpeechText.CollapsedClean | backend/api/main.py:515 | collapsing whitespace runs leaves single spaces |
| SpeechText.Cleanup | backend/api/main.py:512-515 | the result has no '_' or '*', no whitespace other than single spaces, and no leading or trailing space |
| SpeechText.Normalize | backend/api/main.py:491-516 | empty input gives ""; every result is tidy |
| SpeechText.MilligramsOnlyAsWord | backend/api/main.py:509-510 | "mg" is rewritten only as a whole word, never next to a letter or digit |
| SpeechText.WithRuleOnWithout | backend/api/main.py:506 | the w/ rule turns "w/o" into "witho" |
| SpeechText.EarlyRulesOnWithout | backend/api/main.py:503-505 | the Dr., vs. and approx. rules leave "w/o" alone |
| SpeechText.WithoutRuleOnWitho | backend/api/main.py:507 | the w/o rule finds nothing in "witho" |
| SpeechText.AbbreviationsOnWithout | backend/api/main.py:502-507 | the abbreviation rules turn "w/o" into "witho" |
| SpeechText.UnitsOnWitho | backend/api/main.py:510 | the unit rule leaves "witho" alone |
| SpeechText.PercentOnWithout | backend/api/main.py:500 | the percentage rule leaves "w/o" alone |
| SpeechText.CleanupOnWitho | backend/api/main.py:512-515 | clean-up leaves "witho" alone |
| SpeechText.CleanupOfPlain | backend/api/main.py:512-515 | a text without whitespace, '_' or '*' is already clean |
| SpeechText.WithoutReadsWitho | backend/api/main.py:503-510 | because the w/ rule runs first, "w/o" is normalised to "witho", never "without" |
| SpeechText.NormalizeSteps | backend/api/main.py:496-515 | a non-empty text is normalised through the percentage, abbreviation, unit and clean-up stages in that order |
| SpeechText.CapLength | backend/api/main.py:534-537 | texts up to 2000 chars are untouched; longer ones become the part before the last space of the first 2000 chars plus "...", at most 2003 chars, a prefix of the text, cut at 2000 when there is no space |
| SpeechText.SpeechInput | backend/api/main.py:521-537 | empty or whitespace text gives status 400; otherwise the capped normalised text, at most 2003 chars without '_' or '*', equal to the normalised text when that fits |
| ChatContext.NumberBeforePercent | backend/api/main.py:644 | a match of the number-percent pattern at i ends at a '%' and its number group is a valid float |
| ChatContext.NumberGroupParses | backend/api/main.py:644-646 | digits, optionally followed by a point and more digits, always parse as a float |
| ChatContext.SearchNumberPercent | backend/api/main.py:643-646 | the leftmost number group found always parses, so this branch never raises |
| ChatContext.ParseConfidence | backend/api/main.py:638-646 | the confidence is Python float() of the cleaned text after the last "Confidence:" or of the first number before a '%', so exponents and digit underscores are read; only the "Confidence:" branch can fail; a context with neither has confidence 0.0 |
| ChatContext.RawContext | backend/api/main.py:658-660 | the fallback text embeds the raw context |
| ChatContext.Grounded | backend/api/main.py:648-652 | the grounded section opens with the detected label and holds the confidence line and the severity line of the looked-up record |
| ChatContext.ContextFallbacks | backend/api/main.py:620-660 | no context or an empty one adds nothing; a context whose confidence text float() rejects embeds the raw context instead |
| ChatContext.FindCharAt | backend/api/main.py:631 | the first comma splits the context at its first occurrence |
| ChatContext.StandardLabel | backend/api/main.py:626-632 | the label of "Diagnosis: X, Confidence: N%" is X for any label without separators or padding |
| ChatContext.RemoveCharAppend | backend/api/main.py:641 | removing a character distributes over concatenation |
| ChatContext.FirstConfidenceAt | backend/api/main.py:639-640 | in the standard context the only "Confidence:" is the one written |
| ChatContext.AfterConfidence | backend/api/main.py:640 | the text after the last "Confidence:" is the written number and its '%' |
| ChatContext.DropPercent | backend/api/main.py:641 | removing '%' drops just the final sign |
| ChatContext.CleanNumberText | backend/api/main.py:641 | removing '%' and ')' and stripping leaves the number text |
| ChatContext.StandardConfidence | backend/api/main.py:626-642 | the confidence of a standard context is float() of the number the client wrote |
| ChatApi.LastItems | backend/api/main.py:704 | the window is the last six items, or all of them when there are fewer |
| ChatApi.Shorten | backend/api/main.py:708-709 | a history text grows by at most "...", is kept when within 500 chars, and is empty exactly when the original is |
| ChatApi.ShortenCut | backend/api/main.py:708-709 | a text over 500 chars becomes its first 500 chars followed by "...", 503 chars in all |
| ChatApi.RoleFor | backend/api/main.py:705 | only "assistant" keeps its role; every other role is sent as "user" |
| ChatApi.HistoryMessages | backend/api/main.py:704-712 | at most one entry per history turn |
| ChatApi.HistoryEntriesBounded | backend/api/main.py:704-712 | every history entry has a non-empty text of at most 503 chars and the role assistant or user |
| ChatApi.HistoryStep | backend/api/main.py:704-712 | each turn appends its entry, unless its text is empty |
| ChatApi.HistoryKeepsEveryNonEmptyTurn | backend/api/main.py:704-712 | with no empty text, every turn is kept in order with its role mapped and its text shortened |
| ChatApi.EmptyTurnSkipped | backend/api/main.py:711-712 | a turn with an empty text adds nothing |
| ChatApi.MessageChain | backend/api/main.py:698-715 | the chain has the system prompt first, the current message last as "user", at most six history entries between, each at most 503 chars |
| ChatApi.PredictImage | backend/api/main.py:227-252 | no model gives 503; a failure after that is a 500; success exactly when the argmax of a non-empty score names a class, giving that class and the first maximum as confidence |
| ChatPrompt.SystemPromptFrame | backend/api/main.py:662-696 | the system prompt is the fixed role text, then the medical context, then the fixed guidelines |
| ChatEndpoint.AppendHistory | backend/api/main.py:704-712 | the history loop appends exactly the entries of the window to the chain built so far |
| ChatEndpoint.BuildMessages | backend/api/main.py:698-715 | the chain the handler builds is the message chain |
| ChatEndpoint.Answer | backend/api/main.py:721-739 | the completion text is returned as is, a failure becomes a 500 with the "Error generating response" detail |
| ChatEndpoint.Chat | backend/api/main.py:597-739 | a missing or empty API key gives 500 before any other work; otherwise the answer for the grounded context of the request |
| ChatV2.LanguageFor | backend/api/routes/v2_chat.py:94-102 | a known code gets its own name and note; a missing or unknown code gets English with no note |
| ChatV2.LanguageInstruction | backend/api/routes/v2_chat.py:103-107 | the instruction is empty exactly when the language is "en"; otherwise it names the mapped language and its note |
| ChatV2.UnknownLanguageIsEnglish | backend/api/routes/v2_chat.py:102-107 | an unknown or missing code still yields "Respond in English." |
| ChatV2.KnownLanguage | backend/api/routes/v2_chat.py:94-102 | each listed code gets its own language name and note, Devanagari for "hi" |
| ChatV2.LanguageCodesDistinct | backend/api/routes/v2_chat.py:94-101 | the language codes are distinct |
| ChatV2.ReplyV2Shape | backend/api/routes/v2_chat.py:169-187 | a success is the stripped response text; a failure is a 500 with the "Failed to generate response" prefix |
| ChatV2.AnswerV2 | backend/api/routes/v2_chat.py:109-187 | the prompt gets the language instruction, the chain is built with the same history rules, and the answer is stripped |
| ChatV2.ChatV2 | backend/api/routes/v2_chat.py:28-187 | a missing or empty API key gives 500 before any other work; otherwise the v2 answer for the grounded context |
| ChatContext.ParseLabel | backend/api/main.py:626-632 | the label text of the context; StandardLabel states it is the written label of a standard context |
| ChatContext.MedicalContextText | backend/api/main.py:620-660 | the grounding text; ContextFallbacks states the empty and raw-context fallbacks, Grounded the looked-up section |
| ChatContext.ExponentConfidence | backend/api/main.py:639-642 | a standard context whose number is "1e2" has confidence 100.0, as float() reads it |
| ChatApi.Reply | backend/api/main.py:721-739 | the endpoint answer for a completion; ReplyShape states it |
| ChatApi.ReplyShape | backend/api/main.py:733-739 | the completion text is answered unchanged; a failure is a 500 whose detail is the prefix followed by the reason |
| ChatApi.ChatOutcome | backend/api/main.py:698-739 | the answer once the context is known; AnswerForChain states that the model gets one chain opening with the system prompt and closing with the user message, and that the answer is that completion, succeeding exactly when it does; SystemPromptFrame states that the system prompt holds the medical context |
| ChatApi.AnswerForChain | backend/api/main.py:698-739 | for any system prompt, the chain opens with it and closes with the user message; the answer succeeds exactly when the completion does, and is then its text unchanged |
| ChatPrompt.SystemPrompt | backend/api/main.py:662-696 | the system prompt; SystemPromptFrame states its three parts |
| ChatV2.SystemPromptV2 | backend/api/routes/v2_chat.py:110-144 | the v2 system prompt is the first version's prompt followed by the language instruction line; AppendToPrompt with SystemPromptFrame states that it starts with that prompt, holds the medical context and ends with the instruction line |
| ChatV2.AppendToPrompt | backend/api/routes/v2_chat.py:103-144 | a prompt made of a head, the context and a tail, with a line appended, still starts with the prompt, still holds the context and ends with that line |
| ChatV2.ReplyV2 | backend/api/routes/v2_chat.py:169-187 | the v2 answer for a completion; ReplyV2Shape states it |
| ChatV2.ChatOutcomeV2 | backend/api/routes/v2_chat.py:109-187 | the v2 answer once the context is known; ReplyToChain states that the chain opens with the prompt for the request's language and closes with the user message, and that the answer is the stripped completion exactly when it succeeds; AppendToPrompt states what that prompt holds |
| ChatV2.ReplyToChain | backend/api/routes/v2_chat.py:147-187 | for any prompt, the chain opens with it and closes with the user message, and the answer is the stripped completion exactly when it succeeds |
| Numbers.PyFloatOfDecimal | backend/api/main.py:642 | float() of a text without underscore or exponent mark is the plain signed decimal reading |
| Numbers.PyFloatIgnoresUnderscores | backend/api/main.py:642 | underscores placed between digits do not change what float() reads |
| Numbers.PyFloatExponent | backend/api/main.py:642 | float() of a decimal mantissa, "e" and digits is the mantissa scaled by that power of ten |
| Numbers.OneEtwo | backend/api/main.py:642 | float() reads "1e2" as 100.0 |
| MedicalVocabulary.WordPattern | backend/voice/medical_vocabulary.py:43 | the pattern is the phrase between word boundaries, ignoring case |
| MedicalVocabulary.Vocabulary.PostProcess | backend/voice/medical_vocabulary.py:22-44 | None or "" gives ""; otherwise every entry applied in table order, each to the previous output |
| MedicalVocabulary.NoPhraseUnchanged | backend/voice/medical_vocabulary.py:37 | a text in which no phrase of the table occurs comes back unchanged |
| MedicalVocabulary.OnlyWholeWords | backend/voice/medical_vocabulary.py:37-43 | a phrase found only inside longer words leaves the text as it was, although the substring test lets it through |
| MedicalVocabulary.ApplyStep | backend/voice/medical_vocabulary.py:27-43 | applying one more entry applies it to the output of the earlier ones |
| MedicalVocabulary.Skip | backend/voice/medical_vocabulary.py:37 | an entry whose phrase is absent from the lower-cased text leaves it alone |
| MedicalVocabulary.UnchangedRange | backend/voice/medical_vocabulary.py:27-43 | a run of entries that each leave a text alone keeps it |
| MedicalVocabulary.AmmoniaReplaced | backend/voice/medical_vocabulary.py:7-43 | the ammonia entry turns "ammonia" into "pneumonia" |
| MedicalVocabulary.IdentityEntryLowersCase | backend/voice/medical_vocabulary.py:12-43 | a match is replaced by the lower-case correction, so the identity entry for "nodule" rewrites "Nodule" |
| MedicalVocabulary.Mismatch | backend/voice/medical_vocabulary.py:37 | one differing character rules out an occurrence |
| MedicalVocabulary.NoMisspellingInPneumonia | backend/voice/medical_vocabulary.py:8-37 | "pneumonia" contains neither misspelling the table corrects |
| MedicalVocabulary.PneumoniaKept | backend/voice/medical_vocabulary.py:8-43 | every entry after "ammonia" leaves "pneumonia" unchanged |
| MedicalVocabulary.AmmoniaCorrected | backend/voice/medical_vocabulary.py:4-44 | the default table corrects the transcript "ammonia" to "pneumonia" |
| MedicalVocabulary.CustomTableReplacesDefault | backend/voice/medical_vocabulary.py:19-20 | under a custom table without it, "ammonia" survives |
| MedicalVocabulary.Vocabulary.constructor | backend/voice/medical_vocabulary.py:19-20 | a given non-empty table is used as it is; a missing or empty one means the built-in table |
| MedicalVocabulary.DefaultCorrections | backend/voice/medical_vocabulary.py:4-15 | the default table; AmmoniaCorrected and PneumoniaKept state what it does to a transcript |
| MedicalVocabulary.Correct | backend/voice/medical_vocabulary.py:37-43 | one entry applied; OnlyWholeWords, Skip, AmmoniaReplaced and IdentityEntryLowersCase state its whole-word, case-blind replacement |
| MedicalVocabulary.ApplyAll | backend/voice/medical_vocabulary.py:27-43 | the entries applied in table order; ApplyStep, UnchangedRange and NoPhraseUnchanged state how they compose |
| Multilingual.GetLanguageConfig | backend/voice/multilingual.py:47-49 | an entry exactly for a supported code, and it is that code's entry |
| Multilingual.ValidateLanguageCode | backend/voice/multilingual.py:57-59 | true exactly when the code is a key of the language table |
| Multilingual.DisplayNames | backend/voice/multilingual.py:52-54 | the same keys in the same order, each mapped to its display name |
| Multilingual.HindiNotSupported | backend/voice/multilingual.py:19-59 | "hi" is not supported and has no configuration |
| Multilingual.ConfigLanguageIsKey | backend/voice/multilingual.py:22-44 | each configuration names its own key as its language |
| Multilingual.SupportedLanguagesShape | backend/voice/multilingual.py:52-59 | the supported languages have exactly the table's keys, each with its display name |
| Multilingual.EverySupportedLanguageMapped | backend/voice/multilingual.py:22-92 | every supported language has an expected script and a recogniser name |
| Multilingual.ScriptKeysDistinct | backend/voice/multilingual.py:65-77 | the script map lists each code once |
| Multilingual.CjkScriptAgnostic | backend/voice/multilingual.py:74-76 | Chinese, Japanese and Korean skip the script check |
| Multilingual.IncompatibleScripts | backend/voice/multilingual.py:98-103 | Urdu's voice rejects Devanagari and Latin; the CJK voices reject Arabic and Devanagari but never Latin |
| Multilingual.Langs | backend/voice/multilingual.py:22-44 | the language table; ConfigLanguageIsKey, HindiNotSupported and SupportedLanguagesShape state its contents |
| Multilingual.GetSupportedLanguages | backend/voice/multilingual.py:52-54 | the code-to-display-name listing; SupportedLanguagesShape states it has exactly the table's keys and names |
| ScriptDetection.Dominant | tests/test_multilingual_fix.py:37 | the first of devanagari, arabic, latin holding the largest count: Arabic must beat Devanagari strictly, Latin must beat both strictly |
| ScriptDetection.DetectScript | tests/test_multilingual_fix.py:27-38 | the one-pass count equals the tally of the text, and the result is the dominant bucket when it is non-empty, else "unknown" |
| ScriptDetection.CountedOnce | tests/test_multilingual_fix.py:29-36 | each character lands in at most one bucket, so the buckets hold exactly the counted characters |
| ScriptDetection.UnknownIffNothingCounted | tests/test_multilingual_fix.py:37-38 | the verdict is "unknown" exactly when no character was counted |
| ScriptDetection.EmptyIsUnknown | tests/test_multilingual_fix.py:38-78 | the empty text is "unknown" |
| ScriptDetection.NoDevanagariCount | tests/test_multilingual_fix.py:31-32 | without a Devanagari-named character the Devanagari count stays zero |
| ScriptDetection.NeverDevanagariWithout | tests/test_multilingual_fix.py:27-74 | Urdu text, or any text without a Devanagari-named character, is never classified "devanagari" |
| ScriptDetection.OnlyDevanagariCounted | tests/test_multilingual_fix.py:29-36 | Devanagari letters mixed with uncounted characters leave the other counts at zero and the Devanagari count positive |
| ScriptDetection.DevanagariWithDigits | tests/test_multilingual_fix.py:27-83 | Devanagari text with digits and punctuation is still "devanagari" |
| ScriptDetection.DevanagariOnlyVerdict | tests/test_multilingual_fix.py:37-38 | a positive Devanagari count alone gives "devanagari" |
| ScriptDetection.TiesBreakInKeyOrder | tests/test_multilingual_fix.py:28-37 | ties go to the earlier key: devanagari, then arabic |
| ScriptCheck.AnyInBlock | tests/test_multilingual_voice_e2e.py:32-33 | true exactly when some character lies in the block |
| ScriptCheck.CheckScript | tests/test_multilingual_voice_e2e.py:30-41 | any script type other than devanagari passes; for devanagari the text passes exactly when it is empty or has a Devanagari-block character and no Arabic-block one |
| ScriptCheck.ArabicFails | tests/test_multilingual_voice_e2e.py:33-36 | a single Arabic-block character fails the Hindi check, even beside Devanagari |
| ScriptDetection.Tally | tests/test_multilingual_fix.py:27-36 | the per-script counts; CountedOnce, NoDevanagariCount and OnlyDevanagariCounted state them |
| ScriptDetection.Verdict | tests/test_multilingual_fix.py:37-38 | the dominant script; UnknownIffNothingCounted, DevanagariOnlyVerdict and TiesBreakInKeyOrder state it |
| FeatureFlags.Flags.constructor | backend/core/feature_flags.py:47-49 | construction loads every flag from the environment |
| FeatureFlags.Flags.Reload | backend/core/feature_flags.py:51-62 | after a reload every member is in the table with the value its FF_ variable gives |
| FeatureFlags.Flags.SetEach | backend/core/feature_flags.py:56-61 | the loop leaves exactly the listed members in the table, each with its environment value |
| FeatureFlags.Flags.IsEnabled | backend/core/feature_flags.py:64-68 | the stored value, or false for a member not in the table |
| FeatureFlags.Flags.GetAllFlags | backend/core/feature_flags.py:70-71 | every stored flag appears under its value string with its value, and every key names a stored flag |
| FeatureFlags.RequireFeature | backend/core/feature_flags.py:86-108 | a gated endpoint whose flag is off answers 503 FEATURE_NOT_ENABLED naming the flag; otherwise the handler's own result |
| FeatureFlags.ValuesInvertible | backend/core/feature_flags.py:10-38 | each value string names exactly its member |
| FeatureFlags.ValueInverse | backend/core/feature_flags.py:10-38 | the member looked up by its own value is itself |
| FeatureFlags.EnsembleValuesInverse | backend/core/feature_flags.py:17-18 | the first two values name their members |
| FeatureFlags.ValidationValuesInverse | backend/core/feature_flags.py:19-20 | the validation and benchmarking values name their members |
| FeatureFlags.DicomValuesInverse | backend/core/feature_flags.py:23-24 | the DICOM and FHIR values name their members |
| FeatureFlags.AuditValuesInverse | backend/core/feature_flags.py:25-26 | the audit and anonymisation values name their members |
| FeatureFlags.WakeWordValuesInverse | backend/core/feature_flags.py:29-30 | the wake-word and multilingual values name their members |
| FeatureFlags.VocabularyValuesInverse | backend/core/feature_flags.py:31-32 | the vocabulary and noise values name their members |
| FeatureFlags.HeatmapValuesInverse | backend/core/feature_flags.py:35-36 | the heatmap and worklist values name their members |
| FeatureFlags.BatchValuesInverse | backend/core/feature_flags.py:37-38 | the batch and PWA values name their members |
| FeatureFlags.FalseIsNormal | backend/core/feature_flags.py:59 | the default "false" survives stripping and lower-casing |
| FeatureFlags.PaddedYesNormal | backend/core/feature_flags.py:59 | " Yes " normalises to "yes" |
| FeatureFlags.UnsetIsOff | backend/core/feature_flags.py:59-60 | an unset variable leaves the flag off |
| FeatureFlags.PaddedYesIsOn | backend/core/feature_flags.py:59-60 | surrounding whitespace and letter case do not matter: " Yes " turns a flag on |
| FeatureFlags.EveryFlagListed | backend/core/feature_flags.py:57 | the iteration order lists every member |
| FeatureFlags.EnsembleKey | backend/core/feature_flags.py:58 | the ensemble flag is read from FF_ENSEMBLE_MODEL |
| FeatureFlags.CheckFlag | backend/core/feature_flags.py:82-83 | the flag on the process-wide instance; CheckFlagFromEnvironment and RequireFeature state what it decides |
| FeatureFlags.CheckFlagFromEnvironment | backend/core/feature_flags.py:47-83 | on an instance loaded from an environment, a flag is on exactly when its FF_ variable, stripped and lower-cased, is a truthy word |
| Versioning.VersionHeaders | backend/api/versioning.py:27-38 | a /v1/ path gets the version 1.0, deprecation-date and warning-299 headers in that order; otherwise a /v2/ path gets version 2.0 only; any other path gets none |
| Versioning.AsgiMessage.constructor | backend/api/versioning.py:23-24 | a message holds its type and optional header list |
| Versioning.Downstream.constructor | backend/api/versioning.py:17 | the server has received nothing yet |
| Versioning.Downstream.Send | backend/api/versioning.py:39 | forwarding appends the message to what the server received |
| Versioning.SendWrapper | backend/api/versioning.py:23-39 | a response start gets its header list, created empty when missing, extended in place with the version headers; other messages keep theirs; the message is then forwarded |
| Versioning.Call | backend/api/versioning.py:17-41 | every message reaches the server in order; a non-HTTP scope changes nothing; in an HTTP scope each message object ends up rewritten once per time it was sent, so a start message sent twice carries the version headers twice |
| Versioning.UnversionedPaths | backend/api/versioning.py:28-48 | a bare "/v1" and the root routes get no version headers |
| Versioning.OneVersionHeader | backend/api/versioning.py:25-38 | a versioned response keeps its existing headers first and gains the version header right after them |
| Versioning.RewrittenTimesShape | backend/api/versioning.py:23-39 | a non-start message rewritten any number of times keeps its headers; a start message rewritten n > 0 times gets the version headers appended n times |
| Versioning.SentTwiceHeadersTwice | backend/api/versioning.py:23-39 | a start message on a /v1/ path sent twice grows by the three version headers twice, six in all |
| Versioning.SentOnce | backend/api/versioning.py:23-39 | a message sent once is rewritten once |
| Anonymizer.Show | backend/security/anonymizer.py:15 | a string is shown as itself, None as "None", an integer as a non-empty decimal |
| Anonymizer.DicomAnonymizer.constructor | backend/security/anonymizer.py:7-8 | a non-empty salt argument wins; otherwise ANONYMIZATION_SALT, or the default salt when unset |
| Anonymizer.DicomAnonymizer.HashIdentifier | backend/security/anonymizer.py:10-11 | the hash is the first 16 hex characters of the digest of salt followed by value |
| Anonymizer.DicomAnonymizer.AnonymizeMetadata | backend/security/anonymizer.py:13-19 | the identifier never survives; a non-empty identifier (after str()) adds its hash; an empty one leaves any existing hash entry alone; every other entry is copied unchanged and nothing else is added |
| Fhir.DiagnosisToSnomed | backend/clinical/fhir/fhir_client.py:10-29 | a coding exactly for the pneumonia, lung-cancer and fracture labels, always in the SNOMED CT system |
| Fhir.ToDiagnosticReport | backend/clinical/fhir/fhir_client.py:31-43 | a final DiagnosticReport with the patient as subject and the given conclusion; conclusionCode is present exactly for a mapped label and holds its single coding |
| Fhir.NormalClassesUncoded | backend/clinical/fhir/fhir_client.py:12-42 | the three normal classes get no coded conclusion |
| RetrainingTrigger.Trigger.constructor | pipeline/validation/retraining_trigger.py:24-33 | the trigger keeps the parsed configuration |
| RetrainingTrigger.Trigger.Open | pipeline/validation/retraining_trigger.py:24-29 | a missing thresholds file fails with "Thresholds file not found at " and the path; an existing one yields a fresh trigger holding its configuration |
| RetrainingTrigger.Trigger.Evaluate | pipeline/validation/retraining_trigger.py:38-87 | the decision equals Decision: the reasons of the accuracy, drift and false-positive checks in that order, "No triggers activated" when there are none, retraining exactly on an accuracy or drift breach or a false-positive breach under "trigger_retrain" |
| RetrainingTrigger.RetrainHasReason | pipeline/validation/retraining_trigger.py:84-87 | the details are always the metrics; retraining is only requested with at least one reason; no reason gives "No triggers activated" |
| RetrainingTrigger.ThresholdsAreStrict | pipeline/validation/retraining_trigger.py:51-70 | a metric exactly at its threshold triggers nothing |
| RetrainingTrigger.AlertOnlyReports | pipeline/validation/retraining_trigger.py:67-83 | a false-positive breach alone under an action other than "trigger_retrain" is reported, with the action in parentheses, without requesting retraining |
| RetrainingTrigger.AccuracyBreachFirst | pipeline/validation/retraining_trigger.py:48-87 | an accuracy breach always requests retraining and its message opens the reason |
| RetrainingTrigger.FpTriggerRetrains | pipeline/validation/retraining_trigger.py:75-82 | a false-positive breach under "trigger_retrain" requests retraining |
| RetrainingTrigger.AccuracyExampleMessage | pipeline/validation/retraining_trigger.py:54 | accuracy 0.80 against 0.85 reads "accuracy 0.8000 < 0.85" |
| RetrainingTrigger.LowAccuracyExample | pipeline/validation/retraining_trigger.py:38-87 | accuracy 0.80 under a 0.85 minimum, with drift and false-positive rate inside their limits, requests retraining for exactly "accuracy 0.8000 < 0.85" |
| RetrainingTrigger.Decision | pipeline/validation/retraining_trigger.py:38-87 | the decision; RetrainHasReason, ThresholdsAreStrict, AlertOnlyReports, AccuracyBreachFirst and FpTriggerRetrains state it |
| DriftDetection.StatusName | pipeline/drift_detection/data_validator.py:14 | only the Ok status is written as "ok" |
| DriftDetection.DetectDrift | pipeline/drift_detection/data_validator.py:29-102 | an error exactly for a missing schema or data file, a schema parse failure or a failing validation of TFRecord data; skipped exactly when the library is missing or the readable schema meets a non-TFRecord path; a drift score exactly when validation ran and succeeded, and then the anomaly report |
| DriftDetection.ExitCode | pipeline/drift_detection/data_validator.py:139-142 | the exit status is 0 or 1, and 1 exactly for "error" and "drift_detected" |
| DriftDetection.ScoreIsAnomalyCount | pipeline/drift_detection/data_validator.py:77-98 | the score is the anomaly count, the status is "ok" exactly with no anomaly and "drift_detected" otherwise, and the details carry the anomaly descriptions |
| DriftDetection.ExitOnDrift | pipeline/drift_detection/data_validator.py:77-86 | after a successful validation the command exits with failure exactly when an anomaly was found |
| DriftDetection.MissingSchemaFirst | pipeline/drift_detection/data_validator.py:33-36 | a missing schema is reported first, with its path, and the command fails |
| DriftDetection.ParseErrorBeforeFormat | pipeline/drift_detection/data_validator.py:55-68 | the schema is parsed before the format test, so a parse failure is an error whatever the data format |
| DriftDetection.UnsupportedFormatSkipped | pipeline/drift_detection/data_validator.py:62-68 | a path without a TFRecord extension is skipped with a "non-TFRecord" message and exit status 0 |
| DriftDetection.NoLibrarySkips | pipeline/drift_detection/data_validator.py:43-53 | without the validation library the run is skipped, never failed |
| DriftDetection.CsvNotTfRecord | pipeline/tests/test_drift_detector.py:35-48 | "data.csv" does not count as a TFRecord path |
| DriftDetection.TwoAnomalies | pipeline/tests/test_drift_detector.py:76-98 | two anomalies give "drift_detected" and a score of 2.0 |
| DriftDetection.AnomalyReport | pipeline/drift_detection/data_validator.py:77-98 | the report of the anomalies; ScoreIsAnomalyCount states its score, status and details |
| Fairness.ComputeFairness | pipeline/validation/fairness_indicators.py:18-51 | skipped with the no-demographics message and no metrics exactly when the demographics are missing or empty; otherwise ok with the placeholder metrics |
| Fairness.IndependentOfLabels | pipeline/validation/fairness_indicators.py:18-51 | the report never depends on the labels or the predictions |
| Fairness.StubValues | pipeline/validation/fairness_indicators.py:42-51 | demographics with a gender column give status ok, a demographic parity difference of 0.05 and an equalized odds difference of 0.03 |
| Fairness.StubMetrics | pipeline/validation/fairness_indicators.py:42-51 | the placeholder metrics; StubValues states them |
| VoiceSession.Truncate | frontend/src/components/VoiceSection.jsx:460-463 | a text of at most 500 characters is kept; a longer one becomes its first 500 characters followed by "..." |
| VoiceSession.NonErrors | frontend/src/components/VoiceSection.jsx:458 | the kept messages are drawn from the input, none is an error, and a conversation without errors is kept whole |
| VoiceSession.LastN | frontend/src/components/VoiceSection.jsx:459 | the last min(n, len) elements, as a suffix of the input |
| VoiceSession.HistoryPayload | frontend/src/components/VoiceSection.jsx:457-464 | at most six entries: the last six non-error messages, in order, each with its role and truncated text |
| VoiceSession.HistoryBounds | frontend/src/components/VoiceSection.jsx:457-464 | no error message reaches the history and no text in it exceeds 503 characters |
| VoiceSession.ShortHistoryWhole | frontend/src/components/VoiceSection.jsx:457-464 | up to six short non-error messages are sent whole and unchanged |
| VoiceSession.ErrorText | frontend/src/components/VoiceSection.jsx:507-516 | 401 reads as an expired session, 503 as an unavailable server, a network failure as a connection error, anything else as the generic message, in that priority |
| VoiceSession.ContextOf | frontend/src/components/VoiceSection.jsx:452-454 | the context is present exactly when there is a diagnosis, and then opens with "Diagnosis: " and its label |
| VoiceSession.TickTime | frontend/src/components/VoiceSection.jsx:361-370 | a tick adds a second below 60 and leaves the time at 60 otherwise |
| VoiceSession.TimeAfterTicks | frontend/src/components/VoiceSection.jsx:359-375 | after n ticks the timer shows min(n, 60) |
| VoiceSession.RingProgress | frontend/src/components/VoiceSection.jsx:52 | the ring length lies in [0, 289], is t/60 of 289 below the limit and 289 from it |
| VoiceSession.RingMonotone | frontend/src/components/VoiceSection.jsx:52 | the ring never shrinks as the time grows |
| VoiceSession.StrokeColor | frontend/src/components/VoiceSection.jsx:54-58 | red exactly from 50 seconds, amber exactly from 30 to 49, the gradient before |
| VoiceSession.VadStep | frontend/src/components/VoiceSection.jsx:659-682 | a tick in the first 500 ms changes nothing; a loud tick clears the silence timer; a quiet one starts it if unset and stops exactly when 1500 ms of silence have passed |
| VoiceSession.SilenceStops | frontend/src/components/VoiceSection.jsx:645-682 | quiet ticks after a silence start at s stop the recording exactly when one of them comes 1500 ms after s |
| VoiceSession.LoudClears | frontend/src/components/VoiceSection.jsx:679-682 | a loud tick past the first half second clears the silence timer and never stops |
| VoiceSession.Panel.constructor | frontend/src/components/VoiceSection.jsx:316-338 | the panel starts idle, with no messages, nothing in flight, zero recording time, not recording, no detector, no timers and nothing sent |
| VoiceSession.Panel.SetStatus | frontend/src/components/VoiceSection.jsx:359-376 | only the status and the recording time change, and the time is reset whenever the new status is not listening |
| VoiceSession.Panel.BeginQuery | frontend/src/components/VoiceSection.jsx:416-472 | a query in flight changes nothing; offline only appends the offline error; otherwise the guard is set, the status is processing, the time reset, the user turn appended unless it repeats the last one within two seconds, and the request carries the text, the context and the history of the earlier messages; the recorder, detector and timers are untouched |
| VoiceSession.Panel.FinishQuery | frontend/src/components/VoiceSection.jsx:474-527 | a reply is appended and spoken (idle when playback fails); a failure shows the mapped error, retryable unless 401, with the original input; the guard is released and the time reset; the recorder, detector, timers and sent requests are untouched |
| VoiceSession.Panel.StartRecording | frontend/src/components/VoiceSection.jsx:603-692 | only from idle; a denied microphone appends its error stamped with the time; otherwise the recorder runs, the status is listening, the start time is recorded, and in sterile mode the detector runs with no silence timer unless its setup fails |
| VoiceSession.Panel.StopVad | frontend/src/components/VoiceSection.jsx:589-601 | the detector stops and forgets its timers, nothing else changes |
| VoiceSession.Panel.StopRecording | frontend/src/components/VoiceSection.jsx:695-701 | the detector is stopped, then the recorder if it runs: recorder and detector off, both timers cleared, the status left to the recorder's stop handler; nothing else changes |
| VoiceSession.Panel.StopPlayback | frontend/src/components/VoiceSection.jsx:703-709 | playback ends in idle with the time reset; nothing else changes |
| VoiceSession.Panel.PlaybackEnded | frontend/src/components/VoiceSection.jsx:751-752 | a finished answer leaves the panel idle with the time reset and nothing else changed; after an assistant turn the hands-free mode is then due to listen |
| VoiceSession.Panel.PlaybackFailed | frontend/src/components/VoiceSection.jsx:753-762 | a playback error leaves the panel idle and appends "Failed to play audio response." as a non-retryable error without a timestamp; nothing else changes |
| VoiceSession.Panel.ClearMessages | frontend/src/components/VoiceSection.jsx:538-541 | the conversation becomes empty and nothing else changes, so an idle panel with a diagnosis is due for the automatic prompt |
| VoiceSession.Panel.OrbClick | frontend/src/components/VoiceSection.jsx:711-716 | idle starts a recording as StartRecording does, listening stops it as StopRecording does, speaking ends in idle, processing changes nothing |
| VoiceSession.Panel.TimerTick | frontend/src/components/VoiceSection.jsx:360-370 | while listening the time advances by one second, and at the limit the recorder and detector are stopped instead, with the time kept; otherwise nothing changes |
| VoiceSession.Panel.VadTick | frontend/src/components/VoiceSection.jsx:645-682 | while the detector runs, a stop decision of VadStep on a running recorder stops the recorder and the detector; otherwise only the silence timer follows VadStep; without the detector nothing changes |
| VoiceSession.IsDuplicate | frontend/src/components/VoiceSection.jsx:437-442 | the repeat test; DuplicateWindow states when it holds |
| VoiceSession.DuplicateWindow | frontend/src/components/VoiceSection.jsx:437-446 | a user turn makes the same text a duplicate exactly for two seconds; a different text or an empty conversation never is one |
| VoiceSession.Panel.StopRecorder | frontend/src/components/VoiceSection.jsx:618-622 | the recorder stops and its stop handler stops the detector: recorder and detector off, both timers cleared, nothing else changes |
| VoiceSession.Panel.BeginTranscription | frontend/src/components/VoiceSection.jsx:544-555 | no recorded chunk returns to idle; a query in flight leaves everything as it was; otherwise the guard is set and the status becomes processing, nothing else changes |
| VoiceSession.Panel.FinishTranscription | frontend/src/components/VoiceSection.jsx:557-584 | a failed request or an empty stripped transcription returns to idle with its error and releases the guard; otherwise the guard is released and the text starts a query exactly when online, with the same new state as `BeginQuery`; offline only the offline error is added and the status stays processing |
| VoiceSession.Panel.AbandonTranscription | frontend/src/components/VoiceSection.jsx:568-583 | back to idle with the given error appended, timestamped and not retryable, and the guard released; nothing else changes |
| VoiceSession.Panel.AutoListen | frontend/src/components/VoiceSection.jsx:717-728 | in sterile mode, when the panel is idle after an assistant turn, a recording starts as StartRecording does; otherwise nothing changes |
| VoiceSession.Panel.AutoPrompt | frontend/src/components/VoiceSection.jsx:730-738 | in sterile mode, with a diagnosis and an idle empty conversation, the fixed question about the scan is asked as BeginQuery does; otherwise nothing changes |
| Typewriter.Typewriter.constructor | voxray-ai/src/hooks/useTypewriter.js:4 | the display starts empty with no timer running |
| Typewriter.Typewriter.SetText | voxray-ai/src/hooks/useTypewriter.js:6-14 | a missing or empty text shows "" and starts no timer; any other text restarts from an empty display and a zero counter with the timer running |
| Typewriter.Typewriter.Tick | voxray-ai/src/hooks/useTypewriter.js:14-23 | a running tick before the end shows exactly one more character of the text; at the end it stops the timer and leaves the display; a stopped timer changes nothing |
| Typewriter.Typewriter.RunToEnd | voxray-ai/src/hooks/useTypewriter.js:14-23 | ticking until the timer stops leaves the whole text on display |
| Typewriter.Shown | voxray-ai/src/hooks/useTypewriter.js:15-19 | the display after n ticks is the prefix of length min(n, len) |
| Typewriter.ShownGrows | voxray-ai/src/hooks/useTypewriter.js:15-19 | each tick before the end lengthens the display by exactly the next character |
| Typewriter.ShownMonotone | voxray-ai/src/hooks/useTypewriter.js:15-19 | an earlier display is always a prefix of a later one |
| XRayViewer.ConstrainAxis | frontend/src/components/InteractiveXRayViewer.jsx:103-108 | the result lies within ±(dim·1.5·zoom/2), and an in-range proposal is kept |
| XRayViewer.ConstrainPan | frontend/src/components/InteractiveXRayViewer.jsx:92-110 | the proposal comes back as it is before the container or the image is mounted; otherwise each axis is clamped to its own bound |
| XRayViewer.ZoomInStep | frontend/src/components/InteractiveXRayViewer.jsx:190 | from a zoom in [0.5, 5] the result stays in range and never decreases |
| XRayViewer.ZoomOutStep | frontend/src/components/InteractiveXRayViewer.jsx:191 | from a zoom in [0.5, 5] the result stays in range and never increases |
| XRayViewer.WheelZoom | frontend/src/components/InteractiveXRayViewer.jsx:148-150 | the wheel zoom always lies in [0.5, 5], and a zero delta keeps an in-range zoom |
| XRayViewer.WheelPan | frontend/src/components/InteractiveXRayViewer.jsx:181-182 | the pointer's offset from the new pan is its offset from the old pan times the zoom ratio; a ratio of 1, or a pointer at the pan offset, leaves the pan unchanged |
| XRayViewer.WheelKeepsPointUnderPointer | frontend/src/components/InteractiveXRayViewer.jsx:174-182 | with the ratio new zoom / old zoom, the image point under the pointer at the old zoom is drawn under the pointer again at the new zoom |
| XRayViewer.Viewer.constructor | frontend/src/components/InteractiveXRayViewer.jsx:66-87 | pan (0,0), zoom 1, brightness and contrast 100, overlay opacity 0.5, not dragging, and a fresh smoothed pan with sensitivity 0.6, deadzone 2, smoothing 0.15 and maximum velocity 40 |
| XRayViewer.Viewer.MouseDown | frontend/src/components/InteractiveXRayViewer.jsx:115-119 | only the left button starts a drag; pan, zoom, brightness, contrast and overlay opacity are untouched |
| XRayViewer.Viewer.MouseUp | frontend/src/components/InteractiveXRayViewer.jsx:135-137 | the drag ends; pan, zoom, brightness, contrast and overlay opacity are untouched |
| XRayViewer.Viewer.MouseMove | frontend/src/components/InteractiveXRayViewer.jsx:121-133 | outside a drag nothing moves and the panner keeps its velocity; during one each velocity eases from its old value towards the deadzoned movement times the sensitivity, and the clamped velocity times the zoom factor is added to the pan and the result constrained at the current zoom; zoom, drag, brightness, contrast and overlay opacity are untouched |
| XRayViewer.Viewer.Wheel | frontend/src/components/InteractiveXRayViewer.jsx:139-187 | before mounting nothing changes; otherwise the zoom becomes the wheel zoom and each pan axis moves by the zoom-to-pointer rule, without constraint; brightness, contrast and overlay opacity are untouched |
| XRayViewer.Viewer.ZoomIn | frontend/src/components/InteractiveXRayViewer.jsx:190 | the zoom becomes min(1.2·zoom, 5); pan, drag, brightness, contrast and overlay opacity are kept |
| XRayViewer.Viewer.ZoomOut | frontend/src/components/InteractiveXRayViewer.jsx:191 | the zoom becomes max(zoom/1.2, 0.5); pan, drag, brightness, contrast and overlay opacity are kept |
| XRayViewer.Viewer.Reset | frontend/src/components/InteractiveXRayViewer.jsx:192-197 | pan (0,0), zoom 1, brightness and contrast 100; the overlay opacity is kept |
| XRayViewer.WheelEscapesBound | frontend/src/components/InteractiveXRayViewer.jsx:181-185 | a wheel zoom from 1 to 2 at the left edge moves a pan of 75 to 200, beyond the drag bound of 150 |
| XRayViewer.ZoomLimits | frontend/src/components/InteractiveXRayViewer.jsx:190-191 | zooming in stops at 5, zooming out at 0.5, and one step in from 1 gives 1.2 |
| SmoothPan.Adjusted | frontend/src/hooks/useSmoothPan.js:16-20 | a movement below the deadzone counts as 0, any other is kept |
| SmoothPan.PanState.constructor | frontend/src/hooks/useSmoothPan.js:10-12 | the velocity starts at rest under the given configuration |
| SmoothPan.PanState.CalculatePanDelta | frontend/src/hooks/useSmoothPan.js:14-37 | each axis eases the stored velocity towards the adjusted movement times the sensitivity, keeps it unclamped, and returns it clamped to the maximum velocity |
| SmoothPan.ClampBounds | frontend/src/hooks/useSmoothPan.js:31-34 | the returned delta lies in [-max, max], keeps an in-range velocity and cuts others to the nearer bound |
| SmoothPan.EasedBetween | frontend/src/hooks/useSmoothPan.js:27-28 | with smoothing in [0, 1] the new velocity lies between the old one and the target |
| SmoothPan.ScaledStep | frontend/src/hooks/useSmoothPan.js:27-28 | a fraction in [0, 1] of a step lies between zero and the step, whatever its sign, and the whole fraction is the step itself |
| SmoothPan.VelocityKeptUnclamped | frontend/src/hooks/useSmoothPan.js:27-34 | a fast flick from rest stores a velocity of 90 but returns 40 |
| SmoothPan.JitterIgnored | frontend/src/hooks/useSmoothPan.js:19-36 | a movement below the deadzone from rest returns no movement |
| SmoothZoom.ClampZoom | frontend/src/hooks/useSmoothZoom.js:23-24 | the result lies in [0.5, 5] and an in-range zoom is kept |
| SmoothZoom.ZoomState.constructor | frontend/src/hooks/useSmoothZoom.js:3-5 | target and current zoom start at the initial zoom |
| SmoothZoom.ZoomState.Wheel | frontend/src/hooks/useSmoothZoom.js:19-24 | the target accumulates the inverted, scaled wheel delta and is clamped; the shown zoom is untouched |
| SmoothZoom.ZoomState.Step | frontend/src/hooks/useSmoothZoom.js:30-53 | a gap under 0.001 snaps to the target and stops; otherwise the zoom moves 15% of the way, stays between its old value and the target, the gap shrinks by 0.85 and the frame bound drops |
| SmoothZoom.ZoomState.Animate | frontend/src/hooks/useSmoothZoom.js:30-56 | the animation always stops, at the target |
| SmoothZoom.FrameShrinks | frontend/src/hooks/useSmoothZoom.js:31-40 | an easing frame on a gap of at least 0.001 lowers the frame bound, which stays non-negative |
| SmoothZoom.ZoomToPoint | frontend/src/hooks/useSmoothZoom.js:60-98 | the zoom returned is the target; on each axis the image point under the mouse at the current zoom is drawn under the mouse again at the target zoom; equal current and target zoom keep the pan |
| SmoothZoom.ZoomAtPanCentre | frontend/src/hooks/useSmoothZoom.js:91-95 | a pointer at the pan offset from the centre zooms without moving the pan |
| XRayPanel.SeverityOf | frontend/src/components/XRaySection.jsx:198-203 | low exactly when the upper-cased diagnosis contains "NORMAL"; medium exactly when it lacks "NORMAL" but contains "PNEUMONIA"; a missing diagnosis is read as "" |
| XRayPanel.DisplayLabel | frontend/src/components/XRaySection.jsx:352 | the label without its leading `digits_`, character for character, with every underscore shown as a space and every other character kept; DisplayLabelInverse undoes it |
| XRayPanel.DisplayLabelInverse | frontend/src/components/XRaySection.jsx:352 | for a label holding no space, turning the shown spaces back into underscores gives the label without its numeric prefix |
| XRayPanel.AnalyzeFailureMessage | frontend/src/components/XRaySection.jsx:157-167 | 401 gives the sign-in message, 503 the warming-up message, a network failure the connection message, anything else the generic one, in that priority |
| XRayPanel.FallbackName | frontend/src/components/XRaySection.jsx:124 | a missing diagnosis is named "Unknown"; a label whose shown form is non-empty is named by that form |
| XRayPanel.Panel.constructor | frontend/src/components/XRaySection.jsx:20-31 | no file, preview, result, commentary or heatmap; nothing in progress, notified or alerted |
| XRayPanel.Panel.ChooseFile | frontend/src/components/XRaySection.jsx:46-67 | a chosen file replaces the old one with its preview, clears result and commentary, and notifies the parent with no result; no file changes nothing; the heatmap, alerts and progress flags stay |
| XRayPanel.Panel.ClearFile | frontend/src/components/XRaySection.jsx:69-77 | file, preview, result, heatmap and commentary are cleared and the parent is notified with no result; the progress flags stay |
| XRayPanel.Panel.SelectResult | frontend/src/components/XRaySection.jsx:37-44 | a selected history result replaces the shown one and clears the commentary; no selection changes nothing; preview, alerts and progress flags stay |
| XRayPanel.Panel.Analyze | frontend/src/components/XRaySection.jsx:135-171 | without a file nothing happens; a prediction is shown, passed to the parent and followed by the commentary or its offline text, with both progress flags released; a failure raises the matching alert, leaves the result and the commentary flag as they were; preview and heatmap progress stay |
| XRayPanel.Panel.GenerateAIAnalysis | frontend/src/components/XRaySection.jsx:106-133 | the commentary is the chat reply, or the offline text built from the prediction when the request fails; preview and heatmap progress stay |
| XRayPanel.Panel.Explain | frontend/src/components/XRaySection.jsx:173-196 | without a file nothing happens; a heatmap becomes a PNG data URL; a failure clears it and raises "Explanation generation failed."; preview, commentary and the other progress flags stay |
| XRayPanel.SeverityCases | frontend/src/components/XRaySection.jsx:198-203 | high exactly when neither "NORMAL" nor "PNEUMONIA" occurs |
| XRayPanel.MissingDiagnosisIsHigh | frontend/src/components/XRaySection.jsx:199-202 | a missing diagnosis is high severity |
| XRayPanel.NormalBeatsPneumonia | frontend/src/components/XRaySection.jsx:200-201 | "03_NORMAL_PNEUMONIA" is low severity because "NORMAL" is checked first |
| XRayPanel.FallbackMentions | frontend/src/components/XRaySection.jsx:124-129 | the offline commentary opens with the finding's name, contains the confidence and ends with the offline notice |
| XRayPanel.FallbackAnalysis | frontend/src/components/XRaySection.jsx:124-129 | the offline commentary; FallbackMentions states what it contains |
| XRayCards.Definition | voxray-ai/src/components/XRaySection.jsx:278-280 | a cleaned, upper-cased name absent from the table gets the generic sentence; a present one gets its table entry |
| XRayCards.Panel.constructor | voxray-ai/src/components/XRaySection.jsx:12-17 | no file, preview or result; nothing in progress, notified or alerted |
| XRayCards.Panel.ChooseFile | voxray-ai/src/components/XRaySection.jsx:31-50 | a chosen file replaces the old one with its preview, clears the result and notifies the parent with no result; no file changes nothing; the progress flag stays |
| XRayCards.Panel.ClearFile | voxray-ai/src/components/XRaySection.jsx:52-58 | file, preview and result are cleared and the parent is notified with no result; the progress flag stays |
| XRayCards.Panel.SelectResult | voxray-ai/src/components/XRaySection.jsx:19-29 | a selected history result replaces the shown one; file, preview, alerts and the progress flag stay |
| XRayCards.Panel.Analyze | voxray-ai/src/components/XRaySection.jsx:60-80 | without a file nothing happens; a prediction is shown and passed to the parent; any failure raises the one fixed alert; the preview stays |
| XRayCards.KeysWithoutSpaces | voxray-ai/src/components/XRaySection.jsx:264-273 | no key of the definition table contains a space |
| XRayCards.MultiWordIsGeneric | voxray-ai/src/components/XRaySection.jsx:278-280 | a cleaned name with a space, such as "LUNG CANCER", always gets the generic sentence |
| XRayCards.PneumoniaLabel | voxray-ai/src/components/XRaySection.jsx:278-280 | "02_PNEUMONIA" is shown, upper-cased, as "PNEUMONIA" |
| XRayCards.PneumoniaPrefixDropped | voxray-ai/src/components/XRaySection.jsx:278 | the prefix "02_" is dropped from "02_PNEUMONIA" |
| XRayCards.PneumoniaDefinition | voxray-ai/src/components/XRaySection.jsx:264-280 | "02_PNEUMONIA" gets the table's pneumonia definition |
| XRayCards.MedicalDefinitions | voxray-ai/src/components/XRaySection.jsx:264-273 | the definition table; KeysWithoutSpaces and PneumoniaDefinition state its keys and its pneumonia entry |
| Dashboard.Page.constructor | frontend/src/pages/Dashboard.jsx:15-17 | the page opens on the analysis view with no selection and an empty history |
| Dashboard.Page.HandleNewScan | frontend/src/pages/Dashboard.jsx:20-34 | a result becomes a new scan, copying diagnosis, confidence and the full result, at the head of the history and as the selection, keeping the history newest first; no result clears the selection and keeps the history |
| Dashboard.Page.SetActiveView | frontend/src/pages/Dashboard.jsx:65 | the navigation changes only the view |
| Dashboard.Page.SelectScan | frontend/src/pages/Dashboard.jsx:102 | a history entry becomes the selection; view and history are kept |
| Dashboard.Page.SelectWorklistItem | frontend/src/pages/Dashboard.jsx:138-148 | a worklist item becomes the selection and the analysis view opens; the history is kept |
| Dashboard.WorklistScan | frontend/src/pages/Dashboard.jsx:140-145 | the selection copies the item's id, diagnosis and confidence and its full result holds only those two, with no time of day |
| ClientFlags.DefaultFlags | frontend/src/utils/featureFlags.js:1-7 | every default flag is off |
| ClientFlags.FetchFeatureFlags | frontend/src/utils/featureFlags.js:11-38 | no response, a failing status (404 included) or an unreadable body give the defaults; a successful answer gives the defaults' keys together with the server's |
| ClientFlags.IsFlagEnabled | frontend/src/utils/featureFlags.js:40-42 | a flag is on exactly when the flags exist and hold the boolean true under the key |
| ClientFlags.ServerOverridesDefaults | frontend/src/utils/featureFlags.js:32-33 | server values win, and a default the server leaves out keeps its value |
| ClientFlags.DefaultsAllOff | frontend/src/utils/featureFlags.js:23-37 | whenever the fetch fails, no flag is on |
| ClientFlags.TruthyIsNotTrue | frontend/src/utils/featureFlags.js:40-42 | the number 1 and the string "true" do not enable a flag; the boolean true does |

## Left out

- Model inference, model loading and image decoding or preprocessing are outside the model. Each model is an oracle that returns a probability row or fails. `ModelServer.Server.Predict` receives the preprocessed tensor's shape.
- Grad-CAM, the heatmap overlay, DICOM parsing, audit logging, the wake-word stub and the noise handler are floating-point image or audio processing, or file I/O, and are not modelled.
- Speech recognition, speech synthesis, the OpenRouter chat call and authentication are foreign network services. The language model is the parameter `complete`, and only the text processing around these calls is modelled.
- The chat handlers take the knowledge-base lookup as a parameter `lookup`. On the server this is `MedicalContext.Resolve` over the fixed table. Passing it in keeps that table out of each handler's proof.
- `handleRetry` (`frontend/src/components/VoiceSection.jsx:531-536`) is not modelled: it only re-enters `processTextQuery`, whose two halves are `VoiceSession.Panel.BeginQuery` and `VoiceSession.Panel.FinishQuery`. The audio blob and the form data of `processAudioBlob` are not modelled: `VoiceSession.Panel.BeginTranscription` takes only whether any chunk was recorded, and `VoiceSession.Panel.FinishTranscription` takes the transcription request's outcome.
- `setInterval`, `requestAnimationFrame`, promises and React's batching of state updates are not modelled as concurrency. Each timer tick, detector tick, animation frame, settled request and fired sterile-mode timeout is one sequential method call. A cancelled timeout is modelled by `VoiceSession.Panel.AutoListen` and `VoiceSession.Panel.AutoPrompt` checking their conditions again when they fire. The timer periods (1000 ms, 50 ms, 30 ms, and the 2000 ms and 1000 ms timeouts) play no part.
- Floats are exact reals, and no IEEE-754 rounding is claimed. Formatting with `.4f` or `toFixed(n)` is exact decimal rounding: ties go to even for Python and up for JavaScript. Python's `str()` of an arbitrary float is the parameter `repr`.
- The natural logarithm, SHA-256, Unicode character names and square roots are parameters (`ln`, `sha256Hex`, `nameOf`, `zoomFactor`). `XRayViewer.Viewer.MouseMove` takes the caller's `1 / sqrt(zoom)` as `zoomFactor`.
- Character classes are ASCII only: case mapping, `strip`, `\s`, `\w`, `\d` and word boundaries. Python and JavaScript apply them to all of Unicode. Whitespace is the six characters space, tab, line feed, carriage return, vertical tab and form feed. Python's `strip` and `\s` also count the separators \x1c to \x1f, which the model does not. JavaScript's `length` counts UTF-16 code units, while the model counts characters.
- Regular expressions are modelled only as the specific patterns the source uses: literal words between word boundaries, the `N%` pattern, and whitespace runs. No general regex engine is modelled.
- YAML reading, JSON parsing and file existence are inputs. The parsed thresholds configuration, the drift environment and the fetched flag body are parameters.
- `MedicalContext.Resolve`: a non-empty label that cleans to the empty string, such as "01_", resolves to the first key. `MedicalContext.EmptyCleanLabel` proves this for every such label. The concrete "01_" instance is not stated separately.
- `ChatV2`: a missing v2 language is "en", the request model's default.
- `ClientFlags.FetchFeatureFlags`: only a JSON object body contributes keys. Spreading a JSON array or string, which JavaScript turns into index keys, is not modelled.
- `XRayViewer.ZoomInStep` and `XRayViewer.ZoomOutStep` state their range only for a zoom already in [0.5, 5], which is the viewer's invariant.
- `SmoothZoom.ZoomToPoint` requires a non-zero current zoom. JavaScript would divide by zero and produce an infinite or NaN pan.
- Hindi is disabled in `LANGS` and has no entry. The "hi" branch of the v2 language map is modelled as written.
- The ensemble's output-shape warning is only a log line, so the shape is recorded but plays no part.
- `ChatContext.ParseConfidence` reads numbers as Python `float()` does for signs, digits, a point, an exponent and underscores between digits. The spellings "inf", "infinity" and "nan", in any letter case and with a sign, have no exact real value, so the model treats them as rejected where `float()` accepts them. Overflow to infinity, rounding to the nearest double, non-ASCII digits and surrounding Unicode whitespace are not modelled either.
- `ChatContext.ContextFallbacks` inherits that gap: a context whose confidence text is "inf" or "nan" gets the raw-context fallback in the model, while the source builds the grounded section.
- `DriftDetection.DetectDrift` uses the data path as given. The source passes it through `pathlib.Path`, whose `str()` drops a trailing '/' and repeated separators, so "x.tfrecord/" passes the format test in the source but not in the model.
- `RetrainingTrigger.Trigger.Open` uses the thresholds path as given, without `pathlib.Path` normalisation. The path plays no part beyond locating the file, which is an input.
- `MedicalVocabulary.Correct` inserts the correction text literally. `re.sub` would expand backslash escapes and group references in it. No entry of the default table contains a backslash, so this only matters for a custom table.
- Logging and console output are not modelled.
