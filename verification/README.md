# LogosAI core in Dafny

LogosAI reads a text in a foreign language and writes a study guide for it.
It works in three steps. A detector names the text's language and genre and
says whether the text needs correcting. An optional correction step rewrites
the text. An interpreter then produces the interpretation in the learner's
own language. The backend exposes this through shared use cases, a command
line (`logosai analyze`, `history …`, `settings …`) and an HTTP service. It
keeps a history table of past analyses and an in-memory settings record that
holds the Gemini key and the model name.

This project models that core:

- the workflow graph (`backend/workflow/agent.py`): its state, its three
  nodes, the route after detection, and how the graph merges each node's
  update into the state;
- the Gemini prompt builders and their language tables: workflow
  interpretation, process interpretation, translation and the older `src/`
  versions;
- the process pipeline's `AutomatedAnalysisAgent`: directive validation,
  optional correction and interpretation dispatch;
- the OCR helpers: mode dispatch, page joining, extension routing, image-link
  replacement and PDF chunking;
- the use cases, the CLI handlers, the two service classes and the history
  table;
- the frontend language and date helpers.

Every SDK call (Gemini, Mistral, LangChain structured output, `json.loads`,
file reads, locale date formatting) is a function-typed parameter that
returns either a value or a raised exception (`Common.Outcome`). So each
contract holds for every possible answer of the service. Python's string
operations that matter are written out in `Common`:

- `str.replace` as `ReplaceAll`, proved equal to a join of a split;
- `str.strip` with Python's whitespace set;
- `upper`/`lower`, ASCII only;
- truthiness, and `in` on dicts, lists and strings.

The history table is a class whose `rows` field the add and delete methods
reassign. Its invariant says that ids and timestamps strictly increase.

## Model

| member | source | states |
|---|---|---|
| Common.StripEmptyIffBlank | backend/process/agent.py:77-78 | `not text.strip()` holds exactly when every character is Python whitespace |
| Common.ReplaceIsJoinOfSplit | backend/process/translation.py:36 | replacing every occurrence of a pattern is the same as splitting on it and joining with the replacement |
| Common.SplitJoinRoundTrip | backend/workflow/agent.py:80-84 | splitting on a pattern and joining with that pattern gives back the input, so replacing a placeholder by itself changes nothing |
| Common.SplitPiecesFree | backend/process/interpretation.py:44-48 | no piece left by a split contains the pattern, so a replaced placeholder does not survive |
| Common.ReplaceAbsent | backend/cli.py:96 | replacing a pattern that does not occur leaves the string unchanged |
| Common.ReplaceCharRemovesIt | backend/cli.py:96 | after `replace("\n", " ")` no newline remains |
| Common.Strip | backend/cli.py:96 | `str.strip()`: what is left after dropping a whitespace prefix and a whitespace suffix, starting and ending with a character that is not whitespace |
| Common.StripKeepsOut | backend/cli.py:96 | stripping never introduces a character that was absent |
| Common.UpperIdempotent | backend/cli.py:58 | upper-casing twice is the same as once, so the CLI's and the use case's two `.upper()` calls agree |
| Languages.CodeName | backend/workflow/agent.py:72-78 | an exact code lookup in the nine-language table: a known code gives its table entry, the result is always a language name, and it is English exactly for "EN" or an unknown code |
| Languages.CodeNameIgnoringCase | backend/process/interpretation.py:23-35 | the lookup after `.upper()`: a code known once upper-cased gives its table entry, and the result is English exactly when the upper-cased code is "EN" or unknown |
| Languages.LowerCaseCodesAreFound | backend/workflow/interpretation.py:22-34 | lower-case codes reach every entry of the table |
| Languages.LegacyCodeName | src/process/interpretation.py:68-70 | the three-entry table: a code known once upper-cased gives its entry, and the result is English unless the upper-cased code is ZH or FR |
| Languages.NativeName | backend/process/translation.py:24-35 | native language name to English name: a known name gives its table entry, and the result is English exactly for "English" or an unknown name |
| Languages.LegacyNativeName | src/process/translation.py:21-22 | the five-entry native-name table: a known name gives its entry, and the result is English exactly for "English" or an unknown name |
| Languages.LegacyNativeTableIsSubTable | src/process/translation.py:21-22 | every name the old table knows is mapped exactly as the new table maps it |
| Templates.FillReplacesEveryPlaceholder | backend/process/interpretation.py:44-48 | filling two placeholders equals two split/join rounds, and no placeholder survives its own round |
| Templates.FillWithoutPlaceholders | backend/process/interpretation.py:6-7 | a template without placeholders (the empty narrative and poem templates) is left unchanged |
| Templates.FillWithPlaceholdersIsIdentity | backend/workflow/agent.py:80-84 | filling each placeholder with its own name gives the template back |
| WorkflowAgent.NewTextAnalysis | backend/workflow/agent.py:23-25 | construction succeeds exactly with a non-empty key; otherwise it raises ValueError "Gemini API key is required." |
| WorkflowAgent.Merge | backend/workflow/agent.py:11-19 | a node's partial update overrides exactly the fields it names; messages and user language are never changed |
| WorkflowAgent.DetectionNode | backend/workflow/agent.py:44-57 | the detector's language, genre and correction flag become the update, and nothing else changes; a detector exception propagates |
| WorkflowAgent.CorrectionNode | backend/workflow/agent.py:59-69 | the corrected text replaces `text` and is also stored as `corrected_text` |
| WorkflowAgent.InterpretationPromptIgnoresGenre | backend/workflow/agent.py:71-84 | the interpretation prompt does not depend on the detected genre |
| WorkflowAgent.InterpretationNode | backend/workflow/agent.py:71-94 | the model's answer to the filled general prompt becomes the interpretation, and only that field changes |
| WorkflowAgent.RouteAfterDetection | backend/workflow/agent.py:96-100 | the route is "correct" exactly when correction is needed, otherwise "interpret" |
| WorkflowAgent.Next | backend/workflow/agent.py:106-113 | every edge moves strictly toward END, so the graph terminates |
| WorkflowAgent.Invoke | backend/workflow/agent.py:102-115 | running the graph step by step yields the result and the visited nodes of the reference run |
| WorkflowAgent.GraphOrder | backend/workflow/agent.py:106-113 | the visited nodes are detect, optionally correct, then interpret; a successful run ends in interpret; correct is visited exactly when the detector asked for it |
| WorkflowAgent.GraphFinalState | backend/workflow/agent.py:96-113 | the final state of a successful run carries the detector's findings, the corrected text exactly when correction was requested, and the interpretation of the final text |
| GeminiGuards.Prepare | backend/process/translation.py:14-22 | the missing-key and missing-text messages come first; a client error becomes an "ERROR: " string; otherwise the client is ready |
| GeminiGuards.PrepareUnguarded | src/process/translation.py:14-19 | the same guards, but a client error propagates as an exception |
| ProcessInterpretation.UnimplementedGenresAreEmpty | backend/process/interpretation.py:6-7 | the genres that the dispatch leaves out have empty templates |
| ProcessInterpretation.SystemPrompt | backend/process/interpretation.py:36-48 | a prompt exists exactly for general, news and philosophy, compared case-insensitively; any other genre leaves `sys_prompt` unbound |
| ProcessInterpretation.Generate | backend/process/interpretation.py:43-58 | an implemented genre sends the filled template and the text to the model; any other raises UnboundLocalError |
| ProcessInterpretation.GetInterpretation | backend/process/interpretation.py:10-58 | the guard results, then the client error string, then dispatch by genre, as one function of all inputs |
| ProcessInterpretation.GenreIgnoresCase | backend/process/interpretation.py:43-44 | two genres that agree after `.lower()` give the same result |
| ProcessInterpretation.CapitalisedGenres | backend/process/interpretation.py:43-48 | "News", "Philosophy" and "General" behave as their lower-case forms |
| ProcessInterpretation.DetectorGenres | backend/process/interpretation.py:43-58 | the detector's Narrative, Poem and Paper genres raise UnboundLocalError, while News reaches the model with the news template |
| WorkflowInterpretation.GetInterpretation | backend/workflow/interpretation.py:6-50 | after the guards, the general template is filled with both language names and sent with the text |
| LegacyInterpretation.GetInterpretation | src/process/interpretation.py:55-88 | only "news" (in any case) has a prompt; every other genre raises UnboundLocalError, and client errors propagate |
| LegacyInterpretation.OnlyNewsHasATemplate | src/process/interpretation.py:51-53 | every template other than news is empty |
| Translation.Instruction | backend/process/translation.py:36 | the instruction is the system prompt cut at every `[TARGET_LANGUAGE]` and rejoined with the language name; no piece between the names keeps the placeholder |
| Translation.InstructionRoundTrip | backend/process/translation.py:5-10 | substituting the placeholder by itself gives the system prompt back |
| Translation.GetTranslation | backend/process/translation.py:13-45 | guards, client error string, then the instruction for the mapped language name sent with the text |
| Translation.InstructionNamesTheTarget | backend/process/translation.py:24-36 | a known native name is translated into its English name, and an unknown one falls back to English |
| LegacyTranslation.GetTranslation | src/process/translation.py:12-32 | the same pipeline with the five-entry table; a client error propagates |
| LegacyTranslation.AgreesWithBackend | src/process/translation.py:21-23 | on the names the old table knows, the old and new translations agree |
| LegacyTranslation.NewerLanguagesFallBack | src/process/translation.py:21-22 | "Español" is translated into English by the old table and into Spanish by the new one |
| Ocr.DocumentFor | backend/process/ocr.py:27-46 | "image" and "pdf" select the document kind; any other mode leaves `ocr_response` unbound |
| Ocr.Process | backend/process/ocr.py:18-46 | an upload error propagates; an unknown mode raises UnboundLocalError; otherwise the OCR answer for the uploaded file |
| Ocr.OcrFromFile | backend/process/ocr.py:9-46 | a missing key, and then a client that cannot be built, raise ValueError before any upload |
| Ocr.PageMarkdowns | backend/process/ocr.py:49-52 | one markdown per page, in page order |
| Ocr.CombinedMarkdown | backend/process/ocr.py:49-54 | the loop yields the pages' markdown joined by a blank line |
| Ocr.CombinedSmallCases | backend/process/ocr.py:54 | no pages give "", and one page gives its markdown unchanged |
| Ocr.CombinedPageOrder | backend/process/ocr.py:49-54 | each page's markdown sits between the join of the earlier pages and the join of the later ones, separated by blank lines |
| Ocr.CombinedLength | backend/process/ocr.py:54 | the combined length is the sum of the page lengths plus two per separator |
| Ocr.CorrectTextWithAi | backend/process/ocr.py:57-87 | a missing key raises ValueError; a client error becomes an "ERROR: " string; otherwise the proofreader's answer |
| Ocr.LastField | backend/process/ocr.py:92 | `split('.')[-1]` is the longest suffix without a dot, preceded by a dot when shorter than the input |
| Ocr.LastFieldUnique | backend/process/ocr.py:92 | that characterisation determines the suffix uniquely |
| Ocr.Extension | backend/process/ocr.py:92 | the lower-cased extension contains no dot |
| Ocr.RouteFor | backend/process/ocr.py:96-102 | "txt" is read as text; everything else goes to OCR, in pdf mode exactly for "pdf", and always in a mode OCR accepts |
| Ocr.ExtensionExamples | backend/process/ocr.py:92-102 | upper-case and multi-dot names resolve by their last field; a name without a dot is its own extension and goes to image OCR |
| Ocr.ExtensionAfterLastDot | backend/process/ocr.py:92 | for any name, the extension is what follows the last dot, lower-cased, whatever comes before it |
| Ocr.DotlessNameIsItsExtension | backend/process/ocr.py:92 | a name without a dot is its own extension, lower-cased |
| Ocr.ExtractTextFromFile | backend/process/ocr.py:90-105 | no file gives the not-found message; txt gives the file's text; anything else gives the combined OCR markdown or the OCR error |
| LegacyOcr.OcrFromFile | src/process/ocr.py:9-42 | the key guard, then a client error propagates unchanged |
| LegacyOcr.AgreesWithBackend | src/process/ocr.py:9-42 | with a working client, the old and new OCR give the same result |
| LegacyOcr.CorrectTextWithAi | src/process/ocr.py:54-83 | the old version raises ValueError with its own message for a missing key and lets client errors propagate |
| LegacyOcr.PerformRawOcr | src/process/ocr.py:86-98 | txt files are read; other files are OCR'd in pdf or image mode and their pages joined |
| PdfOcr.ImageLink | src/process/pdf_ocr.py:15 | the markdown image link's length and leading "!" |
| PdfOcr.ReplaceImagesInMd | src/process/pdf_ocr.py:13-16 | the loop applies the images' replacements one after another, in order |
| PdfOcr.ReplaceImagesAppend | src/process/pdf_ocr.py:14-15 | replacing a concatenated list of images equals replacing the first part and then the second |
| PdfOcr.ReplaceImagesWithoutLinks | src/process/pdf_ocr.py:13-16 | markdown that links none of the images is left unchanged |
| PdfOcr.ReplaceImagesWithOwnNames | src/process/pdf_ocr.py:15 | images whose data is their own name leave the markdown unchanged |
| PdfOcr.ReplaceOneImage | src/process/pdf_ocr.py:15 | one image's link is replaced at every occurrence, and none survives |
| PdfOcr.FloorDiv | src/process/pdf_ocr.py:36 | Python's `//` is floor division for either sign of the divisor |
| PdfOcr.Range | src/process/pdf_ocr.py:41 | `range(a, b)` is the integers from a below b, and empty when b <= a |
| PdfOcr.Decimal | src/process/pdf_ocr.py:44 | `str(k)` is a non-empty run of digits, one digit exactly below ten |
| PdfOcr.DecimalInjective | src/process/pdf_ocr.py:44 | different numbers have different decimal strings |
| PdfOcr.ChunkPathsDistinct | src/process/pdf_ocr.py:44 | no two chunks of one file are written to the same path |
| PdfOcr.ExtractPages | src/process/pdf_ocr.py:30-50 | a zero chunk size raises ZeroDivisionError; otherwise the nested loops write exactly the chunk plan |
| PdfOcr.ChunkCountIsCeiling | src/process/pdf_ocr.py:36 | for a positive size the number of chunks is the ceiling of pages over size, and zero only for an empty file |
| PdfOcr.PagesOfPrefix | src/process/pdf_ocr.py:37-42 | the first k chunks hold exactly the first min(k·n, total) pages, in order |
| PdfOcr.ChunksPartitionPages | src/process/pdf_ocr.py:37-42 | together the chunks hold every page exactly once, in order |
| PdfOcr.ChunkShape | src/process/pdf_ocr.py:37-44 | chunk k is non-empty, holds at most n pages, starts at page k·n and is written to `data/chunk_<k+1>_<name>` |
| PdfOcr.NegativeSizeCopiesNoPage | src/process/pdf_ocr.py:36-42 | with a negative size every chunk written is empty |
| PdfOcr.EmptyPdfWithNegativeSize | src/process/pdf_ocr.py:36-37 | an empty file with a negative size still writes empty chunks: two for size -1, one for any other negative size |
| ProcessAgent.Contains | backend/process/agent.py:60-64 | `key in value` tests dict keys, list items or substrings, and raises for any other type |
| ProcessAgent.Validate | backend/process/agent.py:59-66 | validation passes exactly when all three directive keys are "in" the value, and returns it unchanged |
| ProcessAgent.AnalysisDirectives | backend/process/agent.py:44-71 | a failed call, a parse error or a failed validation gives the fallback directives; otherwise the parsed value |
| ProcessAgent.DirectivesHoldTheKeys | backend/process/agent.py:58-71 | the directives always hold the three keys |
| ProcessAgent.OnlyPresenceIsChecked | backend/process/agent.py:60-66 | a dict with the three keys passes whatever their values are |
| ProcessAgent.ListOfKeysPasses | backend/process/agent.py:60-66 | a JSON list of the three key names also passes validation |
| ProcessAgent.ScalarGivesFallback | backend/process/agent.py:58-71 | a parsed null, boolean or number gives the fallback |
| ProcessAgent.Field | backend/process/agent.py:85 | `dict.get(key, default)` |
| ProcessAgent.ProcessedText | backend/process/agent.py:83-91 | the text is corrected exactly when `correction_needed` is truthy, and a failed correction keeps the original |
| ProcessAgent.Interpret | backend/process/agent.py:94-101 | string genre and language reach `get_interpretation`; whatever the directives hold, a missing key, an empty text or a client error gives the guard's message first; once the guards pass, a non-string language or genre raises AttributeError on `.upper()`/`.lower()` |
| ProcessAgent.NoInput | backend/process/agent.py:77 | the empty-input check is exactly "blank" |
| ProcessAgent.Reported | backend/process/agent.py:102-105 | an interpretation is returned as is; an exception becomes the error message with its text |
| ProcessAgent.AutomatedAnalysisAgent.Run | backend/process/agent.py:73-105 | blank input gives the empty-input message; non-dict directives raise AttributeError; otherwise the reported interpretation of the (optionally corrected) text |
| ProcessAgent.NewAgent | backend/process/agent.py:37-42 | both keys are required, and a client error propagates |
| ProcessAgent.FailedDetection | backend/process/agent.py:67-71 | when detection fails, the run uses genre General, language EN, and correction |
| ProcessAgent.StringDirectivesReachTheBuilder | backend/process/agent.py:94-105 | string directives are passed to the interpretation builder unchanged |
| HistoryStore.ReverseIsNewestFirst | backend/use_cases.py:74 | listing rows by descending timestamp keeps every row once and orders them newest first |
| HistoryStore.HistoryDb.constructor | backend/database.py:11-21 | a new table is empty and satisfies the ordering invariant |
| HistoryStore.HistoryDb.NewestFirst | backend/use_cases.py:74 | the query returns a permutation of the rows, newest first |
| HistoryStore.HistoryDb.Find | backend/use_cases.py:82 | a row with the id if there is one, and None exactly when no row has it |
| HistoryStore.HistoryDb.Add | backend/use_cases.py:64-65 | a committed insert appends one row holding the given prompt, result and language, with a fresh id and timestamp, and advances both counters by one; a failing commit changes nothing |
| HistoryStore.HistoryDb.Remove | backend/use_cases.py:93-94 | a committed delete removes the row and keeps the others in order; a failing commit changes nothing; ids and timestamps are never reused |
| HistoryStore.FindIn | backend/use_cases.py:82 | the first-match search over a sequence of rows |
| HistoryStore.Without | backend/use_cases.py:93 | no remaining row has the deleted id |
| HistoryStore.WithoutKeepsOrder | backend/use_cases.py:93-94 | deletion preserves strictly increasing ids and timestamps |
| HistoryStore.WithoutRemovesOne | backend/use_cases.py:88-95 | with unique ids, deleting row k's id removes exactly row k |
| HistoryStore.WithoutFoundShrinks | backend/use_cases.py:88-95 | deleting an id that is present shrinks the table by one |
| HistoryStore.WithoutAbsent | backend/use_cases.py:89-91 | deleting an id that is absent changes nothing |
| Schema.InitialState | backend/use_cases.py:39-48 | the workflow starts from the request's text, the upper-cased user language and empty detection fields |
| Service.AgentFor | backend/service.py:15-21 | an agent exists exactly when the key is non-empty, built from the current key and model |
| Service.MaskedKey | backend/use_cases.py:99-100 | the mask is "" exactly for an empty key, otherwise the key's first characters followed by "..." |
| Service.MaskHidesTheRest | backend/use_cases.py:100 | two keys sharing their visible prefix have the same mask |
| Service.MaskLength | backend/services/analysis_service.py:71 | the mask shows at most the visible count plus three characters, and the visible part is a prefix of the key |
| Service.UsableKey | backend/service.py:27 | a new key is used exactly when it is given and not blank |
| Service.BlankKeyKeepsTheOldOne | backend/service.py:27-28 | a blank key never replaces the stored one |
| Service.NonBlankKeyIsUsable | backend/service.py:28 | any key with a character that is not whitespace is accepted, and so stored as given |
| Service.PaddedKeyIsStoredAsGiven | backend/service.py:28 | a key with surrounding spaces is accepted (and stored unstripped) |
| Service.AnalysisService.constructor | backend/service.py:7-13 | settings start from the environment key and the default model, with the agent in sync |
| Service.AnalysisService.InitAgent | backend/service.py:15-21 | rebuilding the agent keeps the settings and restores the agent/settings invariant |
| Service.AnalysisService.GetAgent | backend/service.py:23-24 | the agent exists exactly when a key is configured |
| Service.AnalysisService.UpdateSettings | backend/service.py:26-32 | a usable key replaces the stored key; a non-empty model replaces the model; the agent is rebuilt |
| ServicesAnalysis.AnalysisService.constructor | backend/services/analysis_service.py:9-14 | the same initial settings and agent |
| ServicesAnalysis.AnalysisService.InitAgent | backend/services/analysis_service.py:16-22 | an agent exactly for a non-empty key |
| ServicesAnalysis.AnalysisService.AnalyzeTextAsWritten | backend/services/analysis_service.py:24-55 | every call raises: 400 without an agent, the graph's exception, 500 without an interpretation, and otherwise AttributeError on `.summary` |
| ServicesAnalysis.AnalysisService.AnalyzeText | backend/services/analysis_service.py:24-55 | the corrected handler: the same 400 and 500 errors, and otherwise the interpretation is saved as one new row (no language, as the handler passes none) and returned; it succeeds exactly when a row was added |
| ServicesAnalysis.AnalysisService.GetHistory | backend/services/analysis_service.py:57-59 | every row once, newest first |
| ServicesAnalysis.AnalysisService.DeleteHistory | backend/services/analysis_service.py:61-66 | an unknown id raises 404; otherwise the row is deleted unless the commit raises |
| ServicesAnalysis.AnalysisService.GetSettings | backend/services/analysis_service.py:68-74 | eight characters of the key are shown, and the key is reported present exactly when non-empty |
| ServicesAnalysis.AnalysisService.UpdateSettings | backend/services/analysis_service.py:76-83 | a given non-empty key replaces the stored one; the model is always replaced; the answer is the new masked view |
| UseCases.CheckKeywords | backend/use_cases.py:59-63 | the row's keyword check passes exactly when every keyword is a column of the given model, and otherwise reports the first one that is not |
| UseCases.TargetLanguageIsRejected | backend/use_cases.py:59-63 | the keywords `run_analysis` passes are rejected at `target_language` |
| UseCases.LanguageColumnAcceptsTheKeywords | backend/use_cases.py:59-63 | once the model declares `target_language`, the keywords `run_analysis` passes are all accepted |
| UseCases.Failure | backend/use_cases.py:68-69 | a failed response has an empty result and carries its error |
| UseCases.RunAnalysisWith | backend/use_cases.py:27-69 | every outcome of `run_analysis`: no agent, a graph error, no result, a row-construction error, a commit error, or success with exactly one appended row holding the text, the interpretation and the request's language unchanged; success exactly when the table changed |
| UseCases.RunAnalysisAsWritten | backend/use_cases.py:27-69 | as written, no analysis succeeds and nothing is saved; a produced interpretation ends in the `target_language` TypeError |
| UseCases.RunAnalysis | backend/use_cases.py:27-69 | corrected (the model declares a `target_language` column): success exactly with an agent, a graph result with an interpretation and a working commit; then that interpretation is returned and saved as one new row together with the request's language as given |
| UseCases.GetHistoryItems | backend/use_cases.py:72-78 | success exactly when the query works; the items are the rows, each once, newest first |
| UseCases.GetHistoryItemById | backend/use_cases.py:81-85 | the row with the id, or None exactly when there is none |
| UseCases.DeleteHistoryItem | backend/use_cases.py:88-95 | false exactly for an unknown id; true removes exactly that row; a commit error propagates and changes nothing |
| UseCases.ReadSettings | backend/use_cases.py:98-106 | four characters of the key are shown, and the key is reported present exactly when non-empty |
| UseCases.ApplySettings | backend/use_cases.py:109-113 | a usable key replaces the stored one; a non-empty model replaces the model; the answer is the new masked view |
| Cli.ReadInputText | backend/cli.py:42-47 | a non-empty text wins; otherwise a given path is read; otherwise ValueError |
| Cli.CmdAnalyze | backend/cli.py:50-70 | as written: input errors exit 1 (other read errors propagate), and every readable input also exits 1 with the history unchanged, because `run_analysis` never succeeds |
| Cli.CmdAnalyzeCorrected | backend/cli.py:50-70 | over the corrected `run_analysis`: input errors exit 1 without touching the history; exit 0 exactly when an analysis was saved, with the row holding the text, its interpretation and the upper-cased language |
| Cli.CmdHistoryList | backend/cli.py:73-92 | a negative limit or a failed query exits 1; otherwise the newest `limit` items (all of them for 0), newest first |
| Cli.PreviewFitsOneRow | backend/cli.py:96-97 | a prompt preview is at most 83 characters and has no newline |
| Cli.ShortPromptIsShownWhole | backend/cli.py:96-97 | a short one-line prompt without surrounding whitespace is shown unchanged |
| Cli.LongPromptIsCut | backend/cli.py:96-97 | a long prompt shows its first 80 stripped characters followed by "..." |
| Cli.CmdHistoryShow | backend/cli.py:105-111 | for any integer id (argparse accepts negative ones), exit 0 exactly when some row has the id |
| Cli.CmdHistoryDelete | backend/cli.py:126-135 | for any integer id, exit 1 exactly for an unknown one (every negative id is unknown); exit 0 removes exactly that row; a commit error propagates |
| Cli.ShownKey | backend/cli.py:145-147 | "-" exactly when no key is set, otherwise the four-character mask |
| Cli.CmdSettingsSet | backend/cli.py:152-168 | exit 1 and no change when neither option is given; otherwise the key is applied if usable, and the model if given |
| FrontendHelpers.Lookup | frontend/src/utils/helpers.ts:7 | `table[lang] \|\| lang`: a present, non-empty entry, otherwise the code; the answer is empty only for the empty code |
| FrontendHelpers.LanguageLabel | frontend/src/utils/helpers.ts:1-8 | zh, en and fr get their entry in the label table (their own names, never the code); any other code is shown as it is |
| FrontendHelpers.LanguageName | frontend/src/utils/helpers.ts:10-17 | zh, en and fr get their entry in the name table (English names, never the code); any other code is shown as it is |
| FrontendHelpers.TablesCoverTheSameCodes | frontend/src/utils/helpers.ts:1-17 | a code falls through one table exactly when it falls through the other |
| FrontendHelpers.TablesAgreeOnlyOnEnglish | frontend/src/utils/helpers.ts:1-17 | of the known codes, only en has the same label and name |
| FrontendHelpers.UpperCaseCodesFallThrough | frontend/src/utils/helpers.js:1-17 | lookup is case-sensitive: any code holding an upper-case letter is shown unchanged |
| FrontendHelpers.FormatStamp | frontend/src/utils/helpers.ts:19-27 | a missing or empty timestamp gives "" without formatting; any other is formatted |
| FrontendHelpers.GuardOnlyAffectsMissingStamps | frontend/src/utils/helpers.js:19-25 | the unguarded JavaScript version agrees on every present timestamp and differs only where the TypeScript one answers "" |

## Left out

- SDK clients (Gemini, Mistral, LangChain), their prompts' wording, model names and temperatures: each call is a parameter returning a value or an exception.
- File reading, uploads, PDF reading and writing, and `os.path.exists`: file contents and read errors are parameters. `PdfOcr.ExtractPages` returns the chunk plan (paths and page lists) that would be written.
- `json.loads`, locale date formatting and `new Date`: parameters.
- Printing, JSON output and the process exit itself in `backend/cli.py`, `main`, `init_db`, `db_session`, `about`, and the HTTP routing around the service. `cmd_history_list` and `cmd_history_show` print `item.target_language`; the rows carry it as `HistoryRow.targetLanguage`, but this printing is not modelled.
- `backend/schema/analyze_schema.py` defines only `AnalysisRequest` and `AnalysisResponse`. The history and settings records used by `backend/use_cases.py` and `backend/cli.py` are defined here from their uses, as `HistoryItem` is `HistoryStore.HistoryRow`. As the files stand, importing those records raises ImportError before any command or use case runs; the model assumes they exist.
- The JSON columns of `History` (key vocabulary, grammar points, identified errors) are always null on the paths modelled and are left out. Timestamps are modelled as a counter that grows with each insert.
- Concurrency and the aliasing of the shared settings dictionary: each service is one object whose methods run one at a time.
- `Common.Upper`/`Common.Lower`: ASCII letters only; Python's full Unicode case mapping is not modelled.
- FrontendHelpers.LanguageLabel: object prototype keys such as "toString" (which JavaScript's lookup would find) are not modelled.
- FrontendHelpers.LanguageName: likewise, `names[lang]` at helpers.ts:16 finds inherited keys such as "constructor" or "toString" and returns that function instead of the code; the model treats every code outside zh, en and fr as falling through.
- Common.Chat: a Gemini reply is modelled as a string or an exception, but `response.text` may be None (backend/workflow/interpretation.py:11,50, backend/process/interpretation.py:58), and backend/process/agent.py:101 returns such a None as the interpretation. The model has no None reply.
- ProcessAgent.AutomatedAnalysisAgent.Run: the diagnostic prints at backend/process/agent.py:69, 89 and 104 are not modelled; only the values returned are.
- PdfOcr.ExtractPages: the progress prints at src/process/pdf_ocr.py:47 and 49 are not modelled. The prints at lines 65, 87 and 94 belong to that file's `main`, which is not part of this model.
- FrontendHelpers.FormatStampUnguarded and Cli.Preview have no contract of their own. Their properties are stated by `GuardOnlyAffectsMissingStamps` and the three preview lemmas.
- WorkflowAgent.InterpretationPrompt: the workflow node looks language codes up without upper-casing them (unlike the process and translation builders), and the model keeps that.
- `langgraph`'s checkpointing, streaming and message reducers: only `invoke` on this fixed graph is modelled.
- The web frontend's components and the demo scripts are outside the core.

## Findings

| source | as written | input that shows it | evidently intended | confidence | as-written member | corrected member |
|---|---|---|---|---|---|---|
| backend/use_cases.py:59-63 | the history row is built with `target_language=`, which `History` (backend/database.py:11-21) has no column for; the TypeError is caught at lines 68-69, so `logosai analyze` (backend/cli.py:61) always exits 1, assuming the schema records that backend/schema/analyze_schema.py lacks exist (as written, importing them fails before any command runs) | any request with a configured key for which the workflow returns a non-empty interpretation | `History` has a `target_language` column, so the interpretation is saved with the reader's language and returned with success | not executed | UseCases.RunAnalysisAsWritten | UseCases.RunAnalysis |
| backend/services/analysis_service.py:45-55 | the interpretation is a string, but the handler reads `.summary` and the other structured fields from it | any request with a configured key for which the workflow returns a non-empty interpretation | the interpretation text is saved and returned | not executed | ServicesAnalysis.AnalysisService.AnalyzeTextAsWritten | ServicesAnalysis.AnalysisService.AnalyzeText |
