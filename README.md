# Auditronix audit pipeline, modelled in Dafny

Auditronix is a web application that audits Solidity smart contracts with a
large language model. A contract typed into the landing page's editor is
posted to `POST /api/analyze`. There it goes through these steps:

- The endpoint parses the JSON body and takes its `contract` field.
- It builds an `AuditService` from the API key in the environment.
- The service validates the text.
- The validated text is placed into a fixed prompt, which goes to the
  Together AI chat-completions endpoint.
- The reply is unwrapped into an array of result sections.
- Every failure becomes an `APIError` with a code, a message, an HTTP status
  and a retry flag, and the endpoint answers with a JSON response.

The browser then reads the result in several places:

- The live demo splits the suggestions into numbered items and colours the
  metric scores.
- The dashboard loads the result from browser storage and shows score cards.
- The PDF export lays the report out on pages with a single cursor.
- The code editor colours keywords and cycles a highlighted line.
- The progress checklist ticks items off one at a time.

This project models that pipeline and its consumers, one Dafny module per
source file:

- Untyped JavaScript values are the `Js.Value` datatype.
- Thrown values are `Exceptions.Thrown`.
- Results that can fail are `Wrappers.Result` and `Option`.
- The pure parts are functions with contracts and lemmas.
- The stateful parts are classes whose methods state their whole new state:
  - the live demo component;
  - the dashboard page;
  - the code editor;
  - the checklist;
  - the PDF document and its cursor.

The pure parts are:

- validation;
- the error table;
- prompt building;
- the provider client's classifiers;
- the response builders;
- the endpoint's decision tree;
- suggestion parsing;
- section lookup;
- colour bands and status labels.

Calls the model cannot see are function parameters:

| parameter | stands for |
|---|---|
| `fetch` | the network |
| `decode` | `JSON.parse` |
| `encode`, `stringify` | `JSON.stringify` |
| `show` | `String(v)` and template-literal interpolation |
| `wrap` | jsPDF's line wrapping |

The environment, browser storage and the date are plain values.

Modules:

| module | file |
|---|---|
| `Js` | JavaScript values |
| `Wrappers` | `Result` and `Option` |
| `Text` | `trim`, `toLowerCase`, `includes`, `split`, `padStart`, `String(n)` on ASCII text |
| `MatchScan` | global regular-expression `match` |
| `ContractValidator` | lib/validation/contract-validator.ts |
| `ApiErrors` | lib/errors/api-errors.ts |
| `PromptText`, `AuditPrompt` | lib/prompts/audit-prompt.ts |
| `TogetherAi` | lib/services/together-ai-service.ts |
| `AuditService` | lib/services/audit-service.ts |
| `HttpUtils` | lib/utils/http-utils.ts |
| `Exceptions`, `AnalyzeRoute` | app/api/analyze/route.ts |
| `AuditSections` | the section lookup shared by the result pages |
| `LiveDemoSection` | components/live-demo-section.tsx |
| `PdfExport` | lib/pdf-export.ts |
| `DashboardPage` | app/dashboard/page.tsx |
| `Scorecards` | components/scorecards.tsx |
| `CodeEditor` | components/code-editor.tsx |
| `AnimatedChecklist` | components/animated-checklist.tsx |
| `Constants` | lib/constants.ts |

## Model

| member | source | states |
|---|---|---|
| ApiErrors.CreateAuthError | lib/errors/api-errors.ts:4-23 | 401 gives INVALID_API_KEY/401 and 403 gives FORBIDDEN/403; any other status is the unknown error with that status (500 for 0) and the default message; never retryable; always well-formed |
| ApiErrors.CreateRateLimitError | lib/errors/api-errors.ts:25-32 | RATE_LIMIT_EXCEEDED, 429, retryable, well-formed |
| ApiErrors.CreateServerError | lib/errors/api-errors.ts:34-41 | SERVER_ERROR, always 503 whatever the status argument, retryable |
| ApiErrors.CreateValidationError | lib/errors/api-errors.ts:43-50 | INVALID_REQUEST, 422, not retryable |
| ApiErrors.CreateTimeoutError | lib/errors/api-errors.ts:52-59 | TIMEOUT, 408, retryable |
| ApiErrors.CreateNetworkError | lib/errors/api-errors.ts:61-68 | NETWORK_ERROR, 503, retryable |
| ApiErrors.CreateParseError | lib/errors/api-errors.ts:70-77 | PARSE_ERROR, 502, retryable |
| ApiErrors.CreateInvalidResponseError | lib/errors/api-errors.ts:79-86 | INVALID_RESPONSE, 502, retryable |
| ApiErrors.CreateConfigurationError | lib/errors/api-errors.ts:88-95 | SERVICE_MISCONFIGURED, 503, not retryable |
| ApiErrors.CreateUnknownError | lib/errors/api-errors.ts:97-104 | the message or the default and the status or 500: an absent or empty message and an absent or zero status fall back; not retryable |
| ApiErrors.CodeNameInjective | lib/errors/api-errors.ts:8-99 | distinct codes have distinct code strings |
| ApiErrors.NonRetryableCodes | lib/errors/api-errors.ts:11-102 | the non-retryable codes are exactly the key, permission, request, configuration and unknown errors |
| ContractValidator.NewValidationError | lib/validation/contract-validator.ts:3-12 | the error keeps its code and message; the status defaults to 400 |
| ContractValidator.Validate | lib/validation/contract-validator.ts:18-70 | each check in order: falsy gives MISSING_CONTRACT, non-string INVALID_CONTRACT_TYPE, blank EMPTY_CONTRACT, under 10 trimmed characters CONTRACT_TOO_SMALL, over 50000 raw characters CONTRACT_TOO_LARGE with 413, no keyword INVALID_SOLIDITY; all other errors 400; success returns the trimmed text, within the bounds and containing a keyword |
| ContractValidator.SomeIncludedIff | lib/validation/contract-validator.ts:85 | `keywords.some(k => text.includes(k))` holds exactly when some keyword occurs at some index |
| ContractValidator.ValidateAcceptsExactly | lib/validation/contract-validator.ts:18-86 | validation succeeds exactly on strings whose trimmed text has 10 to 50000 characters, whose raw text has at most 50000, and whose lower-cased trimmed text contains a keyword; the result is the trimmed text |
| ContractValidator.EmptyStringIsMissing | lib/validation/contract-validator.ts:20-25 | the empty string is falsy, so it is reported as MISSING_CONTRACT and never as EMPTY_CONTRACT |
| ContractValidator.WhiteSpaceOnlyIsEmpty | lib/validation/contract-validator.ts:36-42 | a non-empty whitespace-only text gives EMPTY_CONTRACT, "Contract code cannot be empty", 400 |
| ContractValidator.NoKeywordRejected | lib/validation/contract-validator.ts:61-67 | a size-valid text containing no keyword gives INVALID_SOLIDITY with its message and 400 |
| ContractValidator.ValidateIdempotent | lib/validation/contract-validator.ts:36-69 | the validated text validates again to itself |
| ContractValidator.PragmaPrefixIsSolidity | lib/validation/contract-validator.ts:72-86 | a text starting with "pragma solidity" passes the keyword test |
| ContractValidator.AcceptedWithPragmaPrefix | lib/validation/contract-validator.ts:18-70 | a text with non-blank ends, an accepted size and a leading pragma is returned unchanged |
| ContractValidator.DemoContractAccepted | lib/constants.ts:1-34 | the bundled demo contract passes validation unchanged |
| AuditPrompt.IndexOf | lib/prompts/audit-prompt.ts:65 | the index found is the first occurrence at or after the start; none is found exactly when the pattern occurs nowhere from there |
| AuditPrompt.Replace | lib/prompts/audit-prompt.ts:65 | `String.prototype.replace` with a string pattern; a text where the pattern never occurs comes back unchanged |
| AuditPrompt.ReplaceFirst | lib/prompts/audit-prompt.ts:65 | only the first occurrence is replaced, by the expanded replacement, with the text around it unchanged |
| AuditPrompt.ExpandDollarFree | lib/prompts/audit-prompt.ts:65 | a replacement text without `$` is inserted as it is |
| AuditPrompt.ExpandPatterns | lib/prompts/audit-prompt.ts:65 | `$&`, `$$`, `` $` `` and `$'` expand to the match, one `$`, the text before and the text after |
| AuditPrompt.PlaceholderExactlyOnce | lib/prompts/audit-prompt.ts:2 | `{CONTRACT}` occurs in the template exactly once, right after its 147-character head |
| AuditPrompt.BuildAuditPromptExpands | lib/prompts/audit-prompt.ts:64-66 | the prompt is the head, the expanded contract, then the tail |
| AuditPrompt.BuildAuditPromptVerbatim | lib/prompts/audit-prompt.ts:64-66 | a contract without `$` is embedded verbatim in place of the 10 placeholder characters |
| AuditPrompt.MatchedPattern | lib/prompts/audit-prompt.ts:64-66 | the contract `$&` gives back the template itself |
| AuditPrompt.DollarPattern | lib/prompts/audit-prompt.ts:64-66 | the contract `$$` is embedded as a single `$` |
| AuditPrompt.BeforePattern | lib/prompts/audit-prompt.ts:64-66 | the contract `` $` `` repeats the head |
| AuditPrompt.AfterPattern | lib/prompts/audit-prompt.ts:64-66 | the contract `$'` repeats the tail |
| AuditPrompt.GetMetrics | lib/prompts/audit-prompt.ts:68-79 | eight pairwise-distinct names, equal to the metric names the template lists, in its order |
| PromptText.TailLines | lib/prompts/audit-prompt.ts:2-62 | every `{` after the placeholder opens a line of the JSON format, so the placeholder cannot occur again in the tail |
| PromptText.TemplateSections | lib/prompts/audit-prompt.ts:7-58 | the format the template asks for names the "Audit Report", "Metric Scores" and "Suggestions for Improvement" sections, in that order, the names the result consumers look up |
| TogetherAi.NewService | lib/services/together-ai-service.ts:10-14 | an empty key throws the configuration error; any other key is kept |
| TogetherAi.BuildHeaders | lib/services/together-ai-service.ts:46-51 | a bearer token made of the key, and the JSON content type |
| TogetherAi.BuildRequest | lib/services/together-ai-service.ts:53-65 | the fixed model, and one user message whose content is the prompt |
| TogetherAi.BuildRequestFormat | lib/services/together-ai-service.ts:62 | the reply format asked for is a JSON object |
| TogetherAi.BuildRequestTemperature | lib/services/together-ai-service.ts:63 | the temperature is 0.3 |
| TogetherAi.RequestFor | lib/services/together-ai-service.ts:21-29 | a POST to the endpoint with the service's headers, whose body encodes the request built from the audit prompt of the contract |
| TogetherAi.FallbackMessage | lib/services/together-ai-service.ts:91 | a non-empty string `error.message` of the body is used; a falsy one gives "HTTP <status>: <statusText>" |
| TogetherAi.MappedError | lib/services/together-ai-service.ts:75-87 | 401/403 give the auth error, 429 the rate limit, 422 the validation error, 500/502/503/504 the server error, and no other status is mapped; every mapped error is well-formed |
| TogetherAi.HandleApiError | lib/services/together-ai-service.ts:67-94 | a mapped status gives its error; otherwise an unparseable body gives an unknown error with "Unknown error", a JSON `null` body a TypeError, and any other body an unknown error with the reply's status (500 for 0) and the `FallbackMessage` of that body; every result is well-formed |
| TogetherAi.UnparseableBodyMessage | lib/services/together-ai-service.ts:69-73 | an unmapped status with a body that is not JSON reports "Unknown error" |
| TogetherAi.StatusLineMessage | lib/services/together-ai-service.ts:88-92 | an unmapped status whose body has no error message reports the status line |
| TogetherAi.ParseResponse | lib/services/together-ai-service.ts:96-115 | a nullish envelope throws a TypeError; success means truthy choices, first choice, message and content whose decoding is exactly the returned array; a missing link or a non-array gives INVALID_RESPONSE and content that does not decode gives PARSE_ERROR |
| TogetherAi.ParseEnvelope | lib/services/together-ai-service.ts:98-114 | for truthy content in an envelope: content that does not decode gives PARSE_ERROR; a decoded non-array gives INVALID_RESPONSE; a decoded array is returned unchanged |
| TogetherAi.EmptyEnvelopeInvalid | lib/services/together-ai-service.ts:98-100 | empty content, or an empty choices array, is an invalid response |
| TogetherAi.HandleError | lib/services/together-ai-service.ts:117-140 | in this order: AbortError gives TIMEOUT; ENOTFOUND or ECONNREFUSED give NETWORK_ERROR; a value with a truthy code and status is passed on; anything else is an unknown error with the value's own message |
| TogetherAi.HandleErrorKeepsApiErrors | lib/services/together-ai-service.ts:128-131 | every well-formed factory error is passed on unchanged |
| TogetherAi.HandleErrorYieldsApiError | lib/services/together-ai-service.ts:117-140 | what comes out is always a well-formed API error, given that an API error going in is |
| TogetherAi.Settle | lib/services/together-ai-service.ts:31-43 | the outcome of the call, with `handleAPIError` awaited; every failure is a well-formed API error |
| TogetherAi.SettleAsWritten | lib/services/together-ai-service.ts:31-43 | the outcome of the call as written, where line 34 throws the unawaited Promise; every failure is still an API error |
| TogetherAi.AsWrittenLosesStatus | lib/services/together-ai-service.ts:33-35 | as written, every reply that is not ok ends in UNKNOWN_ERROR with status 500 and the default message, whatever its status and body; on every other outcome the two versions agree |
| TogetherAi.InvalidKeyReply | lib/services/together-ai-service.ts:33-35 | a 401 reply: as written an unknown 500 error, awaited INVALID_API_KEY with 401 |
| TogetherAi.NotOkReplyKeepsItsError | lib/services/together-ai-service.ts:33-43 | awaited, a reply that is not ok ends in the error `handleAPIError` gives for it |
| TogetherAi.OkReplyParseFailureKept | lib/services/together-ai-service.ts:37-42 | an ok reply whose envelope `parseResponse` rejects with an API error ends in that same error, passed on unchanged by `handleError` |
| TogetherAi.OkNullBody | lib/services/together-ai-service.ts:37-42 | an ok reply whose body is JSON `null` ends as an unknown error carrying the TypeError message for reading `choices` |
| TogetherAi.UnmappedNullBody | lib/services/together-ai-service.ts:33-42 | a reply that is not ok, with an unmapped status and a JSON `null` body, ends as an unknown error carrying the TypeError message for reading `error` |
| TogetherAi.SettleSucceedsIff | lib/services/together-ai-service.ts:33-38 | the call succeeds exactly on an ok reply with a JSON envelope that parses, and returns the parsed array |
| TogetherAi.RejectedFetch | lib/services/together-ai-service.ts:40-43 | a rejected fetch is a timeout, a network error or an unknown error with the rejection's message |
| TogetherAi.UnparseableOkReply | lib/services/together-ai-service.ts:37-43 | an ok reply whose body is not JSON is an unknown error with the SyntaxError message |
| TogetherAi.RejectedKeyClient | lib/services/together-ai-service.ts:16-44 | if the provider answers every request with 401, then whatever the contract the client as written throws the unknown error, and awaited the invalid-key error |
| AuditService.NewAuditService | lib/services/audit-service.ts:9-14 | a missing or empty key throws the configuration error; otherwise the client holds the key |
| AuditService.Create | lib/services/audit-service.ts:29-32 | the service exists exactly when TOGETHER_AI_API_KEY is set and non-empty, and its client holds that key; otherwise the configuration error |
| AuditService.AnalyzeContract | lib/services/audit-service.ts:16-27 | a validation error is thrown as it is; otherwise the result is the client's answer for the trimmed text, passed on unchanged |
| AuditService.InvalidContractSkipsProvider | lib/services/audit-service.ts:18 | on a validation failure the provider is never consulted: any two providers give the same validation failure |
| AuditService.ProviderSeesTrimmedText | lib/services/audit-service.ts:18-21 | two valid inputs with the same trimmed text get the same outcome |
| AuditService.DemoContractReachesProvider | lib/services/audit-service.ts:18-21 | the bundled demo contract reaches the provider unchanged |
| Exceptions.PropertyOfNullish | app/api/analyze/route.ts:17 | reading a property of `null` or `undefined` throws a TypeError with no code and no status |
| Exceptions.DestructureNullish | app/api/analyze/route.ts:17 | destructuring `contract` out of a `null` or `undefined` body throws a TypeError with no code and no status |
| Exceptions.ErrorShapeCarriers | app/api/analyze/route.ts:38 | only validation errors and API errors can have a truthy code, status and message, and every well-formed API error does |
| HttpUtils.ErrorFieldsRead | lib/utils/http-utils.ts:6-13 | the message, code and retry flag read back from an error body, whatever fields follow |
| HttpUtils.CreateErrorResponse | lib/utils/http-utils.ts:5-15 | the error's own status, message, code and retry flag |
| HttpUtils.CreateValidationErrorResponse | lib/utils/http-utils.ts:17-26 | the validation error's status, message and code; never retryable |
| HttpUtils.CreateSuccessResponse | lib/utils/http-utils.ts:28-37 | status 200, the data unchanged, and exactly the three no-cache headers |
| HttpUtils.CreateJsonParseErrorResponse | lib/utils/http-utils.ts:39-48 | 400 INVALID_JSON, "Invalid JSON in request body", not retryable |
| HttpUtils.CreateInternalErrorResponse | lib/utils/http-utils.ts:50-60 | 500 INTERNAL_ERROR with the default message, not retryable; `details` is the error's message in development and absent otherwise |
| HttpUtils.DetailsOnlyInDevelopment | lib/utils/http-utils.ts:56 | outside development no `details` is sent; in development it is the message |
| AnalyzeRoute.Respond | app/api/analyze/route.ts:25-45 | the catch block in order: a validation error gets its validation response; otherwise a value with a truthy code, status and message is an API error and gets its response; anything else the internal error |
| AnalyzeRoute.Post | app/api/analyze/route.ts:7-46 | a body that is not JSON gets INVALID_JSON; a nullish body the internal error for the failed destructuring; otherwise a missing key is answered by the catch block, and the analysis result is answered with 200 or its error by the catch block |
| AnalyzeRoute.MalformedBodyRejected | app/api/analyze/route.ts:10-15 | a body that is not JSON is answered 400 INVALID_JSON, not retryable |
| AnalyzeRoute.SuccessfulAnalysis | app/api/analyze/route.ts:20-23 | a valid contract whose analysis succeeds is answered 200 with the provider's array and no-cache headers |
| AnalyzeRoute.ValidationErrorAnswered | app/api/analyze/route.ts:32-35 | a contract that fails validation is answered with the validator's status (413 exactly when too large) and code, never retryable |
| AnalyzeRoute.MissingContractField | app/api/analyze/route.ts:17-21 | a body without `contract` is answered 400 MISSING_CONTRACT |
| AnalyzeRoute.MissingKeyAnswered | app/api/analyze/route.ts:20 | without a key the answer is 503 SERVICE_MISCONFIGURED, not retryable, whatever the contract |
| AnalyzeRoute.NullBodyAnswered | app/api/analyze/route.ts:17 | a JSON `null` body is answered 500 INTERNAL_ERROR, with the TypeError message only in development |
| AnalyzeRoute.ProviderErrorAnswered | app/api/analyze/route.ts:37-40 | a well-formed API error from the provider is answered with its own response, status and code |
| AnalyzeRoute.PromiseOutcomeAnswer | app/api/analyze/route.ts:37-40 | the response to the unknown error thrown as written is 500 UNKNOWN_ERROR, not retryable |
| AnalyzeRoute.RejectedKeyAnswer | app/api/analyze/route.ts:37-40 | the response to the invalid-key error is 401 INVALID_API_KEY, not retryable |
| AnalyzeRoute.RejectedKeyAsWritten | lib/services/together-ai-service.ts:33-35 | end to end with the client as written: a provider rejecting the key with 401 gets the endpoint's answer for the unknown error, not for the invalid key |
| AnalyzeRoute.RejectedKeyAwaited | lib/services/together-ai-service.ts:33-35 | end to end with `handleAPIError` awaited: the endpoint answers with the invalid-key response |
| AuditSections.Normalize | app/dashboard/page.tsx:46 | an array is used as it is; an object gives its values flattened one level (`Js.Flat` of `Js.ObjectValues`), so an object of single sections gives those values in key order |
| AuditSections.NormalizeField | app/dashboard/page.tsx:46 | a one-field object gives the items of its value when that is an array (the `{report: [...]}` shape), and the value alone otherwise |
| AuditSections.NormalizeFieldsAppend | app/dashboard/page.tsx:46 | the sections of an object are those of its leading fields followed by those of the rest, so with `NormalizeField` every object is covered |
| Js.FlatSingle | app/dashboard/page.tsx:46 | `[v].flat()` is the items of an array `v`, and `[v]` for any other value |
| Js.FlatAppend | app/dashboard/page.tsx:46 | flattening a concatenation is concatenating the flattened parts |
| Js.ObjectValuesAppend | app/dashboard/page.tsx:46 | the values of concatenated field lists are their values in turn |
| AuditSections.Find | app/dashboard/page.tsx:47 | "none found" exactly when no element is nullish or named; a found section is the first named one; a nullish element met before any named one throws the TypeError for reading `section`, and every element before it is neither nullish nor named |
| AuditSections.FindFirstNamed | lib/pdf-export.ts:9-11 | with no nullish element before it, the first section of that name is the one found |
| MatchScan.Spans | components/live-demo-section.tsx:71 | every span is a marker of the pattern followed by the longest run of characters that do not stop it |
| MatchScan.SpansLeftmost | components/live-demo-section.tsx:96 | the spans are ordered and do not overlap, and no match starts before the first span, between two spans or after the last one |
| MatchScan.Matches | components/live-demo-section.tsx:120 | `s.match(/…/g)`: one string per span, the text of that span, in order |
| MatchScan.Strip | lib/pdf-export.ts:103 | a leading marker is removed and the rest trimmed; without a leading marker the text is only trimmed |
| MatchScan.Stripped | components/live-demo-section.tsx:76 | each match stripped of its marker and trimmed, in order, one for one |
| Text.TrimEnds | lib/validation/contract-validator.ts:36 | a trimmed text is empty or has non-whitespace at both ends |
| Text.TrimEmptyIff | lib/validation/contract-validator.ts:36-42 | the trimmed text is empty exactly when every character is whitespace |
| Text.TrimKeepsInner | lib/validation/contract-validator.ts:36 | a text with non-whitespace at both ends is left as it is |
| Text.TrimIdempotent | lib/validation/contract-validator.ts:36 | trimming twice is trimming once |
| Text.ToLower | lib/validation/contract-validator.ts:84 | same length, each character lower-cased on its own |
| Text.IncludesIff | lib/validation/contract-validator.ts:85 | `includes` holds exactly when the pattern occurs at some index |
| Text.SplitOnLength | lib/pdf-export.ts:199 | splitting on a character gives one piece more than there are separators |
| Text.SplitOnPieces | components/code-editor.tsx:25 | no piece contains the separator |
| Text.SplitOnJoin | components/code-editor.tsx:39 | joining the pieces with the separator gives back the text |
| Text.NatToStringRoundTrip | lib/pdf-export.ts:202 | the decimal digits written for a number read back as that number |
| Text.PadStart | lib/pdf-export.ts:202 | the text is right-aligned to the width with the fill character, and kept whole when already wider |
| Text.SplitSentencesPieces | components/live-demo-section.tsx:144 | no piece of `split(/\.\s+/)` contains a period followed by whitespace |
| LiveDemoSection.NumberedItems | components/live-demo-section.tsx:73-92 | each card is a later match numbered one past its index with the text left after stripping; every match with text left has its card; the badges increase |
| LiveDemoSection.NumberedCons | components/live-demo-section.tsx:77-90 | a match with text left adds its card, numbered by its index, in front of the later ones |
| LiveDemoSection.KeptSentences | components/live-demo-section.tsx:144 | exactly the pieces that are non-blank and longer than ten characters are kept |
| LiveDemoSection.KeptSentencesSingle | components/live-demo-section.tsx:144 | one piece is kept exactly when it passes the test |
| LiveDemoSection.KeptSentencesAppend | components/live-demo-section.tsx:144-145 | the kept pieces of a concatenation are the kept pieces of each part in turn; with the single-piece law this is `filter`, keeping order and multiplicity, so `sentences.length` counts every kept piece |
| LiveDemoSection.SentenceItems | components/live-demo-section.tsx:145-158 | one card per kept piece, numbered in order, its trimmed text followed by a period |
| LiveDemoSection.FormatSuggestions | components/live-demo-section.tsx:56-167 | the placeholder exactly for falsy content; otherwise the first of the "(n)", "$$n$$" and "n." formats with more than one match, then the sentences when more than one is kept, then the trimmed text as one block |
| LiveDemoSection.ItemsAreNonEmpty | components/live-demo-section.tsx:77 | every card rendered shows a non-empty text, and the badges increase |
| LiveDemoSection.ScoreOrZero | components/live-demo-section.tsx:214 | a falsy score is 0 and a number is itself |
| LiveDemoSection.BandFor | components/live-demo-section.tsx:219-225 | for a numeric score: emerald exactly at 8 or more, yellow exactly from 6 below 8, red exactly below 6; a missing score is red |
| LiveDemoSection.BandMonotone | components/live-demo-section.tsx:219-225 | a higher score never gets a lower band |
| LiveDemoSection.MetricCard | components/live-demo-section.tsx:204-230 | a card exactly for a non-nullish entry: titled by its truthy `metric` or "Unknown Metric", the description exactly when it is truthy, `score || 0` written before "/10", a bar width of ten times a numeric score (0 for a falsy one) and the band of the score; a nullish entry throws on reading `metric` |
| LiveDemoSection.MetricCards | components/live-demo-section.tsx:193-234 | one card per metric in order, or the error of the first entry that throws; with no nullish entry it never throws |
| LiveDemoSection.CardsFailureShift | components/live-demo-section.tsx:194 | a failure among the later metrics after a first card that renders is a failure of some metric |
| LiveDemoSection.CardsSuccessShift | components/live-demo-section.tsx:194 | the first card followed by the later cards are the cards of all metrics |
| LiveDemoSection.SectionViewOf | components/live-demo-section.tsx:187-252 | a nullish section throws; "Metric Scores" shows the cards of array details (or the first entry's error) and no cards otherwise; "Suggestions for Improvement" is formatted; any other section shows its string details, or their indented JSON |
| LiveDemoSection.MetricsSectionShowsCards | components/live-demo-section.tsx:191-234 | a "Metric Scores" section of entries that are not nullish shows exactly one card per entry, in order |
| LiveDemoSection.SectionViews | components/live-demo-section.tsx:182 | one view per section in order, or the error of the first section that throws |
| LiveDemoSection.RenderAuditResults | components/live-demo-section.tsx:169-175 | nothing exactly for falsy results; otherwise the views of the normalised sections |
| LiveDemoSection.RunOutcome | components/live-demo-section.tsx:26-50 | the data exactly when the reply is ok and its body decodes; an error body shows `data.error` or "Analysis failed"; a `null` or `undefined` error body shows the TypeError message for reading `error`; a failed request or body shows its own message |
| LiveDemoSection.ErrorResponseShown | components/live-demo-section.tsx:39-41 | an error response of the endpoint shows that error's own message |
| LiveDemoSection.SuccessResponseDelivered | components/live-demo-section.tsx:43 | a success response of the endpoint delivers the analysis unchanged |
| LiveDemoSection.MissingErrorFallsBack | components/live-demo-section.tsx:40 | an error body without `error` shows "Analysis failed" |
| LiveDemoSection.LiveDemo.constructor | components/live-demo-section.tsx:14-18 | idle, results hidden, no results, no error, the given contract in the editor |
| LiveDemoSection.LiveDemo.SetContract | components/live-demo-section.tsx:308 | the editor text becomes the new code; nothing else changes |
| LiveDemoSection.LiveDemo.BeginRun | components/live-demo-section.tsx:22-24 | analyzing, results hidden, error cleared; results, contract and storage unchanged |
| LiveDemoSection.LiveDemo.CompleteRun | components/live-demo-section.tsx:37-53 | on success the data is shown and both storage keys are written; otherwise the message is kept and results and storage are untouched; analyzing ends on every path |
| LiveDemoSection.LiveDemo.HandleRunAudit | components/live-demo-section.tsx:21-54 | the state after the run is that of the outcome of sending the editor's contract to the endpoint |
| LiveDemoSection.Mount | components/live-demo-section.tsx:18 | the component starts idle with the demo contract in the editor |
| LiveDemoSection.RunThenOpenDashboard | components/live-demo-section.tsx:46-48 | a dashboard opened after a successful run finds that run's data and contract and stops loading |
| DashboardPage.GetMetricScores | app/dashboard/page.tsx:42-50 | `[]` without audit data; otherwise the truthy `details` of the first "Metric Scores" section of the normalised result, `[]` when there is none or its details are falsy, or the error of a nullish section met first; a success is always truthy |
| DashboardPage.MetricScoresOfFirstSection | app/dashboard/page.tsx:46-49 | an array result gives the details of its first "Metric Scores" section |
| DashboardPage.MetricScoresOfObject | app/dashboard/page.tsx:46 | an object result is searched through its values flattened one level |
| DashboardPage.MetricsOverview | app/dashboard/page.tsx:111 | the cards of `getMetricScores()` handed untyped to `Scorecards`: the default cards without audit data, and never more than eight cards |
| DashboardPage.StringDetailsThrow | app/dashboard/page.tsx:111 | string metric details pass `metrics.length > 0`, and then `map` throws a `TypeError` |
| DashboardPage.ObjectDetailsShowDefaults | app/dashboard/page.tsx:111 | object metric details without a `length` field fail the length test, so the default cards are drawn |
| DashboardPage.TypedDetailsShowCards | app/dashboard/page.tsx:111 | up to eight details entries of the declared `MetricScore` shape give one card each, in order |
| DashboardPage.Dashboard.constructor | app/dashboard/page.tsx:16-18 | no data, no contract, loading |
| DashboardPage.Dashboard.Load | app/dashboard/page.tsx:20-39 | saved results that parse replace the data and a parse failure leaves it; a saved contract replaces the contract; loading ends; storage is only read |
| DashboardPage.Dashboard.ClearResults | app/dashboard/page.tsx:57-62 | both keys leave storage and nothing else does; data and contract are emptied |
| DashboardPage.Dashboard.ExportResults | app/dashboard/page.tsx:52-55 | no export exactly without audit data; otherwise the report is generated from the data and the contract |
| DashboardPage.ClearThenReload | app/dashboard/page.tsx:57-62 | after clearing, loading again finds nothing and nothing is exported |
| Scorecards.IconFor | components/scorecards.tsx:57 | the table's icon for a listed name; the inherited `Object.prototype` member for a name such as "toString"; the shield otherwise |
| Scorecards.ColorFor | components/scorecards.tsx:58 | the table's colour for a listed name; the text of the inherited member for a name such as "toString"; "emerald" otherwise |
| Scorecards.TableNamesCapitalised | components/scorecards.tsx:8-38 | every name of both tables starts with a capital letter |
| Scorecards.MembersNotCapitalised | components/scorecards.tsx:57-58 | no inherited member starts with a capital letter, so no table entry hides one |
| Scorecards.InheritedNamesSkipFallbacks | components/scorecards.tsx:57-58 | a metric named after an inherited member gets that member as icon and its text as colour, never the shield or "emerald" |
| Scorecards.DisplayMetrics | components/scorecards.tsx:46-56 | the three defaults when no metrics are given; otherwise the first eight metrics in order (all of them when fewer) |
| Scorecards.NormalizedScore | components/scorecards.tsx:59 | a score up to 10 is kept and a larger one divided by 10; a score out of 100 ends up between 0 and 10 |
| Scorecards.NormalizedScoreNotMonotone | components/scorecards.tsx:59 | 11 draws a shorter arc (1.1) than 10 does |
| Scorecards.CardFor | components/scorecards.tsx:57-118 | title, icon and colour from the name, the description only when non-empty, the raw score written and the normalised score drawn |
| Scorecards.Cards | components/scorecards.tsx:56 | one card per shown metric, in order, at most eight |
| Scorecards.RawScoreShown | components/scorecards.tsx:114-118 | a score above 10 is written as it is while a tenth of it is drawn |
| Scorecards.CanonicalIcons | components/scorecards.tsx:8-16 | each of the eight metrics the prompt asks for has its own listed icon |
| Scorecards.CanonicalColors | components/scorecards.tsx:24-32 | each of the eight metrics the prompt asks for has its own listed colour |
| Scorecards.CanonicalMetricsDistinguished | components/scorecards.tsx:8-32 | the eight prompt metrics get eight different icons and eight different colours |
| Scorecards.UnknownNameFallsBack | components/scorecards.tsx:57-58 | a name outside both tables and not inherited gets the shield and "emerald" |
| Scorecards.AsMetricScore | lib/types.ts:9-13 | an entry read as a `MetricScore` only when it is an object with a string `metric` and a number `score`, which it then carries |
| Scorecards.ConvertAll | lib/types.ts:9-13 | every entry of the declared shape as its `MetricScore`, in order |
| Scorecards.FirstNullish | components/scorecards.tsx:56-57 | the first nullish entry, the one whose `metric` the `map` cannot read |
| Scorecards.EntryCards | components/scorecards.tsx:56-58 | the shown entries throw exactly when one is nullish, with the first one's error; entries of the declared shape give one card each, in order; any other entry leaves the drawing unmodelled |
| Scorecards.Shown | components/scorecards.tsx:56 | `slice(0, 8)`: a prefix of at most eight entries, all of them when fewer |
| Scorecards.ScorecardsOf | components/scorecards.tsx:44-58 | `undefined` takes the default `[]`; `null` throws on `length`; a value failing `length > 0` draws the defaults; a non-empty string throws on `map` and an object with a positive `length` on `slice`; a non-empty array draws its first eight entries |
| Scorecards.NoMetricsShowDefaults | components/scorecards.tsx:46-52 | without metrics the three default cards are drawn, in order |
| CodeEditor.Classify | components/code-editor.tsx:77-85 | blue exactly when a declaration keyword is included; purple exactly when not blue and a visibility keyword is included; emerald exactly when neither and a type keyword is included; plain otherwise |
| CodeEditor.TypeKeywordIsEmerald | components/code-editor.tsx:82-83 | the word "uint" on its own is emerald |
| CodeEditor.VisibilityKeywordIsPurple | components/code-editor.tsx:80-81 | the word "public" on its own is purple |
| CodeEditor.CapitalisedKeywordIsPlain | components/code-editor.tsx:78 | matching is case-sensitive: "Pragma" is plain |
| CodeEditor.FirstGroupWins | components/code-editor.tsx:78-83 | a word holding keywords of several groups takes the first group's colour |
| CodeEditor.ClassifyLine | components/code-editor.tsx:74 | one entry per space-separated word, in order, with its colour |
| CodeEditor.LineCount | components/code-editor.tsx:25 | the number of lines is one more than the number of line breaks |
| CodeEditor.LineNumbers | components/code-editor.tsx:39-57 | the listing numbers its lines 1, 2, … one per line |
| CodeEditor.Editor.constructor | components/code-editor.tsx:15-21 | the props as given, `editable` false by default, the code copied to the display and the first line highlighted |
| CodeEditor.Editor.SetCode | components/code-editor.tsx:19-21 | a changed `code` prop overwrites the displayed text; an unchanged one leaves it |
| CodeEditor.Editor.SetAnalyzing | components/code-editor.tsx:23-31 | only the analyzing flag changes |
| CodeEditor.Editor.Tick | components/code-editor.tsx:26-28 | while analyzing the highlight moves to the next line of the `code` prop, wrapping to the first; otherwise nothing changes |
| CodeEditor.Editor.HandleCodeChange | components/code-editor.tsx:33-37 | the displayed text becomes the new text, which is passed to `onChange` exactly when one is given |
| CodeEditor.MountReadOnly | components/code-editor.tsx:41-62 | without `editable` the textarea is never shown, no line is highlighted unless analyzing, and the lines are numbered 1 to their count |
| CodeEditor.TickWhileAnalyzing | components/code-editor.tsx:23-31 | any number of ticks while analyzing keeps the highlight on an existing line |
| AnimatedChecklist.Checklist.constructor | components/animated-checklist.tsx:18 | nothing is completed |
| AnimatedChecklist.Checklist.Tick | components/animated-checklist.tsx:22-27 | below six items the next index is appended; at six nothing changes; the completed items only grow |
| AnimatedChecklist.Checklist.TickTimes | components/animated-checklist.tsx:20-31 | after n ticks the number completed is the old number plus n, capped at six; the list only grows |
| AnimatedChecklist.CompleteIff | components/animated-checklist.tsx:49-60 | item i is drawn complete exactly when it is among the first completed ones |
| AnimatedChecklist.ProgressToEnd | components/animated-checklist.tsx:8-31 | from a fresh checklist six ticks complete every item and further ticks change nothing |
| Constants.DemoShape | lib/constants.ts:1-34 | the demo contract starts with its pragma, ends with a brace and has fewer than 3000 characters |
| PdfExport.ScoreOf | lib/pdf-export.ts:59 | `metric?.score ?? 0`: a nullish score becomes 0 and any other score is kept; never nullish |
| PdfExport.StatusOf | lib/pdf-export.ts:60 | for a numeric score: EXCELLENT exactly at 8 or more, GOOD exactly from 6 below 8, NEEDS IMPROVEMENT exactly from 4 below 6, CRITICAL exactly below 4 |
| PdfExport.MetricStatus | lib/pdf-export.ts:59-60 | a metric without a score is CRITICAL; a numeric score gets its status |
| PdfExport.StatusMonotone | lib/pdf-export.ts:60 | a higher score never gets a worse status |
| PdfExport.NonBlank | lib/pdf-export.ts:108 | exactly the non-blank pieces are kept, never more of them |
| PdfExport.NonBlankSingle | lib/pdf-export.ts:108 | one piece is kept exactly when its trimmed text is not empty |
| PdfExport.NonBlankAppend | lib/pdf-export.ts:108 | the non-blank pieces of a concatenation are those of each part in turn; with the single-piece law this is `filter`, keeping order and multiplicity |
| PdfExport.Trimmed | lib/pdf-export.ts:109 | each piece trimmed, one for one |
| PdfExport.StrippedItems | lib/pdf-export.ts:95 | each array item with its leading `$$n$$` removed and trimmed, one for one |
| PdfExport.ParseSuggestions | lib/pdf-export.ts:87-110 | `[]` for falsy data; otherwise the stripped items when the text parses as an array, else the stripped `$$n$$` matches when there are at least two, else the non-blank sentences trimmed |
| PdfExport.StripTrimmed | lib/pdf-export.ts:103 | a stripped match is its own trim |
| PdfExport.SuggestionsTrimmed | lib/pdf-export.ts:95-109 | every recommendation produced is its own trim |
| PdfExport.Findings | lib/pdf-export.ts:145-148 | the findings are exactly the non-blank pieces of the sentence split of the report text, never more of them; they are `NonBlank` of that split, so the filter laws fix their order and the numbers they get |
| PdfExport.FindingsAreSentences | lib/pdf-export.ts:148 | no finding contains a period followed by whitespace |
| PdfExport.ListingLine | lib/pdf-export.ts:202 | the number right-aligned to three columns, a space, a bar and a space, then the line unchanged |
| PdfExport.ShortNumber | lib/pdf-export.ts:202 | a line number below 1000 takes at most three digits |
| PdfExport.ListingLineColumns | lib/pdf-export.ts:202 | below 1000 the prefix is exactly six characters: the padded number, which reads back as the line number, then a space, a bar and a space |
| PdfExport.ListingTexts | lib/pdf-export.ts:199-204 | one listing line per source line, numbered from 1 |
| PdfExport.Plan | lib/pdf-export.ts:8-11 | a nullish input throws converting to an object; a nullish section throws in a lookup; otherwise the metrics block exactly when its details are an array, the findings and recommendations blocks exactly when their details are truthy, the listing exactly for a non-empty contract, each with its content |
| PdfExport.PlanMetricsOfArray | lib/pdf-export.ts:137-139 | an array input with a first "Metric Scores" section whose details are an array gets those metrics |
| PdfExport.Pdf.constructor | lib/pdf-export.ts:6-24 | one empty page, the cursor at 20 |
| PdfExport.Pdf.Draw | lib/pdf-export.ts:39 | one text placed on the current page, the cursor unchanged; placed above the bottom margin it keeps the document fitting |
| PdfExport.Pdf.AddPage | lib/pdf-export.ts:28-29 | one page more and the cursor at the top margin; nothing drawn |
| PdfExport.Pdf.CheckNewPage | lib/pdf-export.ts:26-31 | a new page exactly when the space would reach past the bottom margin; on a tall enough page the space then fits |
| PdfExport.Pdf.AddWrappedText | lib/pdf-export.ts:33-43 | as written: line i at y + i * spacing, the result y + lines * spacing, the page checked against a cursor that never moves |
| PdfExport.Pdf.PlaceLine | lib/pdf-export.ts:37-40 | the page check for one line, the line at the cursor, the cursor one spacing down |
| PdfExport.Pdf.AddWrappedTextPaged | lib/pdf-export.ts:33-43 | every wrapped line is drawn in order; each follows the line before one spacing lower or at the top of the next page; on a tall enough page each keeps the room it asked for |
| PdfExport.Pdf.AddLines | lib/pdf-export.ts:134 | the wrapped lines are drawn with the corrected `AddWrappedTextPaged` wrapping, and on a tall enough page they fit |
| PdfExport.Pdf.AddSectionHeader | lib/pdf-export.ts:45-55 | the title drawn after 25 units of room, the cursor 20 lower, on the same page or a new one |
| PdfExport.Pdf.AddMetricHead | lib/pdf-export.ts:58-74 | after 30 units of room the title and the status, which fit on a tall enough page |
| PdfExport.Pdf.AddMetric | lib/pdf-export.ts:57-85 | the metric's head line, then its wrapped description when it has one |
| PdfExport.Pdf.AddMetrics | lib/pdf-export.ts:139 | the texts of every metric, in order |
| PdfExport.Pdf.AddFinding | lib/pdf-export.ts:150-162 | a non-blank finding draws its number and its trimmed text with a period; a blank one draws nothing |
| PdfExport.Pdf.AddFindings | lib/pdf-export.ts:150 | the texts of every finding, in order |
| PdfExport.Pdf.AddSuggestion | lib/pdf-export.ts:171-186 | a non-blank recommendation draws its badge number and its wrapped text; a blank one draws nothing |
| PdfExport.Pdf.AddSuggestions | lib/pdf-export.ts:171 | the texts of every recommendation, in order |
| PdfExport.Pdf.AddListing | lib/pdf-export.ts:200-204 | every numbered source line, in order, each after its page check |
| PdfExport.Pdf.AddTitle | lib/pdf-export.ts:112-129 | the banner, date and auditor lines on the current page; the cursor ends at 76 |
| PdfExport.Pdf.AddIntro | lib/pdf-export.ts:131-135 | the title texts, the summary header and the wrapped summary |
| PdfExport.Pdf.AddMetricsBlock | lib/pdf-export.ts:137-141 | the metrics header and every metric, only when there are metrics |
| PdfExport.Pdf.AddFindingsBlock | lib/pdf-export.ts:143-165 | the findings header and every finding, only when there are findings |
| PdfExport.Pdf.AddSuggestionsBlock | lib/pdf-export.ts:167-189 | the recommendations header and every recommendation, only when there are some |
| PdfExport.Pdf.AddListingBlock | lib/pdf-export.ts:191-205 | the listing header and the numbered lines, only for a non-empty contract |
| PdfExport.Pdf.AddBlocks | lib/pdf-export.ts:137-205 | the four optional blocks in the report's order |
| PdfExport.Pdf.AddDisclaimer | lib/pdf-export.ts:207-217 | its header and the wrapped disclaimer on a new page |
| PdfExport.Pdf.AddBody | lib/pdf-export.ts:112-217 | every text of the report up to the footer, in order; with the corrected `AddWrappedTextPaged` wrapping they fit on a tall enough page |
| PdfExport.Pdf.AddFooter | lib/pdf-export.ts:219-227 | the two closing texts 10 and 20 below the cursor, with nothing earlier changed and no page check |
| PdfExport.Render | lib/pdf-export.ts:6-227 | a new document holding every text of the plan and then the footer; with the corrected `AddWrappedTextPaged` wrapping, on a page at least 81 high every text before the footer lies above the bottom margin |
| PdfExport.GenerateReport | lib/pdf-export.ts:3-230 | the lookups either throw the plan's error before anything is drawn, or the document holds every text of the plan and the footer |
| PdfExport.GenerateFromData | lib/pdf-export.ts:231-238 | any error of the report becomes "Failed to generate PDF report"; otherwise the same document |
| PdfExport.AsWrittenOverflow | lib/pdf-export.ts:37-42 | as written, on an A4 page with the cursor at 200, the last of 20 lines at spacing 6 lands at 314, below the page |

## Left out

- The network call, the `AbortController` and its 60-second timer, and `fetch` itself are not modelled. The call is a parameter from the request to its outcome (a reply, an abort, a network error or another rejection). The timer and its `clearTimeout` have no logical effect beyond producing an `AbortError`, and that outcome is modelled.
- `JSON.parse` and `JSON.stringify` are parameters (`decode`, `encode`, `stringify`), not implementations. Round trips through storage are stated under the assumption that decoding gives back what encoding wrote.
- Numbers are modelled as mathematical reals, so NaN, infinities and floating-point rounding are left out.
- Temperature 0.3, the progress-bar widths, the score arc length and all animation timings are not modelled, except as constants.
- `PdfExport.StatusOf`: only numbers are compared. Any non-number score, including a numeric string that JavaScript would convert, is treated as failing every comparison and gets CRITICAL.
- `LiveDemoSection.ScoreOrZero`: only falsy values, numbers and `true` are given a number. Any other truthy score, such as a numeric string, is treated as NaN, so `LiveDemoSection.BandFor` gives it the red band.
- `Text.ToLower`: only ASCII letters are lower-cased; `toLowerCase` also maps other letters. `trim` and `\s` use the full JavaScript whitespace set. Lengths count Unicode characters, not UTF-16 code units, so a character outside the Basic Multilingual Plane counts once rather than twice.
- Objects are lists of fields in insertion order. `Object.values` does not move integer-like keys to the front. A repeated key is read by its first entry, whereas `JSON.parse` keeps the last one.
- jsPDF's drawing is reduced to the list of texts placed, each with its page, x and y. Fonts, colours, rectangles, circles and `doc.save` are left out.
- Line wrapping (`splitTextToSize`) is the `wrap` parameter, and the report date is the `date` parameter.
- The unused `lineHeight` constant (lib/pdf-export.ts:24) is not modelled.
- The report and its blocks (`PdfExport.Pdf.AddLines`, `PdfExport.Pdf.AddIntro` for the summary at lib/pdf-export.ts:134, `PdfExport.Pdf.AddMetric`, `PdfExport.Pdf.AddBody` and `PdfExport.Render`) are drawn with the corrected `PdfExport.Pdf.AddWrappedTextPaged`, so their bottom-margin bounds hold for the corrected wrapping, not for the source as written. The as-written `PdfExport.Pdf.AddWrappedText` is modelled and exhibited on its own (see Findings).
- The footer is drawn without a page check, as in the source. `PdfExport.Render` therefore promises the bottom-margin bound only for the texts before the footer.
- `AuditService`: the service is immutable after construction, so it is modelled as a value with a fallible constructor function, not as a class.
- The React rendering itself is reduced to the data rendered: card lists, text blocks and flags. This covers JSX markup, motion animations, links and icons, and the unchanged `code` prop passed down to the editor.
- Intervals and effects are explicit method calls such as `Tick`, `Load` and `SetCode`, not time. An interval's cleanup is not modelled.
- `localStorage`, `process.env` and `NextResponse` are maps and records, and `console` logging is left out.
- Message literals longer than about thirty characters are written as concatenations of short pieces. The message is the text they spell.
- `LiveDemoSection.MetricCard`: the value before "/10" is kept as the value itself. How React turns it into text (numbers in decimal, an object throwing) is not modelled, and neither is the bar width of a non-number score, which is `None`.
- `Scorecards.ScorecardsOf`: entries that are not of the declared `MetricScore` shape give `None`. What React draws for them, and what it does with an inherited member used as the icon component, is not modelled.
- `Scorecards.LengthAboveZero`: an object's `length` counts only when it is a positive number. The other values JavaScript would convert before comparing with 0 are treated as not above 0.
- `TogetherAi.FallbackMessage`: a truthy `error.message` that is not a string is turned into text by the `show` parameter. The source passes the raw value on as the error's message (lib/services/together-ai-service.ts:91).
- `ContractValidator.Validate`: the CONTRACT_TOO_LARGE message is fixed as "(max 50,000 characters)". The source formats the limit with `toLocaleString()` (lib/validation/contract-validator.ts:56), which gives that text only under an en-US style locale.
- The live demo's "$$n$$" branch strips its marker with an unanchored pattern (components/live-demo-section.tsx:100). The model strips the leading marker, and the two agree because every match of that branch starts with its marker.
- The files that hold only presentation or types are not part of this model: the hero, features, logo, scroll handler, layout, landing and demo pages, the animation variants, the API-key modal, the type declarations and the re-export index.
- The content the language model returns is not modelled. The model only covers how its shape is checked and consumed.

## Findings

| source | as written | input that shows it | evidently intended | confidence | as-written member | corrected member |
|---|---|---|---|---|---|---|
| lib/services/together-ai-service.ts:33-35 | `throw this.handleAPIError(response)` throws the Promise returned by the `async` method, which has no `name`, `code` or `statusCode`. `handleError` then turns every non-2xx reply into UNKNOWN_ERROR with status 500 and the default message. | The provider answers 401: the endpoint replies 500 UNKNOWN_ERROR instead of 401 INVALID_API_KEY. | `throw await this.handleAPIError(response)`, so the mapped error (401, 403, 429, 422, 5xx) reaches the caller | high (not executed) | TogetherAi.SettleAsWritten, AnalyzeRoute.RejectedKeyAsWritten | TogetherAi.Settle, AnalyzeRoute.RejectedKeyAwaited |
| lib/pdf-export.ts:33-43 | `addWrappedText` draws line i at `y + i * lineSpacing` from its argument `y`. `checkNewPage` runs against `yPosition`, which the loop never advances, so a long text is never split across pages. A new page added mid-text is ignored by the positions. | An A4 page (297 high), the cursor at 200, a text wrapped into 20 lines at spacing 6: the last line is drawn at 314, below the page. | each line drawn at the advancing cursor after its own page check, so every line stays above the bottom margin | high (not executed) | PdfExport.Pdf.AddWrappedText, PdfExport.AsWrittenOverflow | PdfExport.Pdf.AddWrappedTextPaged |
