# LexiConn content health score — a verified model

This project models the logic of a small web application. The application takes a
website URL and asks a hosted generative model for a content-maturity audit. It shows
the audit as a dashboard with a score, five category scores, a radar chart, grounding
sources and an email-gated PDF download. The hosted model, the browser and the
libraries are not modelled. What is modelled is the code around them:

- the URL normalisation on submit (`InputForm`);
- the client-side service that guards the API key and the empty response, clamps every
  score into [0,100], extracts the grounding sources and rethrows errors
  (`GeminiService`);
- the top-level phase state machine over `appState`, `inputs`, `results` and `error`,
  and the substring-based error classifier (`App`);
- the server handler with its guards in order method → URL → key and its greedy
  `{...}` extraction (`AnalyzeApi`);
- the dashboard's email gate, PDF guard and file name, maturity styles, chart data and
  source labels (`Dashboard`);
- the four-step progress ticker (`ProcessingView`).

`Wrappers` holds `Option`/`Result` and the JavaScript truthiness of an optional string.
`Text` holds the JavaScript string operations the code uses (`startsWith`, `includes`
and `trim`), plus two helpers, the first and last index of one character. The code does
not call `indexOf` or `lastIndexOf`. The helpers define the match of `/\{[\s\S]*\}/`
(api/analyze.ts:27) and `split('/')[0]` (components/Dashboard.tsx:83). `Types`
transcribes types.ts.

Conventions:
- A JavaScript value that may be `undefined`, `null` or `""` is an `Option<string>`;
  `Truthy` is false for `None` and for `Some("")`.
- Scores are unbounded `int`.
- `JSON.parse`, the model call, `process.env` and the DOM reference are inputs.
  `GeminiService.CallOutcome` carries the call's outcome: the response text, what
  parsing makes of it, and the grounding chunks.
- The parsed object is `GeminiService.ParsedResult`. Its categories are a map from
  each key of `result.categories` to its value, and each score is optional. The clamping
  loop visits the values one key at a time. The values are independent, so the order of
  `Object.values` does not affect the result, and the model does not fix it.
- The source casts the parsed object to `AnalysisResult` without checking anything.
  `GeminiService.AsAnalysisResult` is the typed object, when the parsed one has the shape
  the cast takes for granted: a scored value under each of the keys `hygiene`,
  `relevance`, `salesTool`, `differentiation` and `advancedStrategy`, and a known maturity
  label. Each typed field is read by its key, as the dashboard reads it. The dashboard
  functions work on this typed object.
- In `GeminiService.Completion`, `parsed` is `Failure(m)` when anything from
  `JSON.parse` to the clamping throws with message `m`. That includes a parse error, and
  a TypeError from a result that is `null` or a primitive or from a `null` category value
  (geminiService.ts:80-90). Each of these reaches the same `catch` at geminiService.ts:104.
- Methods model state-changing handlers and classes model component state cells:
  `App.AppComponent`, `Dashboard.ReportView` and `ProcessingView.Ticker`.

Two facts about the code shape the model:
- The extraction is the greedy regex `/\{[\s\S]*\}/`, not a balanced-brace scan. It
  takes everything from the first `{` to the last `}`. `AnalyzeApi.ExtractJson` models
  this regex.
- No required-key validation is made after parsing. `AnalyzeWebsite` returns whatever
  was parsed, clamped.

## Model

| member | source | states |
|---|---|---|
| Wrappers.OrEmpty | api/analyze.ts:26 | the response text when truthy, otherwise the empty string |
| Text.StartsWith | components/InputForm.tsx:18 | `s.startsWith(p)`: `p` is a prefix of `s` (definition, no contract) |
| Text.Includes | App.tsx:30-38 | `s.includes(sub)`: `sub` occurs at some position of `s` (definition, no contract) |
| Text.Trim | components/InputForm.tsx:17 | the result is a slice of the input with only white space cut from each end; no white space remains at either end; the result is empty exactly when the input is all white space; an input with no edge white space is returned unchanged |
| Text.TrimIdempotent | components/InputForm.tsx:17 | trimming twice equals trimming once |
| Text.MissingCharExcludes | App.tsx:29-38 | a message lacking one character of a pattern does not include that pattern |
| Text.FirstIndexOf | api/analyze.ts:27 | helper behind the regex match and `split('/')[0]`: the index holds the character and none comes before it; None exactly when the character is absent |
| Text.LastIndexOf | api/analyze.ts:27 | helper behind the greedy regex match: the index holds the character and none comes after it; None exactly when the character is absent |
| GeminiService.Clamp | geminiService.ts:83 | the result lies in [0,100]; identity on [0,100]; 0 below and 100 above |
| GeminiService.ClampIdempotent | geminiService.ts:83 | clamping twice equals clamping once |
| GeminiService.ClampCategory | geminiService.ts:88 | a score is present after exactly when before and then lies in [0,100]; a defined score becomes its clamped value, so a category already in range is unchanged; no other field changes |
| GeminiService.ClampAll | geminiService.ts:86-90 | the same keys, and each value clamped under its own key |
| GeminiService.ClampCategoryScores | geminiService.ts:86-90 | the `forEach` loop, updating one value per step, yields exactly the keywise clamped categories, and every score they hold is in range |
| GeminiService.WebSources | geminiService.ts:95-100 | never more sources than chunks |
| GeminiService.WebSourcesAppend | geminiService.ts:95-100 | filter-and-map distributes over concatenation, so the relative order of chunks is kept |
| GeminiService.WebSourcesMembership | geminiService.ts:95-100 | a source is extracted exactly when some chunk has a web reference with that title and uri |
| GeminiService.WebSourcesPositions | geminiService.ts:95-100 | the sources come from exactly the chunks with a web reference: their indices, in increasing order, are the positions of the sources, so there are as many sources as web chunks |
| GeminiService.WebSourcesAllWeb | geminiService.ts:95-100 | when every chunk has a web reference, source i is chunk i's reference |
| GeminiService.Rethrown | geminiService.ts:104-107 | a non-empty message is rethrown unchanged; the fallback is used only for an empty one; the result is never empty |
| GeminiService.Normalized | geminiService.ts:82-101 | the overall score is clamped; categories are clamped when present and stay absent otherwise; the sources are those of the chunks when there are chunks, and as parsed otherwise; every other field is unchanged |
| GeminiService.NormalizedScoresInRange | geminiService.ts:82-90 | after post-processing, the overall score and every present category score lie in [0,100] |
| GeminiService.NormalizedIdempotent | geminiService.ts:82-101 | post-processing a post-processed object with the same chunks changes nothing |
| GeminiService.AnalyzeOutcome | geminiService.ts:9-108 | what `analyzeWebsite` settles to: a missing key fails with the config message; success exactly when there is a key, the call resolved, the text is non-empty and the parse succeeded; a success has every score in [0,100]; no failure message is empty |
| GeminiService.AnalyzeWebsite | geminiService.ts:9-108 | the step-by-step updates give exactly `AnalyzeOutcome`: a missing or empty key fails with the config message before any call; a rejected call or a parse failure fails with the rethrown message; an empty text fails with the empty-response message; otherwise the result is the post-processed object |
| GeminiService.ParseMaturity | types.ts:2-7 | returns the enum member whose label is the string, and is None for any other string |
| GeminiService.AsAnalysisResult | geminiService.ts:80 | the typed object exists exactly when the categories are present, the maturity label is known and each of the five keys holds a scored value; each typed category is the value under its key; the overall score, the label, the sources, the industry, the summary, the strengths, gaps and priority actions and the industry context are all kept |
| GeminiService.TypedViewInRange | geminiService.ts:80-90 | every score of the typed view of a post-processed object lies in [0,100] |
| App.IsAuthError | App.tsx:29-33 | the message includes `API_KEY`, `AUTH_ERROR`, `403` or `401` (definition, no contract) |
| App.IsQuotaError | App.tsx:35-38 | the message includes `429`, `QUOTA` or `RESOURCE_EXHAUSTED` (definition, no contract) |
| App.Classify | App.tsx:28-55 | AUTH exactly when an auth pattern occurs; QUOTA exactly when no auth pattern but a quota pattern occurs; GENERAL otherwise; the user message follows the kind; the raw message is kept as details |
| App.MissingKeyIsAuth | App.tsx:29-45 | the service's missing-key message (geminiService.ts:13) classifies as AUTH with the configuration-error message |
| App.PlainMessageIsGeneral | App.tsx:40-41 | a message with no `_`, `4` or `Q` classifies as GENERAL |
| App.EmptyMessageIsGeneral | App.tsx:28 | a missing message, taken as "", gives GENERAL with the default message |
| App.AppComponent.ShowsDashboard | App.tsx:112 | the render guard: RESULTS with both results and inputs present (definition, no contract) |
| App.AppComponent.constructor | App.tsx:11-14 | starts in INPUT with all other cells null |
| App.AppComponent.Start | App.tsx:17-19 | sets the input, the PROCESSING phase and clears the error; results untouched |
| App.AppComponent.Succeed | App.tsx:23-24 | stores the result and shows RESULTS; from PROCESSING the dashboard then renders |
| App.AppComponent.Fail | App.tsx:51-57 | stores the classified error, returns to INPUT and leaves results and inputs as they were |
| App.AppComponent.Reset | App.tsx:61-66 | from any phase: INPUT with results, inputs and error all null |
| App.AppComponent.HandleStartAnalysis | App.tsx:16-59 | when the service succeeds, ends in RESULTS with exactly that result, no error and the dashboard shown; when it fails, ends in INPUT with the error `Classify(message)` of the service's message and the old results; the input is always the submission; a missing key always ends in an AUTH error |
| InputForm.NormalizeUrl | components/InputForm.tsx:17-20 | the URL is the trimmed input when that starts with `http`, and `https://` plus the trimmed input otherwise; it always starts with `http` |
| InputForm.HandleSubmit | components/InputForm.tsx:13-23 | nothing is submitted exactly when the raw field is empty; otherwise the normalised URL |
| InputForm.NormalizedHasNoEdgeWhiteSpace | components/InputForm.tsx:17-20 | a normalised URL has no white space at either end |
| InputForm.NormalizeIdempotent | components/InputForm.tsx:17-20 | normalising a normalised URL returns it unchanged |
| InputForm.WhiteSpaceOnlySubmitsScheme | components/InputForm.tsx:15-22 | a non-empty all-white-space input passes the guard and submits `https://` |
| InputForm.BareDomainGainsScheme | components/InputForm.tsx:17-22 | `example.com` is submitted as `https://example.com` |
| InputForm.HttpPrefixedDomainKept | components/InputForm.tsx:18 | `httpbin.org` gets no prefix |
| AnalyzeApi.Matches | api/analyze.ts:27 | the pattern matches the slice `s[p..e]`: a `{`, anything, then a `}` (definition, no contract) |
| AnalyzeApi.MatchSpan | api/analyze.ts:27 | the leftmost-longest span of the pattern: none exactly when nothing matches, no match starts earlier, and none at that start is longer |
| AnalyzeApi.ExtractJson | api/analyze.ts:27 | a match exists exactly when some `}` follows some `{`; it runs from the first `{` to the last `}` inclusive; it is exactly the text of the leftmost-longest span |
| AnalyzeApi.ExtractsEmbeddedObject | api/analyze.ts:27 | an object between prose with no `{` before it and no `}` after it is extracted exactly |
| AnalyzeApi.Handler | api/analyze.ts:3-34 | non-POST gives 405; then a missing request body throws; then a falsy URL gives 400; then a falsy key gives 500 "Gemini API key missing"; then a rejected model call throws; then no match gives 500 "Invalid AI response" and a match gives 200 with the extract; the handler throws exactly in those two cases; status 200 exactly when all guards pass, the call answered and the text matches |
| AnalyzeApi.EmptyTextIsInvalid | api/analyze.ts:26-31 | once the guards pass, an absent or empty model text gives 500 "Invalid AI response" |
| Dashboard.MaturityColor | components/Dashboard.tsx:50-57 | the three named levels get their styles; the default style exactly for every other string |
| Dashboard.MaturityStylesDistinct | components/Dashboard.tsx:50-57 | distinct enum levels get distinct styles; Foundational gets the default |
| Dashboard.ChartData | components/Dashboard.tsx:42-48 | five points in the fixed subject order, each with full mark 100 and the matching category score |
| Dashboard.ChartWithinFullMark | components/Dashboard.tsx:42-48 | for a post-processed result every plotted score lies between 0 and its full mark |
| Dashboard.ChartReadsByKey | components/Dashboard.tsx:42-48 | for a parsed object of the typed shape, chart point i plots the score stored under the i-th category key, whatever order the keys were listed in |
| Dashboard.SourceLabel | components/Dashboard.tsx:265 | the title when non-empty, the uri otherwise; empty exactly when both are |
| Dashboard.ShowsSources | components/Dashboard.tsx:257 | the sources block renders for a present, non-empty list (definition, no contract) |
| Dashboard.SourcesShownIffWebChunk | components/Dashboard.tsx:257 | after post-processing with chunks, the sources block shows exactly when some chunk has a web reference |
| Dashboard.StripScheme | components/Dashboard.tsx:83 | one leading `https://` or `http://` is removed, and nothing else changes |
| Dashboard.FirstSegment | components/Dashboard.tsx:83 | a prefix with no `/`, which is the whole text or stops at the first `/` |
| Dashboard.PdfFileName | components/Dashboard.tsx:83 | `LexiConn_Audit_` + the first segment of the scheme-stripped URL + `.pdf` |
| Dashboard.PdfNameOfHost | components/Dashboard.tsx:83 | for `https://host/path` and `https://host` the file is named after the host |
| Dashboard.ReportView.constructor | components/Dashboard.tsx:37-39 | starts locked, with no email and not generating |
| Dashboard.ReportView.SetEmail | components/Dashboard.tsx:183 | stores the typed address and nothing else |
| Dashboard.ReportView.HandleUnlock | components/Dashboard.tsx:59-65 | unlocks exactly when the address contains `@`; an unlocked report stays unlocked |
| Dashboard.ReportView.BeginDownloadPdf | components/Dashboard.tsx:72-73 | starts exactly when the report is mounted and unlocked, and then sets the generating flag; otherwise changes nothing |
| Dashboard.ReportView.FinishDownloadPdf | components/Dashboard.tsx:74-88 | saves under the PDF file name when rendering succeeded; clears the generating flag either way |
| Dashboard.ReportView.HandleDownloadPdf | components/Dashboard.tsx:71-89 | a no-op while locked or unmounted; otherwise never left generating, and the file is saved only when rendering succeeded |
| ProcessingView.Next | components/ProcessingView.tsx:17 | from a valid step, the result is `min(step + 1, 3)` and stays within the four steps |
| ProcessingView.StatusOf | components/ProcessingView.tsx:39-40 | active exactly at the counter, done exactly below it, pending exactly above it |
| ProcessingView.ExactlyOneActive | components/ProcessingView.tsx:37-40 | for a counter on one of the four steps, the set of active steps is exactly that step |
| ProcessingView.AfterTicksSaturates | components/ProcessingView.tsx:13-17 | after n ticks from 0 the counter is `min(n, 3)` |
| ProcessingView.AfterTicksMonotone | components/ProcessingView.tsx:17 | more ticks never give a lower counter |
| ProcessingView.Ticker.constructor | components/ProcessingView.tsx:13 | the counter starts at 0 |
| ProcessingView.Ticker.Tick | components/ProcessingView.tsx:16-17 | the counter becomes `min(old + 1, 3)`, never decreases, stays at 3 once there, and stays in [0,3] |
| ProcessingView.Ticker.Status | components/ProcessingView.tsx:37-40 | within the four steps, the step at the counter is the active one |

## Left out

- The hosted model call, the Gemini SDK, `process.env`, the HTTP request and response
  objects, and console logging are external I/O. They appear only as parameters.
- `JSON.parse` is a foreign library. In the service its outcome is an input. In the
  handler, `ParsedJson(t)` stands for `JSON.parse(t)`. The uncaught parse failure at
  api/analyze.ts:33 is therefore not modelled.
- AnalyzeApi.Handler: a throw is modelled as `Unhandled`, with no message. The missing
  body (api/analyze.ts:8) and the rejected model call (api/analyze.ts:21-24) are the two
  throws modelled. What the hosting runtime then replies is not modelled.
- The TypeErrors that geminiService.ts:84-88 raises on a `null` or primitive parse
  result, or on a `null` category value, are not modelled as separate inputs. They are
  folded into the `Failure` case of the parse outcome, and they reach the same rethrow.
  A category value that is a non-null primitive is not modelled at all. Its `score`
  reads as `undefined`, so the source skips it.
- The prompt templates at geminiService.ts:19-61 are constant text that embeds the URL;
  they are not modelled.
- html2canvas, the jsPDF page arithmetic and `window.open` are foreign libraries and
  browser I/O. The rasterising outcome is the boolean `rendered` parameter.
- Rendering, JSX, the Tailwind class strings other than the maturity styles, and the
  `Math.round` display are presentation.
- components/ScoreCard.tsx (a floating-point stroke offset) and components/Header.tsx
  (markup) are not part of this model.
- GeminiService.Clamp: scores are integers, so the NaN behaviour of `Math.max` and
  `Math.min` and fractional scores are not modelled.
- The 4000 ms interval and its teardown are not modelled. Time is a sequence of
  `Ticker.Tick` calls.
- App.AppComponent.HandleStartAnalysis: it models one submission run to completion with
  no other event in between. Concurrent submissions and a reset during the await are not
  modelled. `Succeed` is a separate method, so a success after `Reset` can still be
  expressed; the render guard at App.tsx:112 is what keeps the dashboard hidden then.
- `Source.title` and `uri` are strings, with `""` standing for a missing title. A
  `title` of `undefined`, which the source allows through, is not distinguished from `""`.
- The chart subject `Strategy` differs from the category name `Advanced Strategy`. The
  model keeps both as the source writes them.
- The classification of the service's empty-response and fallback messages is not
  proved. Neither contains any pattern, so both would classify as GENERAL.
