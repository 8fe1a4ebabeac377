# SEO analyzer: request pipeline and suggestion display

A Dafny model of the two pieces of logic in the SEO analyzer web application.

- **The backend route `POST /analyze_seo`** (backend/server.js) checks that `url` and `target_keyword` are present. It extracts the visible text of the page with a headless browser and builds a prompt around that text and the keyword. It posts the prompt to the Gemini generation API and answers with the text it picks out of the API's response. A failed browser call, a failed POST or a response of the wrong shape becomes a fixed sentence inside a 200 answer; only a throw from `browser.close()` escapes both steps and becomes a 500. The browser, the HTTP client and Express are replaced by outcomes given as parameters:
  - `BrowserEnv` says how each browser call ends;
  - the API is a function from the prompt to a `Completion` (a returned response, or a throw);
  - the handler returns the calls it made, in order, as a sequence of `Effect`s.
- **The form component** (seo-analyzer/src/SeoForm.js) keeps five state fields, modelled as a class. It submits the inputs and stores either the suggestions or an error message. It renders the suggestion text line by line as headings, bullets and paragraphs. The result of `fetch` is a `FetchOutcome` given to the submit handler.

JavaScript semantics are written out where the code depends on them:
- `split("\n")`, `startsWith`, and `replace` with a global pattern, scanned left to right without overlap;
- `trim`, with the white space set of sections 12.2 and 12.3 of ECMA-262;
- truthiness of strings and of missing JSON properties;
- optional chaining, which does not guard a plain index such as `parts[0]`;
- a `finally` block whose throw overrides the value of the `catch` block.

Modules, one per file: `Runtime` (shared value types), `JsStrings`, `SuggestionFormatter`, `SeoFormComponent`, `ContentExtractor`, `ReportGenerator`, `RequestHandler`, `ClientServer`.

The model follows the code in these details, where a reader might expect otherwise:
- the empty line is shown as an empty paragraph, not skipped;
- a bullet loses every `*` in the line, not only its marker;
- an empty `candidates` array is truthy in JavaScript, so it gives "No response from AI." and not the "Invalid response" message;
- a 500 answer is reachable: it happens when `browser.close()` throws in the `finally` block.

## Model

| member | source | states |
|---|---|---|
| JsStrings.StartsWith | seo-analyzer/src/SeoForm.js:60-62 | `startsWith` holds exactly when the text is at least as long as the prefix and agrees with it at every position of the prefix |
| JsStrings.Split | seo-analyzer/src/SeoForm.js:59 | `split("\n")` yields at least one segment, and no segment contains a line feed |
| JsStrings.SplitCount | seo-analyzer/src/SeoForm.js:59 | the number of segments is the number of line feeds plus one |
| JsStrings.JoinSplit | seo-analyzer/src/SeoForm.js:59 | joining the segments with `"\n"` gives back the input, so nothing but the line feeds is dropped |
| JsStrings.SplitJoin | seo-analyzer/src/SeoForm.js:59 | converse: any non-empty list of line-feed-free segments is what splitting its join returns |
| JsStrings.RemoveStars | seo-analyzer/src/SeoForm.js:63 | `replace(/\*/g, "")` leaves no `*`, shortens the text by its number of asterisks, and keeps the count of every other character |
| JsStrings.RemoveStarsAppend | seo-analyzer/src/SeoForm.js:63 | removing asterisks from a concatenation is removing them from each part: the kept characters keep their order |
| JsStrings.RemoveStarsChar | seo-analyzer/src/SeoForm.js:63 | a single `*` is removed and any other single character is kept; with `RemoveStarsAppend` this fixes the result for every text |
| JsStrings.RemoveStarsIdempotent | seo-analyzer/src/SeoForm.js:63 | removing asterisks twice is the same as removing them once |
| JsStrings.RemoveDoubleStars | seo-analyzer/src/SeoForm.js:61 | `replace(/\*\*/g, "")` leaves no `**`, and a text not starting with `*` keeps its first character |
| JsStrings.RemoveDoubleStarsOnlyStars | seo-analyzer/src/SeoForm.js:61 | removing `**` pairs deletes only asterisks: the text without asterisks is the same before and after |
| JsStrings.RemoveDoubleStarsLength | seo-analyzer/src/SeoForm.js:61 | removing `**` pairs never lengthens the text and removes an even number of characters |
| JsStrings.RemoveDoubleStarsNoop | seo-analyzer/src/SeoForm.js:61 | a text without `**` is unchanged |
| JsStrings.TripleStar | seo-analyzer/src/SeoForm.js:61 | the scan runs left to right without overlap: `***x` gives `*x`, `****` gives the empty string |
| JsStrings.TrimStart | seo-analyzer/src/SeoForm.js:63 | the result is a suffix of the input, everything dropped is white space, and the result does not start with white space |
| JsStrings.TrimEnd | seo-analyzer/src/SeoForm.js:63 | the result is a prefix of the input, everything dropped is white space, and the result does not end with white space |
| JsStrings.Trim | seo-analyzer/src/SeoForm.js:63 | `trim()` returns a slice of the input with only white space on either side, and the slice neither starts nor ends with white space |
| JsStrings.TrimEmpty | backend/server.js:47 | `content.trim()` is empty exactly when the content is all white space |
| SuggestionFormatter.FormatLine | seo-analyzer/src/SeoForm.js:60-66 | a line is a heading exactly when it starts with `**`, a bullet exactly when it starts with `*` but not `**`, and a paragraph otherwise. A heading's text is the line with its `**` pairs removed, and holds no `**`. A bullet's text is the line with every `*` removed and then trimmed: it sits in that text between white space only, and holds no `*`. A paragraph's text is the line itself |
| SuggestionFormatter.Format | seo-analyzer/src/SeoForm.js:59-67 | the formatter emits one block per line: the number of line feeds plus one |
| SuggestionFormatter.FormatInOrder | seo-analyzer/src/SeoForm.js:59-67 | block i is the formatting of line i, so nothing is dropped, merged or reordered |
| SuggestionFormatter.LineKind | seo-analyzer/src/SeoForm.js:60-66 | heading exactly when the line starts with `**`; bullet exactly when it starts with `*` and not `**`; paragraph otherwise; the three cases are disjoint |
| SuggestionFormatter.HeadingText | seo-analyzer/src/SeoForm.js:60-61 | a line starting with `**` is a heading whose text is the line with its `**` pairs removed; that text holds no `**` and differs from the line only by asterisks |
| SuggestionFormatter.BulletText | seo-analyzer/src/SeoForm.js:62-63 | a bullet's text is the line without asterisks, trimmed: it sits in that text between white space only, holds no `*`, and has no white space at either end |
| SuggestionFormatter.ParaUnchanged | seo-analyzer/src/SeoForm.js:64-65 | a line not starting with `*`, including the empty line, is a paragraph with its text unchanged |
| SuggestionFormatter.FormatRoundTrip | seo-analyzer/src/SeoForm.js:59-67 | if no line starts with `*`, joining the block texts with `"\n"` gives back the input |
| SuggestionFormatter.CarriageReturnKept | seo-analyzer/src/SeoForm.js:59 | only `"\n"` splits: `"a\r\nb"` gives the paragraphs `"a\r"` and `"b"` |
| SeoFormComponent.Settle | seo-analyzer/src/SeoForm.js:24-32 | after the request settles, at most one of suggestions and error is non-empty. The error is non-empty exactly when the request did not end with an ok response. Ok: the body's suggestions. Not ok: the body's error, or "Something went wrong." if that is falsy. Throw: "Failed to connect to the server." |
| SeoFormComponent.SeoForm.constructor | seo-analyzer/src/SeoForm.js:5-9 | the initial state: empty inputs and messages, not loading |
| SeoFormComponent.SeoForm.SetUrl | seo-analyzer/src/SeoForm.js:43 | the URL input sets `url` and nothing else |
| SeoFormComponent.SeoForm.SetKeyword | seo-analyzer/src/SeoForm.js:46 | the keyword input sets `keyword` and nothing else |
| SeoFormComponent.SeoForm.BeginSubmit | seo-analyzer/src/SeoForm.js:13-15 | before the request, loading is on and both messages are cleared; the inputs are unchanged |
| SeoFormComponent.SeoForm.ApplyOutcome | seo-analyzer/src/SeoForm.js:24-32 | from the cleared state, the outcome sets the two messages as `Settle` says and changes nothing else |
| SeoFormComponent.SeoForm.HandleSubmit | seo-analyzer/src/SeoForm.js:11-36 | sends `{url, target_keyword}` from the inputs; afterwards loading is off, the messages are as `Settle` says, and the render never shows both the error and the results |
| SeoFormComponent.SeoForm.Render | seo-analyzer/src/SeoForm.js:49-67 | the button reads "Analyzing..." only while loading; the error is shown exactly when it is non-empty; the results are shown exactly when the suggestions are non-empty and nothing is loading, and they are the formatted suggestion text, one block per line |
| ContentExtractor.ExtractPageContent | backend/server.js:27-43 | returns the page text when launch, newPage, goto and evaluate all succeed, else the fallback sentence. Each browser call is made only after the one before it succeeded. A launched browser is closed on every path, as the last call and exactly once; a browser whose launch failed is never closed. An exception escapes exactly when close throws |
| ReportGenerator.EffectiveContent | backend/server.js:47-49 | all-white-space content becomes the placeholder sentence; any other content is kept unchanged; the result is never blank |
| ReportGenerator.PlaceholderNotBlank | backend/server.js:48 | the placeholder sentence is not blank |
| ReportGenerator.BuildPrompt | backend/server.js:51-76 | the prompt's length is its fixed text plus one copy of the content plus four copies of the keyword |
| ReportGenerator.PromptFrame | backend/server.js:51-76 | the prompt opens with the expert instruction and ends with the last example line |
| ReportGenerator.PromptHoldsContent | backend/server.js:51-55 | the prompt contains the content verbatim, after the first keyword and before the second |
| ReportGenerator.PromptHoldsKeyword | backend/server.js:51-76 | the prompt contains the keyword verbatim at four increasing, non-overlapping offsets (lines 52, 70 twice, 72) |
| ReportGenerator.SelectText | backend/server.js:86-90 | no truthy `candidates`: "Invalid response from Gemini API.". Content present but `parts` absent: a throw. Otherwise: the first part's text if it exists and is non-empty, else "No response from AI." |
| ReportGenerator.Suggestion | backend/server.js:78-93 | a throwing POST gives "There was an error generating SEO suggestions.", and so does content without `parts`; no truthy `candidates` gives "Invalid response from Gemini API."; a missing or empty first text gives "No response from AI."; a non-empty first text is passed on unmodified; the result is never empty |
| ReportGenerator.RequestSuggestions | backend/server.js:78-94 | the POST and the selection run inside one `try`, so the result is `Suggestion` of the POST's completion: a throw from either becomes the generation error |
| ReportGenerator.SeoAnalysis | backend/server.js:46-95 | posts the prompt built on the substituted content and the keyword, and resolves to the string selected from the API's answer |
| RequestHandler.Complete | backend/server.js:101 | a request passes the check exactly when neither field is absent or the empty string |
| RequestHandler.AnalyzeSeo | backend/server.js:98-114 | 400 with "URL and target keyword are required." exactly when a field is missing or falsy, with no browser or API call. For a complete request: 500 with "Error analyzing the URL." exactly when a launched browser fails to close, and 200 otherwise, with the generated suggestions, after the extraction's calls and exactly one POST of the prompt. A 200 carries suggestions and every other status one of the handler's two error sentences |
| RequestHandler.FallbackReachesPrompt | backend/server.js:39 | when extraction fails, the prompt is built on the extraction's fallback sentence itself, which is not replaced by the placeholder |
| ClientServer.Delivered | seo-analyzer/src/SeoForm.js:18-29 | `response.ok` holds exactly for a 2xx status, and the parsed body has the `suggestions` property exactly for a suggestions reply and `error` exactly for an error reply, each with the handler's text |
| ClientServer.ReplyReachesForm | seo-analyzer/src/SeoForm.js:24-32 | a 200 reply's suggestions become the form's suggestions; the error text of a 400 or 500 reply is shown as it is, never the generic message |
| ClientServer.SubmitToServer | seo-analyzer/src/SeoForm.js:11-36 | one submission end to end: an empty input leaves the server's required-fields sentence as the form's error and makes no call; a failing close leaves "Error analyzing the URL."; otherwise the form shows the suggestions generated from the page text and its keyword, with no error |

## Left out

- src/pages/Index.tsx, the simulated-data variant of the form: its analysis comes from `Math.random()`, its URL check delegates to the WHATWG URL parser, and it waits on an artificial timer.
- Puppeteer, axios, Express routing, CORS, dotenv, the start-up check for the API key, and `app.listen`: these are foreign calls or configuration. Their outcomes are parameters of the model.
- The Gemini endpoint URL, the API key in its query string, and the request envelope `{ contents: [{ parts: [{ text }] }] }`: the model posts the prompt string itself.
- `console.error` and `console.log`: logging only.
- Async scheduling, React's batching of state updates, and concurrent submissions: each handler is modelled as one sequential run.
- JSX markup, CSS classes, element keys, `e.preventDefault()`, and the `required` attribute of the inputs. The browser's form validation is not modelled, so `HandleSubmit` accepts empty inputs.
- JSON values that are not strings: request fields, `suggestions`, `error` and the API's `text` are strings or missing. A `null` candidate or part is treated like one without `content` or `text`, which gives the same result. A `candidates` value that is truthy but not an array, and a request without a JSON body, are not modelled.
- The 500 path through `content.trim()`: extraction always yields a string in the model, so `trim` cannot throw. The only escaping exception is a throw from `browser.close()`.
- JsStrings.RemoveDoubleStars: its contract (no `**` left, only asterisks removed, an even number of them) does not by itself determine the result. The exact left-to-right scan is its definition, and `TripleStar` pins down the overlapping cases.
- Strings: Dafny's `char` is a Unicode scalar value, while JavaScript strings are UTF-16 code units and may hold lone surrogates. No surrogate is white space, `*` or a line feed, so the string operations modelled here treat them as any other character would be treated.
- A reply whose JSON body is `null`: reading `data.suggestions` or `data.error` throws inside the `try` of `handleSubmit`, which ends exactly like a failed `fetch`, so `FetchOutcome` folds it into `Failed`; the handler never sends such a body.
