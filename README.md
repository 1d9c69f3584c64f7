# ambiorix route handlers in Dafny

This project models the two pieces of deterministic logic in the ambiorix
web application's API routes:

- `POST /api/run-python` (`app/api/run-python/route.ts`). It validates the
  request and stages the uploaded CSV file. Then `processChartInstructions`
  turns a JSON chart instruction (`chartType`, `xAxis`, `yAxis`, `title`,
  `color`, `borderColor`) and the parsed CSV rows into a Chart.js
  configuration. The handler answers 200 with that configuration, 400 when
  file data is missing, or 500 when processing fails.
- `POST /api/chat` (`app/api/chat/route.ts`). It builds a system message
  from the first 1000 characters of the uploaded file and a user message
  from the prompt and the file name. It sends both to the chat model. From
  the reply it takes the greedy `{…}` span (first `{` to last `}`), parses
  it, and derives `answer` and `codeSnippet`. When there is no span or the
  span does not parse, it falls back to the raw reply.

Modules:

- Wrappers: the `Option` type. `None` stands for JavaScript's `undefined`.
- Js: string truthiness, the `||` default, the `String(v)` coercion used for
  property keys and for `JSON.parse`'s argument, property lookup, and `slice`.
- RunPythonRoute: `app/api/run-python/route.ts`.
- ChatRoute: `app/api/chat/route.ts`.

Library and foreign calls are function-typed parameters, so the model
assumes nothing about them:

- `JSON.parse` of the chart instruction: `string -> Option<Instructions>`.
  `None` means it threw, or that reading a field of its result would throw
  (for example, the JSON `null`).
- `parseFloat`: `Option<string> -> F`, with the result type `F` left generic.
- The base64 decode, the UTF-8 read and `Papa.parse` together:
  `string -> seq<Row>`. A row is a map from column name to cell text.
- `request.json()`: an `Option<RunRequest>`. `None` means it threw, or that destructuring its result throws (the JSON `null`).
- The OpenAI chat-completion call: `(system, user) -> Completion`. A
  completion holds either the choices or the message of the thrown error.
- `JSON.parse` of the reply span: `string -> Option<Extracted>`.

Two JavaScript details are modelled explicitly:

- `row[instructions.xAxis]` with `xAxis` absent looks up the key
  `"undefined"`. This is `Js.ToJsString`.
- `JSON.parse(code)` with `code` absent receives the text `"undefined"`.

The Chart.js key `type` is the field `chartType` and the dataset key
`label` is `datasetLabel`, because both names are Dafny keywords.

## Model

| member | source | states |
|---|---|---|
| `Js.Or` | app/api/run-python/route.ts:73 | `v \|\| d` yields `v` exactly when `v` is a non-empty string, and `d` otherwise |
| `Js.ToJsString` | app/api/run-python/route.ts:75 | a key that is present is used as is; an absent one becomes the text "undefined" |
| `Js.Truthy` | app/api/run-python/route.ts:14 | an optional string is truthy exactly when it is present and non-empty |
| `Js.Get` | app/api/run-python/route.ts:75 | on a row whose only properties are its own columns, `row[key]` is defined exactly when the row has that column, and is then that cell |
| `Js.Slice` | app/api/chat/route.ts:29 | `slice(0, n)` is a prefix of the text, of length `min(n, length)` |
| `RunPythonRoute.MapRows` | app/api/run-python/route.ts:75-78 | `rows.map(f)` has one entry per row, and entry i is `f(row_i)` |
| `RunPythonRoute.LabelOf` | app/api/run-python/route.ts:75 | a row's label is its x-axis cell, and is undefined exactly when the row lacks that column |
| `RunPythonRoute.ValueOf` | app/api/run-python/route.ts:78 | a row's value is `parseFloat` of its y-axis cell, or `parseFloat(undefined)` when the row lacks that column |
| `RunPythonRoute.BuildConfig` | app/api/run-python/route.ts:72-98 | `type` is `chartType` when truthy, else "bar". There is one label per row, in order, and label i is `row_i[xAxis]`. There is exactly one dataset. Its label is `yAxis`. It has one value per row, and value i is `parseFloat(row_i[yAxis])`. Colours pass truthy values through and otherwise take the two teal defaults. `borderWidth` is 1, `responsive` and `beginAtZero` are true, and the title is displayed. The title text is `title` when truthy, else "Chart" |
| `RunPythonRoute.ProcessChartInstructions` | app/api/run-python/route.ts:67-101 | the call fails exactly when `JSON.parse(code)` throws; otherwise it yields the configuration built from the parsed instructions |
| `RunPythonRoute.PointsFollowRows` | app/api/run-python/route.ts:75-78 | labels and values have the same length as the rows, and point i is (x-cell, parsed y-cell) of row i |
| `RunPythonRoute.MapRowsAppend` | app/api/run-python/route.ts:75 | mapping rows distributes over concatenation of the row list |
| `RunPythonRoute.ConfigOfAppendedRows` | app/api/run-python/route.ts:72-98 | appending CSV rows appends their labels and values; type, options and dataset label stay the same |
| `RunPythonRoute.MissingFile` | app/api/run-python/route.ts:14 | the request lacks file data exactly when `fileName` or `fileContent` is absent or empty |
| `RunPythonRoute.Post` | app/api/run-python/route.ts:12-63 | a body that is not JSON gives 500 'Failed to process data', with nothing staged; the catch block's cleanup still runs. A falsy `fileName` or `fileContent` gives 400 'Missing file data', with no temp directory and no cleanup. Otherwise the file is staged and cleanup always runs. Malformed instructions give 500 'Failed to process data'. Well-formed instructions give 200 `success: true` with the configuration of the file's rows. `success` holds exactly when the status is 200 |
| `ChatRoute.IndexOf` | app/api/chat/route.ts:68 | finds the first occurrence of the character at or after `from`, or reports that there is none |
| `ChatRoute.LastIndexOf` | app/api/chat/route.ts:68 | finds the last occurrence of the character before `upto`, or reports that there is none |
| `ChatRoute.JsonSpan` | app/api/chat/route.ts:68 | the span starts with `{`, ends with `}` and is at least 2 long. No `{` comes before it and no `}` comes after it. There is no span exactly when no `{` is followed later by a `}` |
| `ChatRoute.JsonSpanIsLeftmostLongest` | app/api/chat/route.ts:68 | the span is the leftmost, then longest, match of `/\{[\s\S]*\}/`; there is no span exactly when there is no match |
| `ChatRoute.WrappedObjectSpan` | app/api/chat/route.ts:68-70 | an object wrapped in brace-free prose is extracted exactly |
| `ChatRoute.SpanText` | app/api/chat/route.ts:70 | `jsonMatch[0]` is exactly the reply's characters over the span; it is at least 2 long, starts with `{` and ends with `}` |
| `ChatRoute.Parsed` | app/api/chat/route.ts:68-70 | without a span nothing is parsed; with one, the parse is of exactly the span's text |
| `ChatRoute.ExtractAnswer` | app/api/chat/route.ts:63-80 | no span: `answer` is the whole reply and `codeSnippet` is ''. Span that does not parse: the same. Span that parses: `answer` is `extracted.answer` when truthy, else 'No answer found.', and `codeSnippet` is `extracted.codeSnippet` when truthy, else '' |
| `ChatRoute.ExtractedAsIsFunctional` | app/api/chat/route.ts:63-80 | the reply and the parser determine `answer` and `codeSnippet` uniquely |
| `ChatRoute.PlaceholderNeverDefault` | app/api/chat/route.ts:63-80 | 'Sorry, could not parse answer.' is returned only when the reply, or the parsed `answer` field, is that text |
| `ChatRoute.ParseFailureMeansRawText` | app/api/chat/route.ts:77-80 | a span that does not parse leaves the raw reply as the answer and no code |
| `ChatRoute.NoBracesMeansRawText` | app/api/chat/route.ts:73-76 | a reply with no `{`, or no `}`, or no `{` before a `}`, is the answer verbatim, with no code |
| `ChatRoute.FullResponse` | app/api/chat/route.ts:55 | the reply is empty exactly when there is no first choice, no message or no truthy content; otherwise it is that content |
| `ChatRoute.EmptyReplyAnswer` | app/api/chat/route.ts:55 | a missing choice or content yields `answer == ''` and `codeSnippet == ''` |
| `ChatRoute.PromptText` | app/api/chat/route.ts:14 | the prompt is passed through when truthy; otherwise it is '' |
| `ChatRoute.FileText` | app/api/chat/route.ts:18-23 | the file's text when a file was sent, else '' |
| `ChatRoute.FileExcerpt` | app/api/chat/route.ts:29 | empty or absent file text gives the fixed placeholder. Otherwise the excerpt is a prefix of the text, at most 1000 characters long, and is all of the text when it is at most 1000 long |
| `ChatRoute.FileExcerptIdempotent` | app/api/chat/route.ts:29 | truncating an excerpt again leaves it unchanged |
| `ChatRoute.SystemMessage` | app/api/chat/route.ts:27-39 | the system message is the fixed head, then exactly the file excerpt, then the fixed tail |
| `ChatRoute.FileLabel` | app/api/chat/route.ts:43 | the file's name when a file was sent, else 'no file' |
| `ChatRoute.UserMessage` | app/api/chat/route.ts:41-44 | the user message holds the prompt text and the file name or 'no file' at fixed positions between the template's fixed parts |
| `ChatRoute.Post` | app/api/chat/route.ts:10-90 | the completion is asked with the system and user messages built from the form. A thrown error gives 500 with its message. Otherwise the response is 200, with `answer` and `codeSnippet` extracted from `choices[0]?.message?.content \|\| ''` |

## Left out

- Temp-file staging and cleanup (`mkdtempSync`, `writeFileSync`, `readFileSync`, `unlinkSync`, `rmdirSync`) are filesystem I/O. `RunPythonRoute.Post` tracks only whether a temp directory was created and whether a cleanup block ran. A failure of these calls, and the swallowed cleanup error, are not modelled.
- `RunPythonRoute.Post`: the `details` field of the 500 response (the thrown error's message) is not modelled, because it comes from library errors.
- CSV parsing by `Papa.parse` and the base64 decode: a third-party library, taken as a parameter that yields the rows.
- `JSON.parse` and `parseFloat` internals: library calls, and `parseFloat` produces floating-point values. Both are abstract parameters. Fields whose JSON value is not a string (numbers, `null`, objects) are not modelled; every field is a string or absent. This covers the instruction and reply fields and also the request body's `code`, `fileName` and `fileContent`. So a truthy non-string `fileName`, which passes the guard and then makes `path.join` throw after the temp directory exists, is not modelled. Neither is a `code` object, which `JSON.parse` receives as "[object Object]".
- The OpenAI client and the `formData` plumbing are a network and foreign API. The completion call is a parameter, and the form is given as already-read values. `file.text()` failing and errors thrown outside the completion call are not modelled.
- `Js.Slice`: JavaScript counts `slice(0, n)` in UTF-16 code units; the model counts Unicode characters.
- `ChatRoute.FileExcerpt`: for the same reason, its 1000-character bound is in characters, not UTF-16 code units.
- `Js.Get`: properties inherited from `Object.prototype` are not modelled. A row is only its own columns, so `row["constructor"]`, `row["toString"]` or `row["__proto__"]` on a CSV without that column is undefined in the model, where JavaScript yields the inherited value.
- The `runtime = 'edge'` setting and logging (`console.error`) have no behaviour visible in the responses.
- The React components (`components/Chat.tsx`, `components/FileUploader.tsx`, `app/page.tsx`, `components/ChartRenderer.tsx`, `components/GraphRenderer.tsx`) and the stub `app/api/upload/route.ts` are UI and request glue and are not part of this model.
