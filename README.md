# LLM Summarizer — a Dafny model

The repository is a small text summariser. A Flask service (`backend/app.py`) takes text as JSON, or a PDF, DOCX or TXT upload as a multipart form. It picks the BART or T5 summarisation pipeline, clamps the output length to the word count, and stores every summary in a SQLite `summaries` table. It serves that table back newest first on `/history` and empties it on `/clear`. Two React clients drive it:

- `App.js` posts JSON for typed text and multipart for files.
- `Summarizer.js` always posts multipart and has different error handling.

The model covers:

- **Shared pieces.**
  - `common.dfy`: `Option`, `Result`, `Min`, `Max`.
  - `text.dfy`: Python's whitespace set (`str.isspace`) and JavaScript's (`trim`), written out code point by code point. Also `strip`/`trim`, Python's argument-less `split`, the 150-character history preview and ASCII `toUpperCase`.
  - `wire.dfy`: the requests, replies and history items exchanged, and the effects a client has on the page (alerts, confirmations, requests sent, the busy button, downloads).
- **The service** (`service.dfy`).
  - Flask's routing of three of the four decorated routes (all but the `/` greeting).
  - `get_model` and the output-length clamp.
  - The validation of `/summarize` as a function `Validate`, and step by step as the methods `ReadSubmission` and `ReadUpload`.
  - The table as a class `SummaryTable` with an AUTOINCREMENT counter and the methods `Summarize`, `History` and `Clear`.
  - `secure_filename`, the file readers and the pipelines are function values passed in `Services`.
- **The clients.**
  - `App.js` is the class `AppView.App` (`app_view.dfy`).
  - `Summarizer.js` is the class `SummarizerView.Summarizer` (`summarizer_view.dfy`).
  - Both are modelled as written, including where they disagree with each other.
  - Each handler takes the way its awaited request settles as a parameter.
  - Each handler records its effects in an `effects` sequence.
  - Each handler's new state is tied to a specification function (`AfterReply`, `ReplyEffects`, `LoadedHistory`, `FetchedHistory`).
- **Interop** (`interop.dfy`). It joins the two sides: how Flask sees what each client posts, and how each client reads what the service answers. The lemmas there show:
  - Text typed into `Summarizer.js` is always refused with "No file uploaded".
  - Both clients' delete and clear requests reach no handler (404 and 405).
  - U+001C passes `App.js`'s guard but is refused by the service.
  - A refusal reads as "Server Error!" in one client and as "Failed to generate summary." in the other.

## Model

| member | source | states |
|---|---|---|
| Text.TrimStart | backend/app.py:158 | the result is a suffix of the input, every dropped character is whitespace, and the result does not start with whitespace |
| Text.TrimEnd | backend/app.py:158 | the result is a prefix of the input, every dropped character is whitespace, and the result does not end with whitespace |
| Text.Strip | backend/app.py:158 | `strip()`/`trim()` never lengthens the string |
| Text.StripTrimsBothEnds | backend/app.py:158 | what `strip()` leaves is a prefix of the input without its leading whitespace and has no whitespace at either end |
| Text.StripEmptyIffBlank | backend/app.py:158 | `strip()`/`trim()` gives the empty string exactly when every character is whitespace |
| Text.TakeWord | backend/app.py:167 | the first word is the longest whitespace-free prefix, non-empty when the input starts with a non-space |
| Text.Split | backend/app.py:167 | `split()` gives no more words than the text has characters |
| Text.SplitGivesWords | backend/app.py:167 | every piece `split()` returns is non-empty and holds no whitespace |
| Text.SplitEmptyIffBlank | backend/app.py:167 | `split()` yields no words exactly when the text is all whitespace |
| Text.TrimStartKeepsWordStarts | backend/app.py:167 | leading whitespace starts no word: stripping it keeps the number of word starts |
| Text.BoundariesAfterWord | backend/app.py:167 | in a text that starts with a word, the later word starts are exactly those of what follows that word |
| Text.SplitCountsWordStarts | backend/app.py:167 | `len(text.split())`, the word count behind `max_length`, equals the number of positions where a non-whitespace character starts the text or follows whitespace |
| Text.Preview | frontend/src/App.js:284-286 | the preview is the first min(len, 150) characters of the text followed by "...", and is the whole text plus "..." when it is short |
| Text.ToUpper | frontend/src/components/Summarizer.js:88 | upper-casing keeps the length and maps each character through the ASCII capital |
| Service.Dispatch | backend/app.py:95 | POST /summarize, GET /history and POST /clear reach their handlers; another method on those paths is 405; a /delete/<id> path is 404 |
| Service.GetModel | backend/app.py:55-56 | a name in `models` picks its pipeline, any other name falls back to BART, and T5 is chosen exactly for "t5" |
| Service.MaxLength | backend/app.py:167-169 | `max_length` lies in [50, 130], equals half the word count when that is in range, and is clamped to the nearer bound otherwise |
| Service.MaxLengthMonotone | backend/app.py:169 | more words never give a smaller `max_length` |
| Service.RequestedModel | backend/app.py:110 | the `model` member or part when present, otherwise "bart" |
| Service.ReaderFor | backend/app.py:137-153 | a selected reader's extension ends the name, and no reader is selected exactly when none of .pdf, .docx and .txt does |
| Service.ReaderForMatchesExtension | backend/app.py:137-153 | a reader is selected exactly when the sanitised name ends with its extension, so at most one matches |
| Service.UnsupportedIffNoExtension | backend/app.py:149-153 | no reader is selected exactly when the name ends in none of .pdf, .docx and .txt |
| Service.CheckText | backend/app.py:158-162 | text is accepted exactly when it has a non-whitespace character, then with at least one word and the model name unchanged; otherwise 400 "No text found in file" |
| Service.UploadText | backend/app.py:114-153 | a missing file part is 400 "No file uploaded", an empty filename 400 "Empty file", and an empty sanitised name a 500 from the failing save |
| Service.Validate | backend/app.py:98-162 | a JSON string `text`, or the text read from an upload, is accepted as is with the requested model (default "bart") exactly when it is not all whitespace, and is otherwise 400 "No text found in file"; an upload refusal passes through unchanged; a JSON `text` that is not a string, or an unparsable JSON body, is 500 "Server error"; every refusal is one of the five error replies |
| Service.FormRefusalIgnoresServices | backend/app.py:116-125 | a form without a usable file is refused with 400 before any collaborator is consulted |
| Service.UnsupportedFileTypeIff | backend/app.py:149-153 | an upload is refused as unsupported exactly when its non-empty sanitised name has none of the three extensions |
| Service.UploadReadByMatchingReader | backend/app.py:137-147 | an upload yields what the reader for its extension makes of its bytes, or 500 when that reader raises |
| Service.JsonTextAcceptedIff | backend/app.py:105-110 | a JSON body is accepted exactly when `text` is a string with a non-whitespace character; the accepted submission is that string with the requested model; a missing `text` is "No text found in file"; a `text` that is not a string is 500 "Server error" |
| Service.ReadUpload | backend/app.py:114-153 | the early-return code of the upload branch computes `UploadText` |
| Service.ReadSubmission | backend/app.py:100-162 | the step-by-step handler up to the pipeline call computes `Validate` |
| Service.SummaryTable.constructor | backend/app.py:31-41 | a fresh table is empty and its first id is 1 |
| Service.SummaryTable.Insert | backend/app.py:187-194 | one row is appended with the next id, and ids stay strictly increasing |
| Service.SummaryTable.Record | backend/app.py:167-200 | the pipeline gets the clamped length for the text's word count; a failing pipeline leaves the table unchanged; a summary appends one row with the requested model name and replies `{summary, model}` |
| Service.SummaryTable.Summarize | backend/app.py:96-208 | a refusal or a failing pipeline leaves the table unchanged; a summary appends one row with the requested model name and replies `{summary, model}` |
| Service.AsItem | backend/app.py:226-231 | the dictionary for a row carries its id, text, summary and model unchanged |
| Service.SummaryTable.History | backend/app.py:212-234 | every row appears exactly once, in reverse insertion order, with strictly decreasing ids |
| Service.SummaryTable.Clear | backend/app.py:238-245 | the table is empty afterwards, ids are not reused, and the reply message is "Cleared" |
| AppView.SummarizeRequest | frontend/src/App.js:79-105 | a chosen file is posted as multipart `file` and `model` with no text; otherwise JSON `{text, model}` is posted |
| AppView.Outcome | frontend/src/App.js:107-128 | a rejected fetch, a non-ok status or an unparsable body is a server error; a summary is shown exactly when the reply is ok and `data.summary` is truthy, and "no summary" exactly when the reply is ok and parses but `data.summary` is falsy |
| AppView.AfterReply | frontend/src/App.js:112-122 | a summary replaces the shown one and clears text and file; any other outcome changes nothing; model and history are kept |
| AppView.ReplyEffects | frontend/src/App.js:112-126 | a summary starts one history reload; otherwise exactly one alert with the matching message |
| AppView.LoadedHistory | frontend/src/App.js:18-30 | the history is replaced only by the body of an ok reply and kept otherwise |
| AppView.NothingToSubmitIff | frontend/src/App.js:68 | the guard fires exactly when there is no file and the text is all JavaScript whitespace |
| AppView.App.constructor | frontend/src/App.js:6-12 | the initial state: empty draft, model "bart", no summary, not busy, empty history |
| AppView.App.StartLoadHistory | frontend/src/App.js:21 | the GET /history is sent and nothing else changes |
| AppView.App.ApplyHistory | frontend/src/App.js:22-29 | only the history changes, to `LoadedHistory` |
| AppView.App.LoadHistory | frontend/src/App.js:18-30 | one GET /history is sent and the history becomes `LoadedHistory` |
| AppView.App.HandleSummarize | frontend/src/App.js:66-131 | a blank draft only alerts; otherwise busy on, one request, the reply's state change and effects, busy off |
| AppView.App.Submit | frontend/src/App.js:73-130 | the request sent matches the draft, the state becomes `AfterReply`, and loading is false on every path |
| AppView.App.ReadSummaryReply | frontend/src/App.js:107-128 | the state becomes `AfterReply` and the effects `ReplyEffects` |
| AppView.App.DeleteItem | frontend/src/App.js:135-148 | sends DELETE /delete/<id>, reloads the history on any status, alerts only on a rejection, and changes no state locally |
| AppView.App.ClearAll | frontend/src/App.js:152-167 | asks first; a decline sends nothing; otherwise sends DELETE /clear, reloads on any status and alerts only on a rejection |
| AppView.App.DownloadSummary | frontend/src/App.js:39-62 | an empty summary alerts; any other is saved verbatim as summary.txt |
| SummarizerView.SubmitForm | frontend/src/components/Summarizer.js:40-44 | the form is `model` followed by the file when one is chosen, otherwise by the text, never both |
| SummarizerView.BuildForm | frontend/src/components/Summarizer.js:40-44 | the `append` calls build `SubmitForm` |
| SummarizerView.SubmitRequest | frontend/src/components/Summarizer.js:48-51 | a POST /summarize with a multipart body that carries a file exactly when one is chosen and the text otherwise |
| SummarizerView.NothingToSubmitIff | frontend/src/components/Summarizer.js:31 | the guard fires exactly when there is no file and the text is all JavaScript whitespace |
| SummarizerView.Outcome | frontend/src/components/Summarizer.js:53-64 | a rejected fetch or an unparsable body is "not responding"; a summary is shown exactly when `data.summary` is truthy, and "no summary" exactly when the body parses but `data.summary` is falsy, whatever the status |
| SummarizerView.OutcomeIgnoresStatus | frontend/src/components/Summarizer.js:48-55 | the reply's status has no bearing on the outcome |
| SummarizerView.FetchedHistory | frontend/src/components/Summarizer.js:14-22 | any parsed body replaces the history; a failure keeps it |
| SummarizerView.FetchedHistoryIgnoresStatus | frontend/src/components/Summarizer.js:16-18 | the history reply's status has no bearing on the list kept |
| SummarizerView.DownloadFile | frontend/src/components/Summarizer.js:83-93 | the file is `summary_<model>.txt` holding "Model: ", the upper-cased model name, a blank line, "Summary:" and the summary |
| SummarizerView.AfterReply | frontend/src/components/Summarizer.js:53-64 | a summary is shown; otherwise the matching error is set; draft, model and history are kept |
| SummarizerView.ReplyEffects | frontend/src/components/Summarizer.js:55-60 | a summary starts one history fetch; nothing else adds an effect |
| SummarizerView.Summarizer.constructor | frontend/src/components/Summarizer.js:5-11 | the initial state: empty draft, model "bart", no summary, empty history, not busy, no error |
| SummarizerView.Summarizer.StartFetchHistory | frontend/src/components/Summarizer.js:16 | the GET /history is sent and nothing else changes |
| SummarizerView.Summarizer.ApplyHistory | frontend/src/components/Summarizer.js:17-21 | only the history changes, to `FetchedHistory` |
| SummarizerView.Summarizer.FetchHistory | frontend/src/components/Summarizer.js:14-22 | one GET /history is sent and the history becomes `FetchedHistory` |
| SummarizerView.Summarizer.HandleSubmit | frontend/src/components/Summarizer.js:29-68 | a blank draft only alerts; otherwise summary and error are cleared, the form is posted, the reply is read, and busy is off on every path |
| SummarizerView.Summarizer.Submit | frontend/src/components/Summarizer.js:36-67 | the state becomes `AfterReply` of the cleared state with loading false; the effects are busy, the post, the reply's effects, not busy |
| SummarizerView.Summarizer.BeginSubmit | frontend/src/components/Summarizer.js:36-51 | summary and error are cleared and busy is on; the form for the draft is posted |
| SummarizerView.Summarizer.EndSubmit | frontend/src/components/Summarizer.js:65-67 | only the busy flag changes, to off |
| SummarizerView.Summarizer.ReadSummaryReply | frontend/src/components/Summarizer.js:46-64 | the state becomes `AfterReply` and the effects `ReplyEffects` |
| SummarizerView.Summarizer.HandleDelete | frontend/src/components/Summarizer.js:71-74 | sends DELETE /delete/<id> and fetches the history once it resolves; a rejection adds nothing more |
| SummarizerView.Summarizer.HandleClearAll | frontend/src/components/Summarizer.js:77-80 | sends DELETE /clear without asking, and fetches the history once it resolves |
| SummarizerView.Summarizer.HandleDownload | frontend/src/components/Summarizer.js:83-97 | always saves `DownloadFile`, even for an empty summary |
| Interop.FirstText | backend/app.py:116 | `request.form.get` finds nothing exactly when no text part has that name, and otherwise returns the value of the first such part |
| Interop.FirstFile | backend/app.py:118-122 | `"file" in request.files` fails exactly when no file part has that name; otherwise `request.files["file"]` is the upload of the first such part |
| Interop.ServerView | backend/app.py:105-122 | a JSON body takes the JSON branch with `text` and `model` as sent; any other body takes the form branch, which sees a file exactly when a `file` part was sent and a model only from a `model` part |
| Interop.ClientReply | backend/app.py:197-208 | an answer reaches the client as an ok reply whose `summary` is the summary; a refusal as a non-ok reply whose body parses but has no `summary` |
| Interop.SummarizerTextIsRefused | frontend/src/components/Summarizer.js:43-44 | typed text posted by Summarizer.js reaches the form branch without a file part and is refused with "No file uploaded" |
| Interop.FileUploadsArriveIntact | frontend/src/App.js:82-85 | both clients' uploads arrive as the chosen file with the selected model |
| Interop.AppTextAcceptedIff | frontend/src/App.js:97-103 | App.js's JSON text is accepted exactly when it is not all Python whitespace, with the selected model |
| Interop.ClientSendsInformationSeparator | frontend/src/App.js:68 | U+001C alone passes App.js's emptiness guard |
| Interop.ServiceRefusesInformationSeparator | backend/app.py:158-162 | U+001C alone is refused as "No text found in file" |
| Interop.InformationSeparatorPassesOnlyTheClient | frontend/src/App.js:68 | U+001C passes the client guard, is refused by the service, and App.js reports a server error |
| Interop.RefusalsReadDifferently | frontend/src/components/Summarizer.js:53-60 | any refusal is a server error in App.js and "no summary" in Summarizer.js |
| Interop.ClientDeletesReachNoHandler | backend/app.py:238 | DELETE /delete/<id> is 404 and DELETE /clear is 405 |
| Interop.ClientRequestsReachHandlers | backend/app.py:95 | both clients' summarise requests and the history request reach their handlers |
| Interop.EmptySummaryIsNotShown | frontend/src/App.js:112-122 | a stored empty summary reads as "no summary" in both clients |

## Left out

- The summarisation pipelines, `secure_filename` and the PDF, DOCX and TXT readers are opaque function values in `Service.Services`. A reader or pipeline that raises becomes `ReadFailed` or `InferenceFailed`.
- Model loading and the `min_length=30` and `do_sample=False` arguments are left out; only the pipeline choice and `max_length` reach the `infer` parameter.
- Saving the upload to disk is reduced to its one observable failure: an empty sanitised name makes the path the upload folder itself. Other I/O errors during the save (disk full, permissions) are not modelled.
- Service.Validate: the `model` value is always a string. In a JSON body a non-string `model` (a number falls back to BART and is stored as is; a list makes `models.get` raise) is not modelled.
- Service.Validate: a JSON body that parses but is not an object (a list, `null`) is folded into `BadJsonRequest`. Both end in the 500 "Server error".
- The `details` member of the 500 reply (the exception text) is not modelled.
- SQLite is a sequence of rows with an id counter. Persistence across restarts, the connection and transactions are left out.
- Concurrent requests on the service, and interleaved or stale replies in the clients, are left out. Each handler is modelled from its start to the settling of its own request. A history reload it starts is recorded as a sent request, and its reply is applied by `ApplyHistory`.
- AppView.LoadedHistory and `SummarizerView.FetchedHistory` do not model a history body that parses as something other than a list of `{id, text, summary, model}`.
- Text.Preview: JavaScript's `substring` counts UTF-16 code units. The model counts code points, which differ only for characters outside the Basic Multilingual Plane.
- Text.ToUpper: only ASCII letters are upper-cased. JavaScript's `toUpperCase` also maps other scripts and can lengthen a string (ß becomes SS).
- The dark-mode toggle, the JSX rendering, the `onChange` setters of the inputs, the console messages, and the object-URL and DOM work of a download are left out. The setters are plain field assignments on the classes.
- The base URL (absolute in App.js, relative in Summarizer.js) and the `/` health route are left out.
- CORS is left out. App.js calls the service cross-origin, so a browser sends an OPTIONS preflight before each DELETE. Flask answers 404 to the preflight for /delete/<id>, and the fetch then rejects. The delete and clear handlers take the way the request settles as a parameter and do not derive it from the route.
- Which of the two clients is served is not modelled; both are modelled side by side.
