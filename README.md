# Annual-report extractor: upload controller and report assembly

This project models the logic of a small web tool that takes the PDF of a
company's annual report, sends it with a model choice (`gemini-2.0-flash`
or `gemini-2.0-pro`) to an extraction service, and shows either a link to
the generated summary PDF or an error. It covers two parts.

- **The upload controller, in its three variants.** Each React component is
  a Dafny class: one field per state hook, one method per event handler.
  - `App.App` models frontend/src/App.jsx: a file input, a drop zone, a
    select and a clear button.
  - `MainAppV5.MainApp` models frontend/src/MainApp.jsx (version 5.0), the
    component that frontend/src/main.jsx mounts: a file input and a select.
  - `MainAppV6.MainApp` models frontend/app.jsx (version 6.0): a file input
    and a drop zone sharing one PDF check, radio buttons, and a synthetic
    progress bar.

  The asynchronous submit handler is split at its `await`. The first half
  (`…Begin`) checks the guard, raises the busy flag and returns the request
  it issues. The second half (`…Complete`) receives the outcome as a
  `Response`: `Ok(pdfUrl)`, `BadJson(message)`, `HttpError(status,
  bodyText)` or `Transport(message)`. Version 6 has one more event between
  the two, `ReplyArrived`, for the moment the fetch resolves and before the
  reply's body is read. In version 6 the 500 ms progress
  interval is the event `Tick(d)`, where `d` in [0, 15) is the random draw.
  The 2 s reset is the event `Cooldown`. A counter `pendingResets` records
  how many resets are armed and have not fired yet. A class invariant
  `Valid` holds across all version 6 handlers.
- **The report half of `generate_annual_report`** (backend/your_pipeline.py).
  - The specification of `md_lines` is `Pipeline.Layout`. It takes every
    line the report can hold, in the fixed order (`Template`), and keeps a
    line only when its inclusion rule (`Included`) holds.
  - `Pipeline.BuildMarkdownLines` builds the lines the way the code does:
    the header list, then conditional appends and `+=`. It is proved to
    return exactly the rendering of the layout.
  - `ReportFile.Join` models `"\n\n".join`.
  - `ReportFile.Slug` and `ReportFile.OutName` model the file name.
    `ParseOutName` reads the name back, and the round trip is proved.

The variants are kept apart where they differ:
- where the PDF check applies: to drops only in App.jsx, nowhere in version
  5, to both the picker and the drop zone in version 6;
- whether a rejected file sets an error: only in version 6;
- the error text: `Server error <status>`, `API Error <status>: <body>`, or
  `Processing failed: <body>`;
- whether a failure or success clears the other outcome field;
- whether progress is forced to 100 (version 6 only, and only when a reply
  arrives).

Notable behaviours of the code, each stated by a member of the model:
- No variant clears the outcome when a submission begins. Only selecting a
  file (or the clear button in App.jsx) does that.
- A link and an error can be on display together.
  - In App.jsx a success keeps an earlier error (`App.RetryKeepsEarlierError`).
  - In versions 5 and 6 a failure keeps an earlier link
    (`MainAppV5.RetryOutcomes`, `MainAppV6.MainApp.ExtractReportComplete`).
- A rejected file in version 6 leaves the earlier valid selection in place
  (`MainAppV6.RejectedPickKeepsSelection`).
- App.jsx reports a non-2xx reply as `Server error <status>` and drops the
  body (`App.FailureMessage`).
- Version 6 shows only the body of a non-2xx reply, with no status
  (`MainAppV6.FailureMessage`).
- Version 6 forces progress to 100 as soon as a reply arrives, before its
  body is read; the request is still out while the body is read, so the
  bar shows 100 under "Finalizing report..." for that time
  (`MainAppV6.ProgressRun`). A failed fetch leaves progress where the
  interval left it.
- The 2 s reset is not tied to its submission. If a new submission starts
  within 2 s, the old reset pulls the new progress back to 0
  (`MainAppV6.StaleResetDuringRetry`).
- Company names that differ only by spaces against underscores get the
  same PDF name for the same year (`ReportFile.OutNameMerges`).

## Model

| member | source | states |
|---|---|---|
| Upload.ModelValueRoundTrip | frontend/src/MainApp.jsx:134-135 | each of the two model choices has its own option value, and that value reads back to the choice |
| Numerals.DecimalValueRoundTrip | frontend/src/App.jsx:54 | the decimal text of a status code denotes that status |
| Numerals.ParseDecimalRoundTrip | frontend/src/App.jsx:54 | parsing the decimal text of `n` gives `n` back |
| Numerals.DecimalInjective | frontend/src/App.jsx:54 | distinct statuses render as distinct text |
| Numerals.IntDecimal | backend/your_pipeline.py:126-127 | the employee count renders as Python `str` of an int: `-` exactly for negatives, then the shortest digits of its magnitude (no leading zero), which parse back to it |
| Numerals.DigitSpanStops | frontend/src/MainApp.jsx:48 | the status digits in `API Error <status>: …` end exactly where the digits of the status end |
| App.FailureMessage | frontend/src/App.jsx:54-58 | a non-2xx reply gives exactly `Server error ` and the decimal text of its status, from which the status, and only the status, reads back; other failures give the rejection's own message |
| App.App.constructor | frontend/src/App.jsx:5-11 | no file, flash model, not loading, no link, no error, no drag |
| App.App.HandleFileChange | frontend/src/App.jsx:15-19 | whatever was picked, PDF or not or nothing, becomes the file; error and link are cleared |
| App.App.HandleDrop | frontend/src/App.jsx:21-30 | the drag ends; only a PDF replaces the file and clears the outcome; anything else leaves file, error and link unchanged |
| App.App.HandleDragOver | frontend/src/App.jsx:32-35 | `dragOver` is set |
| App.App.HandleDragLeave | frontend/src/App.jsx:37-40 | `dragOver` is cleared |
| App.App.SelectModel | frontend/src/App.jsx:437-455 | the model becomes the chosen one of the two options |
| App.App.Clear | frontend/src/App.jsx:493-499 | file, link and error are cleared |
| App.App.HandleSubmitBegin | frontend/src/App.jsx:42-48 | without a file nothing changes and no request is issued; otherwise `loading` is raised and the request carries the current file and model |
| App.App.HandleSubmitComplete | frontend/src/App.jsx:49-61 | success sets the link and keeps the error; failure sets the error and keeps the link; `loading` is false after every outcome |
| App.PayloadCapturedAtSubmit | frontend/src/App.jsx:21-47 | dropping another PDF and switching the model after submit does not change the request already issued |
| App.RetryKeepsEarlierError | frontend/src/App.jsx:54-61 | a failure then a successful retry leaves both the first error and the new link on display |
| App.PickerSkipsTypeCheck | frontend/src/App.jsx:15-30 | a non-PDF is kept when picked and ignored when dropped |
| App.ButtonsAroundSubmit | frontend/src/App.jsx:460-499 | while a request is out both the extract and the clear button are disabled; once its outcome is in, both are enabled again |
| MainAppV5.FailureMessage | frontend/src/MainApp.jsx:45-58 | a non-2xx reply gives exactly `API Error `, the decimal text of its status, `: ` and its body, from which both status and body read back; other failures give the rejection's own message |
| MainAppV5.MainApp.constructor | frontend/src/MainApp.jsx:11-15 | no selection, flash model, not processing, no link, no error |
| MainAppV5.MainApp.OnFileSelect | frontend/src/MainApp.jsx:17-21 | the picked item, unchecked, becomes the selection; error and link are cleared |
| MainAppV5.MainApp.SelectModel | frontend/src/MainApp.jsx:131-135 | the model becomes the chosen one of the two options |
| MainAppV5.MainApp.ExtractReportBegin | frontend/src/MainApp.jsx:23-29 | without a selection nothing changes and no request is issued; otherwise processing starts and the request carries the current selection and model |
| MainAppV5.MainApp.ExtractReportComplete | frontend/src/MainApp.jsx:31-61 | success sets the link and clears the error; failure sets the error and keeps the link; processing ends after every outcome |
| MainAppV5.ExtractRun | frontend/src/MainApp.jsx:17-61 | a full run sends the chosen file and model; a 2xx reply leaves its link and no error; a non-2xx reply leaves its status and body readable in the message; the button is enabled again |
| MainAppV5.RetryOutcomes | frontend/src/MainApp.jsx:45-58 | a successful retry clears the earlier error; a later failure keeps the earlier link |
| MainAppV6.NextProgress | frontend/app.jsx:60-62 | a tick moves progress up by the draw, clamped at 90: never past 90 and never down from a value at or below 90 |
| MainAppV6.ProgressLabel | frontend/app.jsx:334-337 | each caption holds exactly on its band (below 30, below 60, below 90, the rest); the four bands cover all values |
| MainAppV6.FailureMessage | frontend/app.jsx:81-94 | a non-2xx reply gives the fixed prefix followed by exactly its body; other failures give the rejection's own message |
| MainAppV6.MainApp.constructor | frontend/app.jsx:10-16 | the initial state, progress 0 and no interval, satisfies the invariant |
| MainAppV6.MainApp.VisibleLabel | frontend/app.jsx:325-337 | a caption is shown exactly while processing and is the caption of the current progress; "Finalizing report..." shows exactly while processing at 90 or more, and while the interval runs only at 90 |
| MainAppV6.MainApp.HandleFileSelection | frontend/app.jsx:23-31 | a PDF replaces the selection and clears the outcome; anything else sets exactly "Please select a valid PDF file" and keeps the selection and link |
| MainAppV6.MainApp.OnFileSelect | frontend/app.jsx:18-21 | the picked item goes through the same PDF check |
| MainAppV6.MainApp.HandleDrop | frontend/app.jsx:43-48 | the drag ends, and the dropped item goes through the same PDF check |
| MainAppV6.MainApp.HandleDragOver | frontend/app.jsx:33-36 | `dragOver` is set |
| MainAppV6.MainApp.HandleDragLeave | frontend/app.jsx:38-41 | `dragOver` is cleared |
| MainAppV6.MainApp.SelectModel | frontend/app.jsx:262-289 | the model becomes the chosen radio's identifier |
| MainAppV6.MainApp.ExtractReportBegin | frontend/app.jsx:50-62 | without a selection nothing changes; otherwise processing starts, progress restarts at 0 under a running interval, and the request carries the current selection and model |
| MainAppV6.MainApp.Tick | frontend/app.jsx:60-62 | progress never goes down and never passes 90, and the invariant is kept |
| MainAppV6.MainApp.ReplyArrived | frontend/app.jsx:70-76 | when the fetch resolves the interval stops and progress is 100 while the request is still out |
| MainAppV6.MainApp.ExtractReportComplete | frontend/app.jsx:81-99 | the interval is stopped and progress is left as it is; success sets the link and clears the error, failure sets the error and keeps the link; processing ends and one more reset is armed |
| MainAppV6.MainApp.Cooldown | frontend/app.jsx:98 | progress goes back to 0 and no other field changes |
| MainAppV6.ProgressRun | frontend/app.jsx:50-99 | while the interval runs the values shown start at 0, never go down and stay at or under 90; a reply puts 100 on screen under "Finalizing report..." while its body is read, and a failed fetch shows no 100; after the reset progress is 0 |
| MainAppV6.StaleResetDuringRetry | frontend/app.jsx:96-99 | the reset of a finished submission fires during the next one and drops its progress to 0 |
| MainAppV6.RejectedPickKeepsSelection | frontend/app.jsx:23-48 | a rejected drop after a good pick keeps the good selection, shows the fixed error and leaves the button enabled |
| Pipeline.Keep | backend/your_pipeline.py:111-138 | every line kept passes its inclusion rule |
| Pipeline.LayoutMembership | backend/your_pipeline.py:104-138 | a line is in the report exactly when its rule holds: header and heading always; a financial line when its field is not `None` (zero included); the auditor line and the prose sections when their text is non-empty; the i-th risk bullet when the list is non-empty and has an i-th factor |
| Pipeline.LayoutOrdered | backend/your_pipeline.py:104-138 | the lines follow the fixed section order: header, financials, auditor, business, risks in factor order, management discussion; no line occurs twice |
| Pipeline.MarkdownLinesFollowLayout | backend/your_pipeline.py:104-138 | the i-th line of `md_lines` is the text of the i-th line of the layout |
| Pipeline.HeaderFirst | backend/your_pipeline.py:104-110 | whatever the optional fields hold, `md_lines` opens with the title, CIK, fiscal-year-end and filing-date lines and "## Financials" |
| Pipeline.BusinessBlock | backend/your_pipeline.py:131-132 | the business section is its heading and text together, or nothing |
| Pipeline.RiskBlock | backend/your_pipeline.py:133-135 | the risk section is its heading and one `- ` bullet per factor, in order, or nothing when the list is missing or empty |
| Pipeline.DiscussionBlock | backend/your_pipeline.py:136-138 | the management-discussion section is its heading and text together, or nothing |
| Pipeline.Bullets | backend/your_pipeline.py:134-135 | one line per factor, the i-th being `- ` followed by the i-th factor |
| Pipeline.FinancialStep | backend/your_pipeline.py:111-127 | each financial step adds its labelled value exactly when the field is present |
| Pipeline.AuditorStep | backend/your_pipeline.py:128-129 | the auditor step adds its line exactly when the auditor's name is non-empty |
| Pipeline.AppendFinancial | backend/your_pipeline.py:111-127 | one conditional append extends the lines by the next financial line of the layout |
| Pipeline.AppendSections | backend/your_pipeline.py:131-138 | the three `+=` steps complete the lines to the full layout |
| Pipeline.BuildMarkdownLines | backend/your_pipeline.py:104-138 | the lines built append by append are exactly the rendering of the layout |
| ReportFile.JoinLength | backend/your_pipeline.py:140 | the joined text is as long as the lines plus one separator between each two neighbours |
| ReportFile.JoinPart | backend/your_pipeline.py:140 | each line appears whole at its offset in the joined text |
| ReportFile.JoinSeparator | backend/your_pipeline.py:140 | between each line and the next there is exactly one blank line |
| ReportFile.Markdown | backend/your_pipeline.py:140 | the Markdown text opens with the title line |
| ReportFile.Slug | backend/your_pipeline.py:144 | the slug has the length of the name; each space becomes `_` and every other character stays |
| ReportFile.SlugHasNoSpace | backend/your_pipeline.py:144 | the slug holds no space |
| ReportFile.SlugIdempotent | backend/your_pipeline.py:144 | slugging a slug changes nothing |
| ReportFile.SlugMergesSpaceAndUnderscore | backend/your_pipeline.py:144 | any two names of equal length that differ only where one has a space and the other an underscore get the same slug |
| ReportFile.SlugCollision | backend/your_pipeline.py:144 | two distinct names, "A B" and "A_B", share a slug, so the slug does not identify the company |
| ReportFile.OutNameMerges | backend/your_pipeline.py:144-145 | two reports whose company names differ only by spaces against underscores, with the same fiscal year, are written to the same file name |
| ReportFile.OutNameRoundTrip | backend/your_pipeline.py:144-145 | the file name `annual_report_<slug>_<year>.pdf` reads back into exactly the slug and the fiscal year |
| ReportFile.RenderReport | backend/your_pipeline.py:104-145 | the report step returns the joined Markdown of the layout and exactly the file name `annual_report_<slug>_<year>.pdf`, which reads back into the slug and year |

## Left out

- Rendering: JSX, styles, icons, the theme toggle, animations and `console.log` calls are presentation only.
- `fetch`, `FormData` and the reply's JSON parsing are not modelled. The outcome of a request is the `Response` input.
- An `Ok` reply whose JSON has no `pdfUrl` is not modelled. The link would become `undefined`.
- A body that cannot be read on a non-2xx reply is not modelled.
- `setInterval` and `setTimeout` are not modelled as timers. Their firings are the events `Tick` and `Cooldown`. `Math.random() * 15` is the input `d`.
- React's batched state updates are not modelled. Each handler half is one atomic update.
- Interleavings beyond explicit event order are not modelled. Any order of calls to the methods is a possible run.
- MainAppV6.MainApp.ExtractReportBegin: requires that no request is out. Its only caller, the extract button, is disabled while processing, so two intervals never run at once.
- MainAppV6.MainApp.ExtractReportComplete: requires that a reply outcome (`Ok`, `BadJson`, `HttpError`) comes after `ReplyArrived` and a failed fetch (`Transport`) without it, which is the order in which the handler's awaits resolve.
- App.App.HandleFileChange: may be called in any state, while App.jsx renders its file input only when no file is selected; with a file selected, only the drop zone can replace it.
- Handler events are not modelled. A picked or dropped file is `Option<FileHandle>`: `None` stands for `files[0]` being undefined.
- `formatFileSize` is floating-point formatting (logarithm, power, `toFixed`).
- The "Max 50MB" text is display only. Nothing enforces it, and the model adds no size check.
- Python's `:,.2f` float formatting and `strftime('%Y-%m-%d')` are not modelled. They are the functions of the `Formatting` input. Amounts are reals, and their digits are not modelled.
- The Gemini call, the prompt, the schema and PDF text extraction are outside libraries and I/O. The model starts from the parsed `AnnualReport`.
- `markdown2`, WeasyPrint and the PDF write are outside libraries. `RenderReport` returns the Markdown text and the file name.
- backend/app.py is not part of this model. It covers routing, the temporary file and the download URL.
- frontend/vite.config.js is not part of this model. Its proxy strips `/api`, so the `/api/extract` request of App.jsx reaches `/extract`, while the backend route is `/api/extract`.
- frontend/src/main.jsx is not part of this model. It only mounts version 5.
