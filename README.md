# CSV analyser front end: workflow model

This project models the `App` React component of a small CSV-analysis front end. The component drives a
three-stage remote workflow:

1. upload the picked file to a storage service;
2. start an analysis of the stored file;
3. check the analysis status, as often as the user likes.

It then renders the completed result in four tabs: overview, schema, storage and DDL.

The model has five modules:

- `Workflow` holds the seven state cells as one value (`UiState`). Each handler step is a function of it:
  picking a file, each Begin and Settle step of the three requests, reset and tab selection. It also holds
  the view predicates: which button is enabled, when the reset button and the results section appear.
- `AppComponent.App` is a class with the seven cells as fields. Each handler is a method that updates them
  in place. A handler that awaits a `fetch` is a `Begin…` method followed by a `Settle…(outcome)` method.
  Every method is proved to produce exactly the state its `Workflow` function describes.
- `Presenter` holds the pure result views: the quality-bar colour tiers, the schema table rows
  ("required" means "not nullable"), the storage options and what each tab shows.
- `JsText` models the string built-ins the component uses. One is `split("/")`, with its inverse `join`,
  which the file id extraction relies on. The other is `toUpperCase` on ASCII.
- `Sessions` models what the page lets a user do, one event at a time. Buttons can only be clicked while
  enabled and rendered. The file input is always available. A request settles only while it is in flight.
  After a rendering failure (`Workflow.Results` is `Crashed`) the real page is unmounted and accepts no
  further event; `Sessions.Step` still allows events there, so its runs over-approximate what the page
  allows, and the invariants proved over them hold a fortiori.

Each `fetch` is an input outcome: `Ok(parsed body)` or `Fail`. `Fail` covers the network error, the non-2xx
status and the unparsable body. String properties of a parsed body (`storage_path`, `analysis_id`,
`message`, `status`) are `Field = Missing | Null | Text(s)`. This keeps JavaScript truthiness exact:
`undefined`, `null` and `""` are all falsy. A template literal renders `undefined` and `null` as those words.

What the code does, and the model follows:

- The handlers do not check `loading`; only the buttons' `disabled` attributes do. Within the page, this
  keeps two requests from overlapping (`Sessions.NoOverlappingRequests`).
- The file input and the reset button are never disabled. A file can therefore be picked, or the
  workflow reset, while a request is in flight. That clears the path, the id and the results, but the
  request's settle then writes its own cell again. The stored path then need not belong to the selected
  file (`Sessions.StaleUploadOutlivesFileChange`). The dependency chain "no file ⇒ no path, no id, no
  results" holds only for a user who waits for each request (`Sessions.PatientSessionsKeepTheChain`).
- A path with fewer than two `/` is not rejected. The file id is then `undefined`, which `JSON.stringify`
  omits, and the start request is still sent.
- A new upload does not clear the analysis id or the results of an earlier one.

## Model

| member | source | states |
|---|---|---|
| `AppComponent.App.constructor` | src/App.js:6-12 | the seven cells start as no file, null path, null id, no results, empty message, not loading, overview tab |
| `AppComponent.App.HandleFileChange` | src/App.js:14-26 | the picked file replaces the selection; path, id and results are cleared; the tab returns to overview; `loading` is untouched |
| `AppComponent.App.BeginUpload` | src/App.js:29-36 | without a file: only the prompt message, no request; otherwise `loading` is set, the progress message shown, and the selected file is returned to be sent |
| `AppComponent.App.SettleUpload` | src/App.js:44-62 | success stores `storage_path` and "✅ message"; failure sets the upload failure message; `loading` is cleared either way |
| `AppComponent.App.BeginStartAnalysis` | src/App.js:66-82 | without a truthy path: only the prompt; otherwise `loading` is set and the request carries the path's third segment as file id, the caller id and the unmodified path |
| `AppComponent.App.SettleStartAnalysis` | src/App.js:84-108 | success stores `analysis_id` and "✅ message"; failure sets the start failure message; `loading` is cleared either way |
| `AppComponent.App.BeginStatusCheck` | src/App.js:112-119 | without a truthy id: only the prompt; otherwise `loading` is set and the id for the status URL is returned |
| `AppComponent.App.SettleStatusCheck` | src/App.js:121-138 | success stores the whole reply and "✅ message"; failure sets the status failure message; `loading` is cleared either way |
| `AppComponent.App.ResetAnalysis` | src/App.js:142-155 | file, path, id and results are cleared, the reset message is set, the tab returns to overview, `loading` is untouched |
| `AppComponent.App.SetActiveTab` | src/App.js:392-415 | a tab click changes only the active tab |
| `Workflow.SelectFileClearsDownstream` | src/App.js:14-26 | whatever the prior state: file set to the pick, path/id/results cleared, fixed message, overview tab, `loading` kept; start, status, reset and results are then unavailable, and upload is enabled iff not loading and a file was picked |
| `Workflow.ResetClearsEverything` | src/App.js:142-148 | reset equals picking "no file" except for its message; afterwards no action button is enabled and nothing downstream is shown |
| `Workflow.AbsentFieldOnlyPrompts` | src/App.js:30-116 | when the file, the truthy path or the truthy id is missing, the handler changes only the message (to its fixed prompt) and sends nothing; `loading` is untouched |
| `Workflow.ButtonsMatchGuards` | src/App.js:357-379 | each button is enabled exactly when not loading and its handler would pass its own guard |
| `Workflow.BeginRaisesLoading` | src/App.js:35-119 | a handler past its guard sets `loading` and its progress message and changes nothing else |
| `Workflow.SettleLowersLoading` | src/App.js:60-138 | every settle, on success or failure, leaves `loading` false |
| `Workflow.FailureKeepsData` | src/App.js:57-135 | a failed upload, start or status check keeps path, id and results and sets that stage's fixed "❌" message |
| `Workflow.SuccessChangesOnlyItsField` | src/App.js:54-132 | a success changes only its own cell, the message ("✅ " + message) and `loading`; an upload keeps the earlier id and results |
| `Workflow.StatusReplyStoredWhateverItsStatus` | src/App.js:130-132 | any successful status reply is stored; the reset button then shows, and the results section shows iff the status is "completed" |
| `Workflow.RepeatedStatusCheckIsStable` | src/App.js:118-138 | a second status check with the same reply leaves the state as the first one did |
| `Workflow.FileIdOf` | src/App.js:75-76 | segment 2 of `split("/")`: `undefined` (absent) when there is no such segment, otherwise a segment that contains no `/` |
| `Workflow.FileIdPresence` | src/App.js:75-76 | the file id is defined exactly when the path holds at least two `/` |
| `Workflow.FileIdOfJoin` | src/App.js:75-76 | for a path joined from `/`-free segments, the file id is the third segment |
| `Workflow.ExampleFileId` | src/App.js:75-82 | "uploads/abc/file-42" yields file id "file-42", and a start request from that path carries file id "file-42", the caller id and the path |
| `Workflow.StartRequestCarriesPath` | src/App.js:75-82 | a start request is sent iff the path is truthy; it carries the path unchanged and the caller id, with a file id iff the path has two `/` |
| `Workflow.UploadEnabled` | src/App.js:360 | the upload button is enabled iff not loading and a file is selected; partner: `Workflow.ButtonsMatchGuards` |
| `Workflow.StartEnabled` | src/App.js:368 | the start button is enabled iff not loading and the path is truthy; partner: `Workflow.ButtonsMatchGuards` |
| `Workflow.StatusEnabled` | src/App.js:376 | the status button is enabled iff not loading and the id is truthy; partner: `Workflow.ButtonsMatchGuards` |
| `Workflow.ResetShown` | src/App.js:334 | the reset button is rendered iff results are stored; partners: `Workflow.StatusReplyStoredWhateverItsStatus`, `Workflow.ResetClearsEverything` |
| `Workflow.ResultsShown` | src/App.js:388 | the results section is rendered iff a reply is stored and its status is exactly "completed"; partner: `Workflow.StatusReplyStoredWhateverItsStatus` |
| `Workflow.MessageShown` | src/App.js:383 | the status line is rendered iff the message is non-empty; partner: `Workflow.EveryHandlerShowsAMessage` |
| `Workflow.EveryHandlerShowsAMessage` | src/App.js:14-148 | after picking a file, reset, any guard, any begin and any settle, the status message is non-empty, so the status line is rendered |
| `Workflow.Results` | src/App.js:388-466 | the results section is hidden unless the stored reply's status is "completed"; otherwise it shows the active tab's content, or fails when the data it reads is absent |
| `JsText.Split` | src/App.js:75 | `split` with a one-character separator always yields at least one piece (the empty string gives one empty piece); partners: `JsText.JoinSplit`, `JsText.SplitJoin` |
| `Payloads.Truthy` | src/App.js:67 | a string property of a JSON body is truthy iff it is a non-empty string; `undefined`, `null` and `""` are falsy, as in the guards at lines 67 and 113 |
| `Payloads.Interpolate` | src/App.js:56 | `${x}` in a template literal gives the string itself, "undefined" for an absent property and "null" for `null`, as at lines 56, 102 and 132 |
| `JsText.SplitPiecesFree` | src/App.js:75 | no piece of `split("/")` contains `/` |
| `JsText.SplitCount` | src/App.js:75 | `split` yields one piece more than there are separators |
| `JsText.JoinSplit` | src/App.js:75 | joining the pieces of a split gives back the string |
| `JsText.SplitJoin` | src/App.js:75 | splitting a join of separator-free pieces gives back the pieces |
| `JsText.ToUpperAscii` | src/App.js:191 | the key keeps its length, each ASCII letter is upper-cased, and no lower-case ASCII letter remains |
| `Presenter.QualityColor` | src/App.js:160-162 | red exactly below 0.7, orange exactly on [0.7, 0.9), green exactly from 0.9 up: the tiers are disjoint and cover every score |
| `Presenter.QualityColorMonotone` | src/App.js:160-162 | a higher score never gets a lower tier |
| `Presenter.SchemaRows` | src/App.js:254-261 | one row per field, in order, with name and type; "indexed" marked iff indexed; "required" marked iff not nullable |
| `Presenter.SchemaTable` | src/App.js:239-265 | a missing schema renders nothing; otherwise the table name and exactly the rows of `Presenter.SchemaRows` for its fields |
| `Presenter.OptionRows` | src/App.js:188-200 | one row per storage option, in entry order, with the upper-cased key, the reasons, and "suitable" iff `suitable` |
| `Presenter.RecommendationPanel` | src/App.js:178-204 | a missing recommendation renders nothing; otherwise the primary storage, the reasoning and the option rows |
| `Presenter.TabContent` | src/App.js:418-463 | overview shows the quality score with its colour, the data characteristics, the recommendation panel and the advice list, in that order; schema shows the schema table; storage shows the recommendation panel; DDL shows the DDL generation block; overview and DDL fail exactly when `ddl_metadata` is absent |
| `Presenter.SchemaTabMarksRequired` | src/App.js:449-451 | the rendered schema tab has one row per schema field, and a row is marked "required" exactly when its field is not nullable |
| `Presenter.StorageTabRepeatsOverview` | src/App.js:430-457 | the storage tab shows the same recommendation panel as the overview |
| `Sessions.StepKeepsLoadingTracksFlight` | src/App.js:357-379 | any event the page allows keeps "`loading` iff a request is in flight" |
| `Sessions.RunKeepsLoadingTracksFlight` | src/App.js:35-138 | any sequence of allowed events keeps "`loading` iff a request is in flight" |
| `Sessions.NoOverlappingRequests` | src/App.js:357-379 | in every session the page allows, a request starts only when none is in flight, and `loading` is set after it starts |
| `Sessions.StepKeepsPatientInvariant` | src/App.js:14-148 | for a user who waits, one event keeps the loading invariant, the dependency chain and "a request in flight needs a file" |
| `Sessions.PatientRunKeepsInvariant` | src/App.js:14-148 | a patient run of any length keeps that invariant |
| `Sessions.PatientSessionsKeepTheChain` | src/App.js:14-148 | for a patient user, no truthy path, no truthy id and no results exist without a selected file |
| `Sessions.StaleUploadOutlivesFileChange` | src/App.js:341-347 | picking "no file" during an upload, then the upload's success, leaves a stored path and an enabled start button with no file selected |
| `Sessions.UploadScenario` | src/App.js:29-82 | upload of a file returning "uploads/abc/file-42" and "stored" stores that path and "✅ stored"; the start request then carries file id "file-42" |
| `Sessions.StartScenario` | src/App.js:66-108 | starting on "uploads/abc/file-42" sends file id "file-42" and stores analysis id "job-7" from the reply |
| `Sessions.RunningScenario` | src/App.js:112-138 | a "running" status reply is stored and shows the reset button but no results |
| `Sessions.FailedUploadScenario` | src/App.js:44-62 | a failed upload stores no path; start stays disabled and upload stays enabled |
| `Sessions.CompletedScenario` | src/App.js:388-424 | a "completed" reply with score 0.95 shows the overview with a green quality bar |

## Left out

- The `fetch` calls, URLs, `FormData`, headers, `JSON.stringify` and `response.json()` are network I/O. Each becomes an outcome parameter of a Settle step. The request a Begin step returns stands for what would be sent.
- `console.error` logging and the reset of the DOM file input's value are side effects outside the seven cells.
- The percentage text `(score * 100).toFixed(1)` and the bar width are float-to-string formatting.
- JSX layout, CSS classes, images, label texts and the file name caption are presentation. Only the tab-to-block mapping and the row projections are kept.
- Scores are exact reals, not IEEE doubles. An absent score (`NaN`, which renders green) is not modelled.
- React re-rendering and stale closures are not modelled. The setters after an `await` write values that do not depend on the closure, so a settle applied to the current state matches the code. Interleaving is limited to one request in flight plus user events, which is all the page's disabled buttons allow.
- JSON values other than strings, `null` and absence for `storage_path`, `analysis_id`, `message` and `status` are not modelled. A truthy non-string `storage_path` would make `split` throw outside the `try` and leave `loading` set.
- A status body that is literally `null` is not modelled: the code stores `null` and then fails on `result.message`.
- A status body that is another falsy JSON value (`0`, `false`, `""`) is not modelled. The code stores it, shows "✅ undefined", and the reset button stays hidden because the stored value is falsy. In the model every successful status reply is an object, so `SettleStatus` always makes the reset button appear.
- Once rendering fails, the real page accepts no more events; the session model does not stop there (an over-approximation).
- Rendering failures are modelled only for a missing `result` and a missing `ddl_metadata`. Other nested properties whose absence makes rendering throw are assumed present: `reasoning`, `fields`, `recommendations`, `storage_options`, each option's `reasons`, `data_types`, and `postgresql`, `clickhouse`, `hdfs` with their `features`.
- `JsText.ToUpperAscii`: upper-cases ASCII letters only; the full Unicode case mapping of `toUpperCase` is not modelled.
- The active tab is a four-value datatype rather than a string, because the only assignments are the four literals.
