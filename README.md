# Azure Pipelines debugger: session controller and validation engine, in Dafny

This project models the two parts of the Azure Pipelines VS Code debugger that hold real logic. It proves what they promise.

- **`DebugAdapter`** (`DebugAdapter.dfy`) models the class `AzurePipelinesDebugAdapter`, the Debug Adapter Protocol session for one pipeline run.
  - It is a Dafny class. The fields `name`, `virtualFiles`, `watcher`, `disposables` and the variable-handle table are those of the source.
  - The source's other two fields are its collaborators, and the model does not keep them as fields:
    - The expansion engine `expandAzurePipeline` becomes the `Expansion` input of the methods that run it.
    - The `changed` callback becomes the `Changed` entry it leaves in the log.
  - `log` is a field the source does not have. It records, in order, every effect on the outside world except arming the watcher: responses, events, information and error notices, the `changed` callback, calls into the expansion engine, and disposals. Arming the watcher is recorded in the `watcher` field.
  - An `Expansion` lists the callbacks (`OnSuccess(text)` / `OnError(msg)`) the engine made before its promise settled. It also says whether the promise was rejected.
  - There are three named cases:
    - `SuccessOutcome` and `FailureOutcome` are a well-behaved engine that calls back exactly once.
    - `ThrewOutcome` is an engine that throws before calling back.
  - Each method is proved against a pure function of a `SessionState` snapshot: `LaunchSpec`, `RunSpec`, `FileEventSpec`, `DisconnectSpec`. The lemmas state the launch rules about those functions.
  - The class keeps the invariant `Consistent`: it owns at most its own virtual file, and a watcher exists only after a watch-mode launch.
- **`Server`** (`Server.dfy`) models the language server's diagnostics and completion handlers.
  - `yaml.load` is an input: a `LoadResult` is either the JavaScript `Value` it returned or the `JsError` it threw.
  - Validation and completion are pure functions. JavaScript truthiness (`Truthy`) and property reads (`GetProperty`, which throws on `null`/`undefined`) are written out.
- `Wrappers.dfy` holds the `Option` and `Result` types both modules use.

Points where the code's behaviour is easy to misread:

- `virtualFiles` is a field of each adapter instance (src/debugAdapter.ts:26).
- The structural rules test the **truthiness** of `trigger`, `pr`, `schedules`, `jobs` and `stages` (src/server.js:58, 70).
  - An empty list (`trigger: []`) satisfies a rule.
  - `trigger:` with no value (`null`), `trigger: false`, `trigger: 0` and `trigger: ""` do not.
- `if (message)` is a truthiness test too (src/debugAdapter.ts:128). So when a plain run's engine reports an error with an empty message, the launch answers with a success response and a `TerminatedEvent` (`EmptyErrorMessageReadsAsSuccess`).
- An engine that throws before calling back still lets a one-shot launch succeed and terminate (`ThrownExpansionTerminates`). The exception is only logged (src/debugAdapter.ts:107-111).
- `initialize` sets `completionTriggerCharacters` to `[".", "["]` (src/debugAdapter.ts:47).
- An empty or `null` YAML document still reaches the structural check (src/server.js:40-41). There, reading `yaml.trigger` throws a `TypeError`. The same `catch` reports it as one Error diagnostic at 0..1 (`NullishDocumentReportsTypeError`).

What is deterministic by construction:

- Validation is a function of the URI and the load result. Each pass builds a fresh list and publishes it, so nothing accumulates from one pass to the next.
- Completion is a function that never reads the position (`CompletionIgnoresPosition`).

## Model

| member | source | states |
|---|---|---|
| `DebugAdapter.AzurePipelinesDebugAdapter.constructor` | src/debugAdapter.ts:33-38 | A new session has its name, no virtual files, no watcher, no disposables, no handles and an empty log. |
| `DebugAdapter.OnlyConfigurationDoneAndTerminate` | src/debugAdapter.ts:40-64 | Every capability the handler sets is modelled, and an absent one reads as false. Exactly `supportsConfigurationDoneRequest` and `supportTerminateDebuggee` are true. No exception filter is offered. Completion triggers are `.` and `[`. |
| `DebugAdapter.AzurePipelinesDebugAdapter.InitializeRequest` | src/debugAdapter.ts:40-68 | Sends exactly one response carrying those capabilities, then one `InitializedEvent`. Nothing else changes. |
| `DebugAdapter.AzurePipelinesDebugAdapter.AttachRequest` | src/debugAdapter.ts:70-72 | Attach leaves exactly the state and output a launch with the same arguments and engine behaviour would leave. |
| `DebugAdapter.AzurePipelinesDebugAdapter.LaunchRequest` | src/debugAdapter.ts:74-139 | The new state is `LaunchSpec` of the old one: one run, then either a watcher is armed, or an error response 1001 is sent, or a success response and a `TerminatedEvent` are sent. |
| `DebugAdapter.AzurePipelinesDebugAdapter.Run` | src/debugAdapter.ts:77-105 | Logs the engine call, then applies the engine's callbacks in order. `hasErrors` starts false. The new state and the shared `message` are those given by `RunSpec`. |
| `DebugAdapter.AzurePipelinesDebugAdapter.FileEvent` | src/debugAdapter.ts:113-126 | A create, change or delete event re-runs `run` with the watcher's launch arguments. A disposed or absent watcher changes nothing. |
| `DebugAdapter.AzurePipelinesDebugAdapter.ConfigurationDoneRequest` | src/debugAdapter.ts:141-143 | Sends one plain success response and changes nothing else. |
| `DebugAdapter.AzurePipelinesDebugAdapter.DisconnectRequest` | src/debugAdapter.ts:145-155 | The new state is `DisconnectSpec` of the old one: the watcher is disposed, every disposable is disposed in order, the own virtual file is removed, and a success response is sent. |
| `DebugAdapter.AzurePipelinesDebugAdapter.ThreadsRequest` | src/debugAdapter.ts:157-164 | Answers with exactly one thread, id 1, named "Azure Pipelines Thread". Nothing else changes. |
| `DebugAdapter.AzurePipelinesDebugAdapter.ScopesRequest` | src/debugAdapter.ts:166-173 | Registers a fresh "local" handle. Answers with exactly one scope, "Local", not expensive, referring to that handle. |
| `DebugAdapter.AzurePipelinesDebugAdapter.VariablesRequest` | src/debugAdapter.ts:175-179 | Answers with a response that has no body, so no variables. Nothing else changes. |
| `DebugAdapter.CallbacksFrame` | src/debugAdapter.ts:84-103 | Callbacks write no virtual file but the session's own. They change no other field, only append notices and `changed` calls (never a response or an event), and leave `hasErrors` set exactly when an error was reported. |
| `DebugAdapter.PreviewCallbacks` | src/debugAdapter.ts:84-103 | In preview, success and error alike write their text to the own virtual file and fire `changed` once each. The last write stays. `message` is untouched. |
| `DebugAdapter.MessageCapturedOnlyInPlainRun` | src/debugAdapter.ts:93-103 | `message` changes only in a run that is neither preview nor watch. It then becomes the text of the last error reported. |
| `DebugAdapter.NonPreviewKeepsVirtualFiles` | src/debugAdapter.ts:84-103 | Outside preview, the virtual files are left as they were. |
| `DebugAdapter.NoNoticeOnceErrored` | src/debugAdapter.ts:88-94 | Once an error has been reported in a run, that run shows no "No Issues found". |
| `DebugAdapter.NoIssuesNoticeIff` | src/debugAdapter.ts:78-94 | A run shows "No Issues found" if and only if it is not a preview and a success is reported before any error of that run. |
| `DebugAdapter.LaunchWithoutWatch` | src/debugAdapter.ts:107-138 | Without watch, the launch ends in one of two ways. If a plain run captured a non-empty message, it ends with an error response (id 1001, that message, shown to the user) and no `TerminatedEvent`. Otherwise it ends with a success response followed by a `TerminatedEvent`. The watcher is untouched. |
| `DebugAdapter.PlainFailureIsErrorResponse` | src/debugAdapter.ts:98-133 | A plain launch whose expansion fails with a non-empty message outputs exactly the engine call and an error response 1001 carrying that message. |
| `DebugAdapter.EmptyErrorMessageReadsAsSuccess` | src/debugAdapter.ts:128-136 | A plain launch failing with an empty message is answered as a success, followed by a `TerminatedEvent`. |
| `DebugAdapter.PlainSuccessTerminates` | src/debugAdapter.ts:84-136 | A plain successful launch shows "No Issues found", then sends a success response and a `TerminatedEvent`. |
| `DebugAdapter.PreviewLaunch` | src/debugAdapter.ts:84-137 | A one-shot preview, whether it succeeds or fails, sets only the own virtual file to the result or error text. It fires `changed` once, succeeds at the protocol level and terminates. |
| `DebugAdapter.ThrownExpansionTerminates` | src/debugAdapter.ts:107-137 | Without watch, an engine that throws before calling back leads to a success response and a `TerminatedEvent`. |
| `DebugAdapter.ThrowIsCaught` | src/debugAdapter.ts:107-111 | A rejected expansion promise leaves the same launch result as one that was not rejected. No model function reads the rejection flag, because the `catch` only logs it. |
| `DebugAdapter.LaunchWithWatch` | src/debugAdapter.ts:113-126 | In watch mode, the launch calls the engine, arms a watcher over `**/*.{yml,yaml}` with the same arguments, and sends no response and no event. |
| `DebugAdapter.WatchFailureShowsNotice` | src/debugAdapter.ts:98-99 | In watch mode outside preview, a failure shows an error notice with its message. No response is sent. |
| `DebugAdapter.LaunchTouchesOnlyOwnFile` | src/debugAdapter.ts:84-103 | A launch adds or changes no virtual file other than the session's own. |
| `DebugAdapter.LaunchKeepsConsistent` | src/debugAdapter.ts:74-139 | A launch keeps the invariant: at most the own virtual file, and a watcher only from a watch-mode launch. |
| `DebugAdapter.FileEventRerunsLaunch` | src/debugAdapter.ts:113-126 | The first file event after a watch launch calls the engine with the very request the launch made. The watcher stays armed, and no response or event is sent. |
| `DebugAdapter.FileEventOnLiveWatcher` | src/debugAdapter.ts:115-126 | A file event on any live watcher invokes the engine with the request built from the watcher's stored launch arguments. It keeps the log as a prefix and leaves the watcher unchanged. Only callback output follows the call. |
| `DebugAdapter.FileEventsKeepWatcher` | src/debugAdapter.ts:115-126 | Any sequence of file events on a live watcher leaves the watcher as it was. Each event lengthens the log, and the earlier log stays as a prefix. |
| `DebugAdapter.EveryFileEventRerunsLaunch` | src/debugAdapter.ts:113-126 | After a watch launch and any number of earlier events, the next file event again calls the engine with the launch's request. The watcher is still the one the launch armed, and no response or event is sent. |
| `DebugAdapter.WatchRunCapturesNoMessage` | src/debugAdapter.ts:98-101 | A watch-mode run never sets the launch's `message`. |
| `DebugAdapter.HasErrorsIsPerRun` | src/debugAdapter.ts:77-94 | `hasErrors` is local to a run: after a failed watch run, the next successful run still shows "No Issues found". |
| `DebugAdapter.ErrorThenSuccessShowsNoNotice` | src/debugAdapter.ts:88-94 | Within one run, an error reported before the success suppresses "No Issues found". |
| `DebugAdapter.FileEventKeepsConsistent` | src/debugAdapter.ts:115-126 | A file event keeps the invariant. |
| `DebugAdapter.DisposeAllAt` | src/debugAdapter.ts:150-152 | The disposal loop disposes each held resource exactly once, in order. |
| `DebugAdapter.DisconnectTearsDown` | src/debugAdapter.ts:145-155 | Disconnect disposes the watcher (if any) and every disposable, and removes the session's own virtual file. Every other key and value stays. It ends with a success response. |
| `DebugAdapter.DisconnectTwice` | src/debugAdapter.ts:145-155 | A second disconnect changes no state. It only disposes again and answers with another success response. |
| `DebugAdapter.NoRunsAfterDisconnect` | src/debugAdapter.ts:147-149 | After disconnect, file events change nothing. |
| `DebugAdapter.DisconnectKeepsConsistent` | src/debugAdapter.ts:145-155 | Disconnect keeps the invariant. |
| `Server.PropertyTypeError` | src/server.js:58 | Reading a property of `null`/`undefined` throws an error without a mark. |
| `Server.GetProperty` | src/server.js:58-70 | A property read throws exactly on `null`/`undefined`. On an object it yields the entry or `undefined`. On any other value it yields `undefined`. |
| `Server.ValidateAzurePipelinesStructure` | src/server.js:57-83 | Throws exactly on a nullish document. Otherwise the warning is present iff none of trigger/pr/schedules is truthy, and the error iff neither jobs nor stages is. There is one diagnostic per failed rule, the warning first, all from 'Azure Pipelines' at 0..1. |
| `Server.ValidateTextDocument` | src/server.js:36-55 | Publishes for the document's URI. A thrown load error gives exactly the caught diagnostic. A nullish document gives exactly the TypeError diagnostic. Otherwise the structural diagnostics are given. Every diagnostic has source 'Azure Pipelines'. |
| `Server.ParseErrorIsSoleDiagnostic` | src/server.js:39-53 | A parse failure yields exactly one Error diagnostic, with the parser's message, at mark..mark+1 or 0..1 without a mark. |
| `Server.WarningIffNoTrigger` | src/server.js:58-68 | The missing-trigger warning appears if and only if none of `trigger`, `pr`, `schedules` is truthy. |
| `Server.ErrorIffNoJobs` | src/server.js:70-80 | The missing-jobs error appears if and only if neither `jobs` nor `stages` is truthy, independently of the first rule. |
| `Server.StructuralDiagnosticsOrdered` | src/server.js:57-80 | A parsed document yields at most two diagnostics, each one of the two rule diagnostics, the warning before the error. |
| `Server.ScalarGetsBothDiagnostics` | src/server.js:57-80 | A non-null scalar or an array yields exactly the warning followed by the error. |
| `Server.NullishDocumentReportsTypeError` | src/server.js:40-53 | An empty or null document yields a single Error diagnostic at 0..1 and no structural diagnostic. |
| `Server.AddingTriggerRemovesWarning` | src/server.js:58-80 | Adding a truthy trigger, pr or schedules removes the warning and leaves the jobs verdict unchanged. |
| `Server.AddingJobsRemovesError` | src/server.js:58-80 | Adding a truthy jobs or stages removes the error and leaves the trigger verdict unchanged. |
| `Server.OnCompletion` | src/server.js:85-123 | Exactly six keyword items in the order trigger, pr, jobs, stages, pool, steps. Their `data` ids are 1 to 6, all distinct, and none is resolved yet. |
| `Server.OnCompletionResolve` | src/server.js:125-132 | The item whose `data` is strictly 1 gets the fixed detail and documentation strings. Label, kind and data are kept. Every other item is returned unchanged. |
| `Server.ResolveIdempotent` | src/server.js:125-132 | Resolving twice is the same as resolving once. |
| `Server.ResolveEnrichesOnlyTrigger` | src/server.js:89-132 | Of the completion list, resolve enriches exactly the `trigger` item and returns every other item unchanged. |
| `Server.CompletionIgnoresPosition` | src/server.js:85-89 | The completion list is the same for every document and position. |

## Left out

- Logging is not modelled: `console.log` and `console.error`, including the `console.error` in the `catch` at src/debugAdapter.ts:109-111. The rejection of an expansion therefore only shows as the absence of further callbacks.
- Asynchrony is not modelled. Callbacks are assumed to run before the engine's promise settles. Each watch-triggered run is one atomic step, applied one after another. Overlapping runs and their out-of-order completion are not modelled.
- In a watch-triggered run, a rejected engine promise is not caught. Its unhandled rejection is left to the host, and the model treats it as the end of that run.
- A second watch-mode launch on the same session overwrites `this.watcher` without disposing the first watcher, which keeps firing. The model keeps only the watcher the field refers to.
- Nothing in the source ever adds to `disposables`. The model allows any list and disposes it in order.
- The calls to the transport and the host become log entries, not real calls. These are `sendResponse`, `sendEvent`, `sendErrorResponse`, the `vscode.window.*` notices and `changed` (for `vscode.Uri.file`, the model logs the session name).
  - `createFileSystemWatcher` is not a log entry: the `watcher` field records the watcher it returns, with its glob and the launch arguments.
  - `Handles` becomes the `variableHandles` field.
  - The `LoggingDebugSession` base class (its file logging and message dispatch) is not modelled.
  - `sendErrorResponse` is logged with its `{id, format, showUser}` argument. Its placeholder substitution in `format` is not modelled.
  - The variable-handle table numbers handles by creation order, starting at 1000. That is the debug adapter library's default start value; the library is not part of this model.
- `initializeRequest` starts from `response.body || {}`. The model replaces the body outright, as it is empty for a fresh response.
- The debug adapter's expansion engine and js-yaml are inputs (`Expansion`, `LoadResult`), not code. The text of the `TypeError` for reading a property of `null`/`undefined` follows the V8 engine's wording.
- `textDocument.positionAt` is not modelled: ranges are the offsets passed to it, with no clamping to the document length. A `Value` keeps only what truthiness and property reads need. Other js-yaml results (dates, binary) are objects, so truthy.
- Out of scope:
  - src/server.js:14-30 and 134-139: the LSP connection, the capability declaration and the `onDidChangeWatchedFiles` logging handler.
  - src/extension.js: command registration and an information message.
