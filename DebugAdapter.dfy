/**
  The debug session controller `AzurePipelinesDebugAdapter` (src/debugAdapter.ts).

  Everything the adapter does to the outside world (responses, events, notices, the
  `changed` callback, calls into the expansion engine, disposals) is appended to `log`.
  The expansion engine is an input: an `Expansion` lists the callbacks it invoked.
  Each method is proved against a pure function of a `SessionState` snapshot; the
  lemmas at the end of the module state what the source promises about those functions.
 */
module DebugAdapter {
  import opened Wrappers

  // ----------------------------------------------------------------------------------------
  // Requests, the expansion engine, outputs
  // ----------------------------------------------------------------------------------------

  /** The launch (and attach) arguments; an absent `trace`, `watch` or `preview` is `false`. */
  datatype LaunchArgs = LaunchArgs(
    program: string,
    trace: bool,
    watch: bool,
    preview: bool,
    repositories: Option<seq<string>>,
    variables: Option<seq<string>>,
    parameters: Option<seq<string>>)

  /** The arguments the adapter hands to the expansion engine. */
  datatype ExpansionRequest = ExpansionRequest(
    preview: bool,
    repositories: Option<seq<string>>,
    variables: Option<seq<string>>,
    parameters: Option<seq<string>>,
    filename: string)

  function RequestOf(args: LaunchArgs): ExpansionRequest {
    ExpansionRequest(args.preview, args.repositories, args.variables, args.parameters, args.program)
  }

  /** One call the engine makes back into the adapter. */
  datatype Callback = OnSuccess(result: string) | OnError(errmsg: string) {
    /** The text the callback carries: the expanded pipeline or the error message. */
    function Payload(): string {
      match this
      case OnSuccess(result) => result
      case OnError(errmsg) => errmsg
    }
  }

  /** What one invocation of the engine did: the callbacks it made, in order, and whether
      its promise was rejected afterwards. */
  datatype Expansion = Expansion(callbacks: seq<Callback>, threw: bool)

  /** A well-behaved engine makes exactly one callback. */
  function SuccessOutcome(text: string): Expansion { Expansion([OnSuccess(text)], false) }
  function FailureOutcome(errmsg: string): Expansion { Expansion([OnError(errmsg)], false) }
  /** An engine that throws before calling back. */
  function ThrewOutcome(): Expansion { Expansion([], true) }

  /** The pending response object a request handler receives. */
  datatype Response = Response(requestSeq: nat, command: string)

  /** The boolean capabilities `initialize` declares (src/debugAdapter.ts:42-64). */
  datatype Capability =
    | SupportsConfigurationDoneRequest
    | SupportsEvaluateForHovers
    | SupportsStepBack
    | SupportsDataBreakpoints
    | SupportsCompletionsRequest
    | SupportsCancelRequest
    | SupportsBreakpointLocationsRequest
    | SupportsStepInTargetsRequest
    | SupportsExceptionFilterOptions
    | SupportsExceptionInfoRequest
    | SupportsSetVariable
    | SupportsSetExpression
    | SupportsDisassembleRequest
    | SupportsSteppingGranularity
    | SupportsInstructionBreakpoints
    | SupportsReadMemoryRequest
    | SupportsWriteMemoryRequest
    | SupportSuspendDebuggee
    | SupportTerminateDebuggee
    | SupportsFunctionBreakpoints
    | SupportsDelayedStackTraceLoading

  /** The capabilities body of the initialize response, field by field. */
  datatype Capabilities = Capabilities(
    supportsConfigurationDoneRequest: bool,
    supportsEvaluateForHovers: bool,
    supportsStepBack: bool,
    supportsDataBreakpoints: bool,
    supportsCompletionsRequest: bool,
    completionTriggerCharacters: seq<string>,
    supportsCancelRequest: bool,
    supportsBreakpointLocationsRequest: bool,
    supportsStepInTargetsRequest: bool,
    supportsExceptionFilterOptions: bool,
    exceptionBreakpointFilters: seq<string>,
    supportsExceptionInfoRequest: bool,
    supportsSetVariable: bool,
    supportsSetExpression: bool,
    supportsDisassembleRequest: bool,
    supportsSteppingGranularity: bool,
    supportsInstructionBreakpoints: bool,
    supportsReadMemoryRequest: bool,
    supportsWriteMemoryRequest: bool,
    supportSuspendDebuggee: bool,
    supportTerminateDebuggee: bool,
    supportsFunctionBreakpoints: bool,
    supportsDelayedStackTraceLoading: bool)

  /** The flag `c` declares for capability `f`. */
  function Supports(c: Capabilities, f: Capability): bool {
    match f
    case SupportsConfigurationDoneRequest => c.supportsConfigurationDoneRequest
    case SupportsEvaluateForHovers => c.supportsEvaluateForHovers
    case SupportsStepBack => c.supportsStepBack
    case SupportsDataBreakpoints => c.supportsDataBreakpoints
    case SupportsCompletionsRequest => c.supportsCompletionsRequest
    case SupportsCancelRequest => c.supportsCancelRequest
    case SupportsBreakpointLocationsRequest => c.supportsBreakpointLocationsRequest
    case SupportsStepInTargetsRequest => c.supportsStepInTargetsRequest
    case SupportsExceptionFilterOptions => c.supportsExceptionFilterOptions
    case SupportsExceptionInfoRequest => c.supportsExceptionInfoRequest
    case SupportsSetVariable => c.supportsSetVariable
    case SupportsSetExpression => c.supportsSetExpression
    case SupportsDisassembleRequest => c.supportsDisassembleRequest
    case SupportsSteppingGranularity => c.supportsSteppingGranularity
    case SupportsInstructionBreakpoints => c.supportsInstructionBreakpoints
    case SupportsReadMemoryRequest => c.supportsReadMemoryRequest
    case SupportsWriteMemoryRequest => c.supportsWriteMemoryRequest
    case SupportSuspendDebuggee => c.supportSuspendDebuggee
    case SupportTerminateDebuggee => c.supportTerminateDebuggee
    case SupportsFunctionBreakpoints => c.supportsFunctionBreakpoints
    case SupportsDelayedStackTraceLoading => c.supportsDelayedStackTraceLoading
  }

  datatype Thread = Thread(id: nat, name: string)
  datatype Scope = Scope(name: string, variablesReference: nat, expensive: bool)

  /** The body a success response carries. */
  datatype Body =
    | NoBody
    | InitializeBody(capabilities: Capabilities)
    | ThreadsBody(threads: seq<Thread>)
    | ScopesBody(scopes: seq<Scope>)

  /** The `{ id, format, showUser }` message of an error response. */
  datatype ErrorDetail = ErrorDetail(id: nat, format: string, showUser: bool)

  datatype Event = Initialized | Terminated

  /** A resource the adapter holds and releases on disconnect. */
  datatype Disposable = Disposable(id: nat)

  datatype Output =
    | SendResponse(response: Response, body: Body)
    | SendErrorResponse(response: Response, error: ErrorDetail)
    | SendEvent(event: Event)
    | ShowInformationMessage(text: string)
    | ShowErrorMessage(text: string)
    | Changed(uri: string)
    | InvokeExpansion(request: ExpansionRequest)
    | DisposeWatcher
    | Dispose(disposable: Disposable)

  /** A file system watcher: its glob, the launch arguments its handlers re-run with,
      and whether it has been disposed. */
  datatype Watcher = Watcher(glob: string, args: LaunchArgs, disposed: bool)

  /** The three watcher events; all three are handled alike. */
  datatype FileEventKind = FileCreated | FileChanged | FileDeleted

  const NoIssuesFound := "No Issues found"
  const WatchGlob := "**/*.{yml,yaml}"
  const LaunchErrorId: nat := 1001
  const ThreadId: nat := 1
  const ThreadName := "Azure Pipelines Thread"
  /** The first handle the variable-handle table gives out. */
  const FirstVariableHandle: nat := 1000

  /** The capability set `initialize` declares. */
  function InitializeCapabilities(): Capabilities {
    Capabilities(
      supportsConfigurationDoneRequest := true,
      supportsEvaluateForHovers := false,
      supportsStepBack := false,
      supportsDataBreakpoints := false,
      supportsCompletionsRequest := false,
      completionTriggerCharacters := [".", "["],
      supportsCancelRequest := false,
      supportsBreakpointLocationsRequest := false,
      supportsStepInTargetsRequest := false,
      supportsExceptionFilterOptions := false,
      exceptionBreakpointFilters := [],
      supportsExceptionInfoRequest := false,
      supportsSetVariable := false,
      supportsSetExpression := false,
      supportsDisassembleRequest := false,
      supportsSteppingGranularity := false,
      supportsInstructionBreakpoints := false,
      supportsReadMemoryRequest := false,
      supportsWriteMemoryRequest := false,
      supportSuspendDebuggee := false,
      supportTerminateDebuggee := true,
      supportsFunctionBreakpoints := false,
      supportsDelayedStackTraceLoading := false)
  }

  /** Of every capability the handler sets, only configurationDone and terminateDebuggee are
      supported, no exception filter is offered, and completion triggers on "." and "[". */
  lemma OnlyConfigurationDoneAndTerminate()
    ensures var c := InitializeCapabilities();
      && (forall f: Capability :: Supports(c, f) <==> f == SupportsConfigurationDoneRequest || f == SupportTerminateDebuggee)
      && c.completionTriggerCharacters == [".", "["]
      && c.exceptionBreakpointFilters == []
  {
  }

  // ----------------------------------------------------------------------------------------
  // The session state and the functions that specify the adapter
  // ----------------------------------------------------------------------------------------

  datatype SessionState = SessionState(
    name: string,
    virtualFiles: map<string, string>,
    watcher: Option<Watcher>,
    disposables: seq<Disposable>,
    variableHandles: seq<string>,
    log: seq<Output>)

  /** The invariant the adapter keeps: the only virtual file it owns is its own, and a
      watcher is only ever armed by a watch-mode launch over the pipeline-file glob. */
  predicate Consistent(s: SessionState) {
    && s.virtualFiles.Keys <= {s.name}
    && (s.watcher.Some? ==> s.watcher.value.glob == WatchGlob && s.watcher.value.args.watch)
  }

  function Append(s: SessionState, o: Output): SessionState {
    s.(log := s.log + [o])
  }

  /** Preview: the session's virtual file shows `text`, and the editor is told it changed. */
  function ShowVirtual(s: SessionState, text: string): SessionState {
    s.(virtualFiles := s.virtualFiles[s.name := text], log := s.log + [Changed(s.name)])
  }

  /** The state of one `run`: the session, its local `hasErrors`, and the `message` that
      the launch shares with it. */
  datatype RunFrame = RunFrame(session: SessionState, hasErrors: bool, message: Option<string>)

  /** One callback of the engine (src/debugAdapter.ts:84-103). */
  function OnCallback(f: RunFrame, args: LaunchArgs, cb: Callback): RunFrame {
    match cb
    case OnSuccess(result) =>
      if args.preview then f.(session := ShowVirtual(f.session, result))
      else if !f.hasErrors then f.(session := Append(f.session, ShowInformationMessage(NoIssuesFound)))
      else f
    case OnError(errmsg) =>
      var f' := f.(hasErrors := true);
      if args.preview then f'.(session := ShowVirtual(f.session, errmsg))
      else if args.watch then f'.(session := Append(f.session, ShowErrorMessage(errmsg)))
      else f'.(message := Some(errmsg))
  }

  /** The callbacks of one invocation, applied in order. */
  function OnCallbacks(f: RunFrame, args: LaunchArgs, cbs: seq<Callback>): RunFrame
    decreases |cbs|
  {
    if cbs == [] then f else OnCallbacks(OnCallback(f, args, cbs[0]), args, cbs[1..])
  }

  /** One `run`: invoke the engine, with `hasErrors` starting out false. */
  function RunSpec(s: SessionState, args: LaunchArgs, exp: Expansion, message: Option<string>): RunFrame {
    OnCallbacks(RunFrame(Append(s, InvokeExpansion(RequestOf(args))), false, message), args, exp.callbacks)
  }

  /** `if (message)`: JavaScript truthiness, so an empty error text counts as none. */
  predicate Truthy(message: Option<string>) {
    message.Some? && message.value != ""
  }

  /** `launchRequest` (src/debugAdapter.ts:74-139). */
  function LaunchSpec(s: SessionState, response: Response, args: LaunchArgs, exp: Expansion): SessionState {
    var r := RunSpec(s, args, exp, None);
    if args.watch then
      r.session.(watcher := Some(Watcher(WatchGlob, args, false)))
    else if Truthy(r.message) then
      Append(r.session, SendErrorResponse(response, ErrorDetail(LaunchErrorId, r.message.value, true)))
    else
      r.session.(log := r.session.log + [SendResponse(response, NoBody), SendEvent(Terminated)])
  }

  /** A create, change or delete event from the watcher (src/debugAdapter.ts:115-126):
      a live watcher runs again with its launch arguments; a disposed one reports nothing. */
  function FileEventSpec(s: SessionState, exp: Expansion): SessionState {
    match s.watcher
    case Some(w) => if w.disposed then s else RunSpec(s, w.args, exp, None).session
    case None => s
  }

  /** A series of file events, the earliest first, each with its own engine behaviour. */
  function FileEvents(s: SessionState, events: seq<Expansion>): SessionState
    decreases |events|
  {
    if events == [] then s else FileEventSpec(FileEvents(s, events[..|events| - 1]), events[|events| - 1])
  }

  /** The disposal of each resource, in order. */
  function DisposeAll(ds: seq<Disposable>): seq<Output>
    decreases |ds|
  {
    if ds == [] then [] else DisposeAll(ds[..|ds| - 1]) + [Dispose(ds[|ds| - 1])]
  }

  /** `disconnectRequest` (src/debugAdapter.ts:145-155). The disposed watcher stays
      referenced, as it does in the field. */
  function DisconnectSpec(s: SessionState, response: Response): SessionState {
    var watcher := if s.watcher.Some? then Some(s.watcher.value.(disposed := true)) else None;
    var released := (if s.watcher.Some? then [DisposeWatcher] else []) + DisposeAll(s.disposables);
    s.(watcher := watcher,
       virtualFiles := s.virtualFiles - {s.name},
       log := s.log + released + [SendResponse(response, NoBody)])
  }

  /** The message of the last `OnError` among `cbs`, if any. */
  function LastError(cbs: seq<Callback>): (m: Option<string>)
    decreases |cbs|
  {
    if cbs == [] then None
    else if LastError(cbs[1..]).Some? then LastError(cbs[1..])
    else if cbs[0].OnError? then Some(cbs[0].errmsg)
    else None
  }

  /** Some success comes before every error among `cbs`. */
  predicate SuccessBeforeAnyError(cbs: seq<Callback>) {
    exists i :: 0 <= i < |cbs| && cbs[i].OnSuccess? && forall j :: 0 <= j < i ==> !cbs[j].OnError?
  }

  /** Outputs a callback can produce: never a response, never an event. */
  predicate CallbackOutput(o: Output) {
    o.Changed? || o.ShowInformationMessage? || o.ShowErrorMessage?
  }

  // ----------------------------------------------------------------------------------------
  // The adapter
  // ----------------------------------------------------------------------------------------

  class AzurePipelinesDebugAdapter {
    const name: string
    var virtualFiles: map<string, string>
    var watcher: Option<Watcher>
    var disposables: seq<Disposable>
    var variableHandles: seq<string>
    var log: seq<Output>

    function State(): SessionState
      reads this
    {
      SessionState(name, virtualFiles, watcher, disposables, variableHandles, log)
    }

    ghost predicate Valid()
      reads this
    {
      Consistent(State())
    }

    constructor (name: string)
      ensures Valid()
      ensures State() == SessionState(name, map[], None, [], [], [])
    {
      this.name := name;
      virtualFiles := map[];
      watcher := None;
      disposables := [];
      variableHandles := [];
      log := [];
    }

    method InitializeRequest(response: Response)
      requires Valid()
      modifies this
      ensures Valid()
      ensures State() == old(State()).(log := old(log) + [SendResponse(response, InitializeBody(InitializeCapabilities())), SendEvent(Initialized)])
    {
      log := log + [SendResponse(response, InitializeBody(InitializeCapabilities()))];
      log := log + [SendEvent(Initialized)];
    }

    method AttachRequest(response: Response, args: LaunchArgs, exp: Expansion)
      requires Valid()
      modifies this
      ensures Valid()
      ensures State() == LaunchSpec(old(State()), response, args, exp)
    {
      LaunchRequest(response, args, exp);
    }

    method LaunchRequest(response: Response, args: LaunchArgs, exp: Expansion)
      requires Valid()
      modifies this
      ensures Valid()
      ensures State() == LaunchSpec(old(State()), response, args, exp)
    {
      ghost var s0 := State();
      var message := Run(args, exp, None);
      if args.watch {
        watcher := Some(Watcher(WatchGlob, args, false));
      } else if message.Some? && message.value != "" {
        log := log + [SendErrorResponse(response, ErrorDetail(LaunchErrorId, message.value, true))];
      } else {
        log := log + [SendResponse(response, NoBody)];
        log := log + [SendEvent(Terminated)];
      }
      LaunchKeepsConsistent(s0, response, args, exp);
    }

    /** The `run` closure: invoke the engine and apply its callbacks one after another. */
    method Run(args: LaunchArgs, exp: Expansion, message: Option<string>) returns (message': Option<string>)
      modifies this
      ensures State() == RunSpec(old(State()), args, exp, message).session
      ensures message' == RunSpec(old(State()), args, exp, message).message
    {
      log := log + [InvokeExpansion(RequestOf(args))];
      ghost var start := RunFrame(State(), false, message);
      var hasErrors := false;
      message' := message;
      var i := 0;
      while i < |exp.callbacks|
        decreases |exp.callbacks| - i
        invariant 0 <= i <= |exp.callbacks|
        invariant OnCallbacks(RunFrame(State(), hasErrors, message'), args, exp.callbacks[i..])
               == OnCallbacks(start, args, exp.callbacks)
      {
        ghost var before := RunFrame(State(), hasErrors, message');
        match exp.callbacks[i] {
          case OnSuccess(result) =>
            if args.preview {
              virtualFiles := virtualFiles[name := result];
              log := log + [Changed(name)];
            } else if !hasErrors {
              log := log + [ShowInformationMessage(NoIssuesFound)];
            }
          case OnError(errmsg) =>
            hasErrors := true;
            if args.preview {
              virtualFiles := virtualFiles[name := errmsg];
              log := log + [Changed(name)];
            } else if args.watch {
              log := log + [ShowErrorMessage(errmsg)];
            } else {
              message' := Some(errmsg);
            }
        }
        assert RunFrame(State(), hasErrors, message') == OnCallback(before, args, exp.callbacks[i]);
        assert exp.callbacks[i..][1..] == exp.callbacks[i + 1..];
        i := i + 1;
      }
      assert exp.callbacks[i..] == [];
    }

    /** The watcher's create, change and delete handlers all re-run `run`. */
    method FileEvent(kind: FileEventKind, exp: Expansion)
      requires Valid()
      modifies this
      ensures Valid()
      ensures State() == FileEventSpec(old(State()), exp)
    {
      ghost var s0 := State();
      if watcher.Some? && !watcher.value.disposed {
        var ignored := Run(watcher.value.args, exp, None);
      }
      FileEventKeepsConsistent(s0, exp);
    }

    method ConfigurationDoneRequest(response: Response)
      requires Valid()
      modifies this
      ensures Valid()
      ensures State() == old(State()).(log := old(log) + [SendResponse(response, NoBody)])
    {
      log := log + [SendResponse(response, NoBody)];
    }

    method DisconnectRequest(response: Response)
      requires Valid()
      modifies this
      ensures Valid()
      ensures State() == DisconnectSpec(old(State()), response)
    {
      ghost var s0 := State();
      if watcher.Some? {
        watcher := Some(watcher.value.(disposed := true));
        log := log + [DisposeWatcher];
      }
      ghost var s1 := State();
      var i := 0;
      while i < |disposables|
        invariant 0 <= i <= |disposables|
        invariant State() == s1.(log := s1.log + DisposeAll(disposables[..i]))
      {
        assert disposables[..i + 1][..i] == disposables[..i];
        log := log + [Dispose(disposables[i])];
        i := i + 1;
      }
      assert disposables[..i] == disposables;
      virtualFiles := virtualFiles - {name};
      log := log + [SendResponse(response, NoBody)];
      DisconnectKeepsConsistent(s0, response);
    }

    method ThreadsRequest(response: Response)
      requires Valid()
      modifies this
      ensures Valid()
      ensures State() == old(State()).(log := old(log) + [SendResponse(response, ThreadsBody([Thread(ThreadId, ThreadName)]))])
    {
      log := log + [SendResponse(response, ThreadsBody([Thread(ThreadId, ThreadName)]))];
    }

    /** Each call registers a fresh "local" handle for the one, non-expensive, scope. */
    method ScopesRequest(response: Response)
      requires Valid()
      modifies this
      ensures Valid()
      ensures State() == old(State()).(
        variableHandles := old(variableHandles) + ["local"],
        log := old(log) + [SendResponse(response, ScopesBody([Scope("Local", FirstVariableHandle + |old(variableHandles)|, false)]))])
    {
      var handle := FirstVariableHandle + |variableHandles|;
      variableHandles := variableHandles + ["local"];
      log := log + [SendResponse(response, ScopesBody([Scope("Local", handle, false)]))];
    }

    /** No variables: the response goes out without a body. */
    method VariablesRequest(response: Response)
      requires Valid()
      modifies this
      ensures Valid()
      ensures State() == old(State()).(log := old(log) + [SendResponse(response, NoBody)])
    {
      log := log + [SendResponse(response, NoBody)];
    }
  }

  // ----------------------------------------------------------------------------------------
  // What a run does
  // ----------------------------------------------------------------------------------------

  /** Callbacks touch only the session's own virtual file and only append callback outputs;
      `hasErrors` ends up set exactly when it was already set or an error was reported. */
  lemma {:induction false} CallbacksFrame(f: RunFrame, args: LaunchArgs, cbs: seq<Callback>)
    ensures var r := OnCallbacks(f, args, cbs);
      && r.session == f.session.(virtualFiles := r.session.virtualFiles, log := r.session.log)
      && r.session.virtualFiles.Keys <= f.session.virtualFiles.Keys + {f.session.name}
      && (forall k :: k in f.session.virtualFiles && k != f.session.name ==>
            k in r.session.virtualFiles && r.session.virtualFiles[k] == f.session.virtualFiles[k])
      && |f.session.log| <= |r.session.log|
      && r.session.log[..|f.session.log|] == f.session.log
      && (forall i :: |f.session.log| <= i < |r.session.log| ==> CallbackOutput(r.session.log[i]))
      && (r.hasErrors <==> f.hasErrors || exists i :: 0 <= i < |cbs| && cbs[i].OnError?)
    decreases |cbs|
  {
    if cbs != [] {
      var f1 := OnCallback(f, args, cbs[0]);
      CallbacksFrame(f1, args, cbs[1..]);
      var r := OnCallbacks(f, args, cbs);
      assert r.session.log[..|f1.session.log|] == f1.session.log;
      assert f1.session.log[..|f.session.log|] == f.session.log;
      assert cbs[0].OnError? ==> exists i :: 0 <= i < |cbs| && cbs[i].OnError?;
      assert forall i :: 0 <= i < |cbs[1..]| ==> cbs[1..][i] == cbs[i + 1];
    }
  }

  /** In preview mode every callback, success or error alike, writes its text to the
      session's virtual file and fires `changed` once; the last write stays. */
  lemma {:induction false} PreviewCallbacks(f: RunFrame, args: LaunchArgs, cbs: seq<Callback>)
    requires args.preview
    ensures var r := OnCallbacks(f, args, cbs);
      && r.session.virtualFiles == (if cbs == [] then f.session.virtualFiles
                                    else f.session.virtualFiles[f.session.name := cbs[|cbs| - 1].Payload()])
      && r.session.log == f.session.log + seq(|cbs|, _ => Changed(f.session.name))
      && r.message == f.message
    decreases |cbs|
  {
    if cbs != [] {
      var f1 := OnCallback(f, args, cbs[0]);
      PreviewCallbacks(f1, args, cbs[1..]);
      assert f1.session.log == f.session.log + [Changed(f.session.name)];
      assert [Changed(f.session.name)] + seq(|cbs| - 1, _ => Changed(f.session.name))
          == seq(|cbs|, _ => Changed(f.session.name));
      if cbs[1..] != [] {
        assert cbs[1..][|cbs[1..]| - 1] == cbs[|cbs| - 1];
      }
    }
  }

  /** `message` is only ever captured by a plain run (neither preview nor watch), and it
      is then the text of the last error reported. */
  lemma {:induction false} MessageCapturedOnlyInPlainRun(f: RunFrame, args: LaunchArgs, cbs: seq<Callback>)
    ensures OnCallbacks(f, args, cbs).message
         == if !args.preview && !args.watch && LastError(cbs).Some? then LastError(cbs) else f.message
    decreases |cbs|
  {
    if cbs != [] {
      MessageCapturedOnlyInPlainRun(OnCallback(f, args, cbs[0]), args, cbs[1..]);
    }
  }

  /** Outside preview the virtual files are left alone. */
  lemma {:induction false} NonPreviewKeepsVirtualFiles(f: RunFrame, args: LaunchArgs, cbs: seq<Callback>)
    requires !args.preview
    ensures OnCallbacks(f, args, cbs).session.virtualFiles == f.session.virtualFiles
    decreases |cbs|
  {
    if cbs != [] {
      NonPreviewKeepsVirtualFiles(OnCallback(f, args, cbs[0]), args, cbs[1..]);
    }
  }

  /** Once an error has been reported in a run, that run shows no "No Issues found". */
  lemma {:induction false} NoNoticeOnceErrored(f: RunFrame, args: LaunchArgs, cbs: seq<Callback>)
    requires f.hasErrors
    ensures var r := OnCallbacks(f, args, cbs);
      |f.session.log| <= |r.session.log| &&
      ShowInformationMessage(NoIssuesFound) !in r.session.log[|f.session.log|..]
    decreases |cbs|
  {
    CallbacksFrame(f, args, cbs);
    if cbs != [] {
      var f1 := OnCallback(f, args, cbs[0]);
      NoNoticeOnceErrored(f1, args, cbs[1..]);
      CallbacksFrame(f1, args, cbs[1..]);
      var r := OnCallbacks(f, args, cbs);
      assert r.session.log[|f.session.log|..] == f1.session.log[|f.session.log|..] + r.session.log[|f1.session.log|..];
    }
  }

  /** "No Issues found" is shown in a run exactly when it is not a preview and a success is
      reported before any error of the same run. */
  lemma {:induction false} NoIssuesNoticeIff(f: RunFrame, args: LaunchArgs, cbs: seq<Callback>)
    requires !f.hasErrors
    ensures var r := OnCallbacks(f, args, cbs);
      |f.session.log| <= |r.session.log| &&
      ((ShowInformationMessage(NoIssuesFound) in r.session.log[|f.session.log|..])
         <==> !args.preview && SuccessBeforeAnyError(cbs))
    decreases |cbs|
  {
    CallbacksFrame(f, args, cbs);
    var r := OnCallbacks(f, args, cbs);
    if cbs == [] {
    } else if args.preview {
      PreviewCallbacks(f, args, cbs);
      assert r.session.log[|f.session.log|..] == seq(|cbs|, _ => Changed(f.session.name));
    } else {
      var f1 := OnCallback(f, args, cbs[0]);
      CallbacksFrame(f1, args, cbs[1..]);
      assert r.session.log[|f.session.log|..] == f1.session.log[|f.session.log|..] + r.session.log[|f1.session.log|..];
      if cbs[0].OnSuccess? {
        assert f1.session.log[|f.session.log|..] == [ShowInformationMessage(NoIssuesFound)];
        assert cbs[0].OnSuccess?;
      } else {
        NoNoticeOnceErrored(f1, args, cbs[1..]);
        assert ShowInformationMessage(NoIssuesFound) !in f1.session.log[|f.session.log|..];
        assert !SuccessBeforeAnyError(cbs) by {
          forall i | 0 <= i < |cbs| && cbs[i].OnSuccess?
            ensures exists j :: 0 <= j < i && cbs[j].OnError?
          {
            assert cbs[0].OnError?;
          }
        }
      }
    }
  }

  /** A run with one callback applies just that callback. */
  lemma SingleCallback(f: RunFrame, args: LaunchArgs, cb: Callback)
    ensures OnCallbacks(f, args, [cb]) == OnCallback(f, args, cb)
  {
    assert [cb][1..] == [];
    assert OnCallbacks(OnCallback(f, args, cb), args, []) == OnCallback(f, args, cb);
  }

  // ----------------------------------------------------------------------------------------
  // Launch and attach
  // ----------------------------------------------------------------------------------------

  /** Outside watch mode the launch ends in exactly one of two ways: an error response with
      id 1001 carrying the captured message (only a plain run can capture one, and only a
      non-empty one counts), or a success response followed by a TerminatedEvent. */
  lemma LaunchWithoutWatch(s: SessionState, response: Response, args: LaunchArgs, exp: Expansion)
    requires !args.watch
    ensures var r := LaunchSpec(s, response, args, exp);
      var m := LastError(exp.callbacks);
      && r.watcher == s.watcher
      && |s.log| < |r.log| && r.log[..|s.log|] == s.log
      && (if !args.preview && Truthy(m) then
            && r.log[|r.log| - 1] == SendErrorResponse(response, ErrorDetail(LaunchErrorId, m.value, true))
            && SendEvent(Terminated) !in r.log[|s.log|..]
          else
            && |r.log| >= |s.log| + 3
            && r.log[|r.log| - 2..] == [SendResponse(response, NoBody), SendEvent(Terminated)])
  {
    var f0 := RunFrame(Append(s, InvokeExpansion(RequestOf(args))), false, None);
    CallbacksFrame(f0, args, exp.callbacks);
    MessageCapturedOnlyInPlainRun(f0, args, exp.callbacks);
    var run := OnCallbacks(f0, args, exp.callbacks);
    var r := LaunchSpec(s, response, args, exp);
    assert r.log[..|s.log|] == s.log by {
      assert run.session.log[..|f0.session.log|] == f0.session.log;
      assert f0.session.log[..|s.log|] == s.log;
    }
    if !args.preview && Truthy(LastError(exp.callbacks)) {
      assert r.log[|s.log|..] == [InvokeExpansion(RequestOf(args))] + run.session.log[|f0.session.log|..]
                                 + [SendErrorResponse(response, ErrorDetail(LaunchErrorId, run.message.value, true))];
      forall i | |s.log| <= i < |r.log| ensures r.log[i] != SendEvent(Terminated) {
        if |f0.session.log| <= i < |run.session.log| {
          assert CallbackOutput(run.session.log[i]);
        }
      }
    }
  }

  /** A plain launch whose expansion fails with a non-empty message answers with an error
      response carrying that message, and with nothing else. */
  lemma PlainFailureIsErrorResponse(s: SessionState, response: Response, args: LaunchArgs, errmsg: string)
    requires !args.preview && !args.watch && errmsg != ""
    ensures LaunchSpec(s, response, args, FailureOutcome(errmsg))
         == s.(log := s.log + [InvokeExpansion(RequestOf(args)), SendErrorResponse(response, ErrorDetail(LaunchErrorId, errmsg, true))])
  {
    SingleCallback(RunFrame(Append(s, InvokeExpansion(RequestOf(args))), false, None), args, OnError(errmsg));
  }

  /** JavaScript truthiness: a plain launch whose expansion fails with an empty message is
      reported as a success and terminates. */
  lemma EmptyErrorMessageReadsAsSuccess(s: SessionState, response: Response, args: LaunchArgs)
    requires !args.preview && !args.watch
    ensures LaunchSpec(s, response, args, FailureOutcome(""))
         == s.(log := s.log + [InvokeExpansion(RequestOf(args)), SendResponse(response, NoBody), SendEvent(Terminated)])
  {
    SingleCallback(RunFrame(Append(s, InvokeExpansion(RequestOf(args))), false, None), args, OnError(""));
  }

  /** A plain launch whose expansion succeeds shows "No Issues found", then succeeds and terminates. */
  lemma PlainSuccessTerminates(s: SessionState, response: Response, args: LaunchArgs, text: string)
    requires !args.preview && !args.watch
    ensures LaunchSpec(s, response, args, SuccessOutcome(text))
         == s.(log := s.log + [InvokeExpansion(RequestOf(args)), ShowInformationMessage(NoIssuesFound),
                               SendResponse(response, NoBody), SendEvent(Terminated)])
  {
    SingleCallback(RunFrame(Append(s, InvokeExpansion(RequestOf(args))), false, None), args, OnSuccess(text));
  }

  /** A one-shot preview, whether the expansion succeeded or failed, writes its text to the
      session's virtual file only, fires `changed` once, and succeeds at the protocol level. */
  lemma PreviewLaunch(s: SessionState, response: Response, args: LaunchArgs, cb: Callback)
    requires args.preview && !args.watch
    ensures LaunchSpec(s, response, args, Expansion([cb], false))
         == s.(virtualFiles := s.virtualFiles[s.name := cb.Payload()],
               log := s.log + [InvokeExpansion(RequestOf(args)), Changed(s.name),
                               SendResponse(response, NoBody), SendEvent(Terminated)])
  {
    SingleCallback(RunFrame(Append(s, InvokeExpansion(RequestOf(args))), false, None), args, cb);
  }

  /** An engine that throws before calling back leaves a one-shot launch to succeed and terminate. */
  lemma ThrownExpansionTerminates(s: SessionState, response: Response, args: LaunchArgs)
    requires !args.watch
    ensures LaunchSpec(s, response, args, ThrewOutcome())
         == s.(log := s.log + [InvokeExpansion(RequestOf(args)), SendResponse(response, NoBody), SendEvent(Terminated)])
  {
  }

  /** The rejection is caught by `launchRequest` (src/debugAdapter.ts:107-111) and only
      written to the console, which is not modelled. That is why no function of this model
      reads `Expansion.threw`, so this lemma holds by construction. It records that the
      rejection has no observable effect; it is not a property derived from the launch rules. */
  lemma ThrowIsCaught(s: SessionState, response: Response, args: LaunchArgs, cbs: seq<Callback>)
    ensures LaunchSpec(s, response, args, Expansion(cbs, true)) == LaunchSpec(s, response, args, Expansion(cbs, false))
  {
  }

  /** In watch mode the launch sends no response and no event; it invokes the engine and
      arms a watcher over the pipeline files with the same arguments. */
  lemma LaunchWithWatch(s: SessionState, response: Response, args: LaunchArgs, exp: Expansion)
    requires args.watch
    ensures var r := LaunchSpec(s, response, args, exp);
      && r.watcher == Some(Watcher(WatchGlob, args, false))
      && |s.log| < |r.log| && r.log[..|s.log|] == s.log
      && r.log[|s.log|] == InvokeExpansion(RequestOf(args))
      && (forall i :: |s.log| < i < |r.log| ==> CallbackOutput(r.log[i]))
  {
    var f0 := RunFrame(Append(s, InvokeExpansion(RequestOf(args))), false, None);
    CallbacksFrame(f0, args, exp.callbacks);
    var r := LaunchSpec(s, response, args, exp);
    assert r.log[..|f0.session.log|] == f0.session.log;
    assert r.log[..|s.log|] == f0.session.log[..|s.log|];
  }

  /** Outside preview, a failure in watch mode becomes an error notice, not a response. */
  lemma WatchFailureShowsNotice(s: SessionState, response: Response, args: LaunchArgs, errmsg: string)
    requires args.watch && !args.preview
    ensures LaunchSpec(s, response, args, FailureOutcome(errmsg))
         == s.(watcher := Some(Watcher(WatchGlob, args, false)),
               log := s.log + [InvokeExpansion(RequestOf(args)), ShowErrorMessage(errmsg)])
  {
    SingleCallback(RunFrame(Append(s, InvokeExpansion(RequestOf(args))), false, None), args, OnError(errmsg));
  }

  /** A launch writes no virtual file but the session's own. */
  lemma LaunchTouchesOnlyOwnFile(s: SessionState, response: Response, args: LaunchArgs, exp: Expansion)
    ensures var r := LaunchSpec(s, response, args, exp);
      && r.virtualFiles.Keys <= s.virtualFiles.Keys + {s.name}
      && forall k :: k in s.virtualFiles && k != s.name ==> k in r.virtualFiles && r.virtualFiles[k] == s.virtualFiles[k]
  {
    CallbacksFrame(RunFrame(Append(s, InvokeExpansion(RequestOf(args))), false, None), args, exp.callbacks);
  }

  lemma LaunchKeepsConsistent(s: SessionState, response: Response, args: LaunchArgs, exp: Expansion)
    requires Consistent(s)
    ensures Consistent(LaunchSpec(s, response, args, exp))
  {
    CallbacksFrame(RunFrame(Append(s, InvokeExpansion(RequestOf(args))), false, None), args, exp.callbacks);
  }

  // ----------------------------------------------------------------------------------------
  // Watch-triggered runs
  // ----------------------------------------------------------------------------------------

  /** A file event on a live watcher re-runs its launch: it invokes the engine with the
      request built from the watcher's stored arguments, keeps the watcher as it is, and
      follows the call with callback output only: no response and no event. */
  lemma FileEventOnLiveWatcher(s: SessionState, next: Expansion)
    requires s.watcher.Some? && !s.watcher.value.disposed
    ensures var u := FileEventSpec(s, next);
      && |s.log| < |u.log|
      && u.log[..|s.log|] == s.log
      && u.log[|s.log|] == InvokeExpansion(RequestOf(s.watcher.value.args))
      && u.watcher == s.watcher
      && (forall i :: |s.log| < i < |u.log| ==> CallbackOutput(u.log[i]))
  {
    var w := s.watcher.value;
    var f0 := RunFrame(Append(s, InvokeExpansion(RequestOf(w.args))), false, None);
    CallbacksFrame(f0, w.args, next.callbacks);
    var u := FileEventSpec(s, next);
    assert u.log[..|f0.session.log|] == f0.session.log;
    assert u.log[..|s.log|] == f0.session.log[..|s.log|];
  }

  /** After a watch-mode launch, the first file event invokes the engine with the very
      request the launch made, keeps the watcher armed, and sends no response or event.
      `EveryFileEventRerunsLaunch` covers the later events. */
  lemma FileEventRerunsLaunch(s: SessionState, response: Response, args: LaunchArgs, exp: Expansion, next: Expansion)
    requires args.watch
    ensures var t := LaunchSpec(s, response, args, exp);
      var u := FileEventSpec(t, next);
      && |s.log| < |t.log| < |u.log|
      && u.log[..|t.log|] == t.log
      && u.log[|t.log|] == t.log[|s.log|] == InvokeExpansion(RequestOf(args))
      && u.watcher == t.watcher
      && (forall i :: |t.log| < i < |u.log| ==> CallbackOutput(u.log[i]))
  {
    LaunchWithWatch(s, response, args, exp);
    FileEventOnLiveWatcher(LaunchSpec(s, response, args, exp), next);
  }

  /** Events on a live watcher leave it as it is and only append to the log. */
  lemma {:induction false} FileEventsKeepWatcher(s: SessionState, events: seq<Expansion>)
    requires s.watcher.Some? && !s.watcher.value.disposed
    ensures var u := FileEvents(s, events);
      && u.watcher == s.watcher
      && |s.log| + |events| <= |u.log|
      && u.log[..|s.log|] == s.log
    decreases |events|
  {
    if events != [] {
      var p := FileEvents(s, events[..|events| - 1]);
      FileEventsKeepWatcher(s, events[..|events| - 1]);
      FileEventOnLiveWatcher(p, events[|events| - 1]);
      var u := FileEvents(s, events);
      assert u.log[..|s.log|] == u.log[..|p.log|][..|s.log|];
    }
  }

  /** However many file events have come before, the next one after a watch-mode launch
      again invokes the engine with the launch's request. */
  lemma EveryFileEventRerunsLaunch(s: SessionState, response: Response, args: LaunchArgs, exp: Expansion,
                                   earlier: seq<Expansion>, next: Expansion)
    requires args.watch
    ensures var p := FileEvents(LaunchSpec(s, response, args, exp), earlier);
      var u := FileEventSpec(p, next);
      && |p.log| < |u.log|
      && u.log[..|p.log|] == p.log
      && u.log[|p.log|] == InvokeExpansion(RequestOf(args))
      && u.watcher == p.watcher == Some(Watcher(WatchGlob, args, false))
      && (forall i :: |p.log| < i < |u.log| ==> CallbackOutput(u.log[i]))
  {
    var t := LaunchSpec(s, response, args, exp);
    LaunchWithWatch(s, response, args, exp);
    FileEventsKeepWatcher(t, earlier);
    FileEventOnLiveWatcher(FileEvents(t, earlier), next);
  }

  /** A watch-triggered run never captures the launch's `message`. */
  lemma WatchRunCapturesNoMessage(s: SessionState, args: LaunchArgs, exp: Expansion, message: Option<string>)
    requires args.watch
    ensures RunSpec(s, args, exp, message).message == message
  {
    MessageCapturedOnlyInPlainRun(RunFrame(Append(s, InvokeExpansion(RequestOf(args))), false, message), args, exp.callbacks);
  }

  /** `hasErrors` belongs to one run: a failed run does not silence the next run's
      "No Issues found". */
  lemma HasErrorsIsPerRun(s: SessionState, errmsg: string, text: string)
    requires s.watcher.Some? && !s.watcher.value.disposed
    requires s.watcher.value.args.watch && !s.watcher.value.args.preview
    ensures var req := InvokeExpansion(RequestOf(s.watcher.value.args));
      FileEventSpec(FileEventSpec(s, FailureOutcome(errmsg)), SuccessOutcome(text))
        == s.(log := s.log + [req, ShowErrorMessage(errmsg), req, ShowInformationMessage(NoIssuesFound)])
  {
    var w := s.watcher.value;
    var req := InvokeExpansion(RequestOf(w.args));
    SingleCallback(RunFrame(Append(s, req), false, None), w.args, OnError(errmsg));
    var s1 := FileEventSpec(s, FailureOutcome(errmsg));
    SingleCallback(RunFrame(Append(s1, req), false, None), w.args, OnSuccess(text));
  }

  /** Within one run, an error reported before the success does silence it. */
  lemma ErrorThenSuccessShowsNoNotice(s: SessionState, response: Response, args: LaunchArgs, errmsg: string, text: string)
    requires args.watch && !args.preview
    ensures LaunchSpec(s, response, args, Expansion([OnError(errmsg), OnSuccess(text)], false))
         == s.(watcher := Some(Watcher(WatchGlob, args, false)),
               log := s.log + [InvokeExpansion(RequestOf(args)), ShowErrorMessage(errmsg)])
  {
    var cbs := [OnError(errmsg), OnSuccess(text)];
    var f0 := RunFrame(Append(s, InvokeExpansion(RequestOf(args))), false, None);
    var f1 := OnCallback(f0, args, OnError(errmsg));
    assert cbs[1..] == [OnSuccess(text)];
    SingleCallback(f1, args, OnSuccess(text));
    assert OnCallbacks(f0, args, cbs) == OnCallbacks(f1, args, [OnSuccess(text)]);
  }

  lemma FileEventKeepsConsistent(s: SessionState, exp: Expansion)
    requires Consistent(s)
    ensures Consistent(FileEventSpec(s, exp))
  {
    if s.watcher.Some? && !s.watcher.value.disposed {
      CallbacksFrame(RunFrame(Append(s, InvokeExpansion(RequestOf(s.watcher.value.args))), false, None),
                     s.watcher.value.args, exp.callbacks);
    }
  }

  // ----------------------------------------------------------------------------------------
  // Disconnect
  // ----------------------------------------------------------------------------------------

  /** The i-th disposal record is that of the i-th resource. */
  lemma {:induction false} DisposeAllAt(ds: seq<Disposable>)
    ensures |DisposeAll(ds)| == |ds|
    ensures forall i :: 0 <= i < |ds| ==> DisposeAll(ds)[i] == Dispose(ds[i])
  {
    if ds != [] {
      DisposeAllAt(ds[..|ds| - 1]);
    }
  }

  /** Disconnect disposes the watcher (if any) and every resource, removes the session's
      own virtual file and no other, and always answers with a success response. */
  lemma DisconnectTearsDown(s: SessionState, response: Response)
    ensures var r := DisconnectSpec(s, response);
      && s.name !in r.virtualFiles
      && (forall k :: k != s.name ==> (k in r.virtualFiles <==> k in s.virtualFiles))
      && (forall k :: k in r.virtualFiles ==> r.virtualFiles[k] == s.virtualFiles[k])
      && (r.watcher.Some? <==> s.watcher.Some?)
      && (r.watcher.Some? ==> r.watcher.value.disposed && r.watcher.value.args == s.watcher.value.args)
      && |s.log| < |r.log| && r.log[..|s.log|] == s.log
      && (s.watcher.Some? ==> DisposeWatcher in r.log[|s.log|..])
      && (forall d :: d in s.disposables ==> Dispose(d) in r.log[|s.log|..])
      && r.log[|r.log| - 1] == SendResponse(response, NoBody)
  {
    DisposeAllAt(s.disposables);
    var r := DisconnectSpec(s, response);
    var w := if s.watcher.Some? then [DisposeWatcher] else [];
    assert r.log[|s.log|..] == w + DisposeAll(s.disposables) + [SendResponse(response, NoBody)];
    forall d | d in s.disposables ensures Dispose(d) in r.log[|s.log|..] {
      var i :| 0 <= i < |s.disposables| && s.disposables[i] == d;
      assert r.log[|s.log|..][|w| + i] == Dispose(d);
    }
  }

  /** A second disconnect changes no state: it only disposes again and answers again. */
  lemma DisconnectTwice(s: SessionState, first: Response, second: Response)
    ensures var r1 := DisconnectSpec(s, first);
      var r2 := DisconnectSpec(r1, second);
      && r2.(log := r1.log) == r1
      && |r1.log| < |r2.log| && r2.log[..|r1.log|] == r1.log
      && r2.log[|r2.log| - 1] == SendResponse(second, NoBody)
  {
    var r1 := DisconnectSpec(s, first);
    assert r1.virtualFiles - {s.name} == r1.virtualFiles;
  }

  /** A disposed watcher runs nothing: file events after disconnect change nothing. */
  lemma NoRunsAfterDisconnect(s: SessionState, response: Response, exp: Expansion)
    ensures FileEventSpec(DisconnectSpec(s, response), exp) == DisconnectSpec(s, response)
  {
  }

  lemma DisconnectKeepsConsistent(s: SessionState, response: Response)
    requires Consistent(s)
    ensures Consistent(DisconnectSpec(s, response))
  {
  }
}
