/**
  The language server's validation and completion engine (src/server.js).

  The YAML parser is an input: `LoadResult` is what `yaml.load(text)` produced, either a
  JavaScript value or the exception it threw. Ranges are the plain offsets handed to
  `textDocument.positionAt`.
 */
module Server {
  import opened Wrappers

  // ----------------------------------------------------------------------------------------
  // JavaScript values as the YAML loader produces them
  // ----------------------------------------------------------------------------------------

  /** A value `yaml.load` can return: a mapping becomes an object, a YAML sequence an array. */
  datatype Value =
    | Undefined
    | Null
    | Boolean(b: bool)
    | Number(x: real)
    | NaN
    | Infinity(negative: bool)
    | String(s: string)
    | Sequence(items: seq<Value>)
    | Mapping(entries: map<string, Value>)

  /** JavaScript truthiness: `undefined`, `null`, `false`, `0`, `NaN` and `""` are falsy;
      every array and object, even an empty one, is truthy. */
  predicate Truthy(v: Value) {
    match v
    case Undefined => false
    case Null => false
    case Boolean(b) => b
    case Number(x) => x != 0.0
    case NaN => false
    case Infinity(_) => true
    case String(s) => s != ""
    case Sequence(_) => true
    case Mapping(_) => true
  }

  /** Reading a property of these two throws a TypeError. */
  predicate Nullish(v: Value) {
    v.Undefined? || v.Null?
  }

  /** What is thrown: js-yaml's exceptions carry a `mark` with the offending offset. */
  datatype Mark = Mark(position: nat)
  datatype JsError = JsError(message: string, mark: Option<Mark>)

  /** The result of `yaml.load(text)` at src/server.js:40. */
  datatype LoadResult = Loaded(doc: Value) | LoadFailed(error: JsError)

  /** The TypeError a JavaScript engine (V8) throws for `v.key` when `v` is nullish; it has no mark. */
  function PropertyTypeError(v: Value, key: string): (e: JsError)
    requires Nullish(v)
    ensures e.mark.None?
  {
    JsError("Cannot read properties of " + (if v.Undefined? then "undefined" else "null")
            + " (reading '" + key + "')", None)
  }

  /** `v[key]` for a value that is not nullish: an absent key, or any key of a scalar or
      an array (none of the keys read here is a prototype property), reads as `undefined`. */
  function Field(v: Value, key: string): Value
    requires !Nullish(v)
  {
    if v.Mapping? && key in v.entries then v.entries[key] else Undefined
  }

  /** The property read `v.key`, which throws on a nullish value. */
  function GetProperty(v: Value, key: string): (r: Result<Value, JsError>)
    ensures r.Failure? <==> Nullish(v)
    ensures r.Failure? ==> r.error == PropertyTypeError(v, key)
    ensures r.Success? && v.Mapping? ==> r.value == (if key in v.entries then v.entries[key] else Undefined)
    ensures r.Success? && !v.Mapping? ==> r.value == Undefined
  {
    if Nullish(v) then Failure(PropertyTypeError(v, key)) else Success(Field(v, key))
  }

  // ----------------------------------------------------------------------------------------
  // Diagnostics
  // ----------------------------------------------------------------------------------------

  datatype Severity = Error | Warning | Information | Hint
  datatype Range = Range(start: nat, end: nat)
  datatype Diagnostic = Diagnostic(severity: Severity, range: Range, message: string, source: string)
  datatype PublishDiagnosticsParams = PublishDiagnosticsParams(uri: string, diagnostics: seq<Diagnostic>)

  const DiagnosticSource := "Azure Pipelines"
  const MissingTriggerMessage := "Pipeline is missing trigger, pr, or schedules section"
  const MissingJobsMessage := "Pipeline must contain either jobs or stages"

  /** The first character of the document, where both structural rules report. */
  const DocumentStart := Range(0, 1)

  const MissingTriggerWarning := Diagnostic(Warning, DocumentStart, MissingTriggerMessage, DiagnosticSource)
  const MissingJobsError := Diagnostic(Error, DocumentStart, MissingJobsMessage, DiagnosticSource)

  /** Rule A's condition: none of `trigger`, `pr`, `schedules` is truthy. */
  predicate LacksTrigger(doc: Value)
    requires !Nullish(doc)
  {
    !Truthy(Field(doc, "trigger")) && !Truthy(Field(doc, "pr")) && !Truthy(Field(doc, "schedules"))
  }

  /** Rule B's condition: neither `jobs` nor `stages` is truthy. */
  predicate LacksJobs(doc: Value)
    requires !Nullish(doc)
  {
    !Truthy(Field(doc, "jobs")) && !Truthy(Field(doc, "stages"))
  }

  /** How the `catch` block turns what was thrown into a diagnostic. */
  function CaughtDiagnostic(e: JsError): Diagnostic {
    var range := match e.mark
      case Some(m) => Range(m.position, m.position + 1)
      case None => DocumentStart;
    Diagnostic(Error, range, e.message, DiagnosticSource)
  }

  /** The structural checks. The first property read, `yaml.trigger`, throws when the
      document is nullish, before anything is pushed; otherwise both rules run, independently. */
  function ValidateAzurePipelinesStructure(doc: Value): (r: Result<seq<Diagnostic>, JsError>)
    ensures r.Failure? <==> Nullish(doc)
    ensures r.Failure? ==> r.error == PropertyTypeError(doc, "trigger")
    ensures r.Success? ==> (MissingTriggerWarning in r.value <==> LacksTrigger(doc))
    ensures r.Success? ==> (MissingJobsError in r.value <==> LacksJobs(doc))
    ensures r.Success? ==> |r.value| == (if LacksTrigger(doc) then 1 else 0) + (if LacksJobs(doc) then 1 else 0)
    ensures r.Success? && |r.value| == 2 ==> r.value[0] == MissingTriggerWarning && r.value[1] == MissingJobsError
    ensures r.Success? ==> forall d :: d in r.value ==> d.source == DiagnosticSource && d.range == DocumentStart
  {
    var trigger :- GetProperty(doc, "trigger");
    var ruleA := if !Truthy(trigger) && !Truthy(Field(doc, "pr")) && !Truthy(Field(doc, "schedules"))
                 then [MissingTriggerWarning] else [];
    var ruleB := if !Truthy(Field(doc, "jobs")) && !Truthy(Field(doc, "stages"))
                 then [MissingJobsError] else [];
    Success(ruleA + ruleB)
  }

  /** One validation pass: a fresh list, filled from the load result, published for `uri`. */
  function ValidateTextDocument(uri: string, loaded: LoadResult): (p: PublishDiagnosticsParams)
    ensures p.uri == uri
    ensures loaded.LoadFailed? ==> p.diagnostics == [CaughtDiagnostic(loaded.error)]
    ensures loaded.Loaded? && Nullish(loaded.doc) ==>
      p.diagnostics == [Diagnostic(Error, DocumentStart, PropertyTypeError(loaded.doc, "trigger").message, DiagnosticSource)]
    ensures loaded.Loaded? && !Nullish(loaded.doc) ==>
      p.diagnostics == ValidateAzurePipelinesStructure(loaded.doc).value
    ensures forall d :: d in p.diagnostics ==> d.source == DiagnosticSource
    ensures 1 <= |p.diagnostics| || (loaded.Loaded? && !LacksTrigger(loaded.doc) && !LacksJobs(loaded.doc))
  {
    var diagnostics := match loaded
      case LoadFailed(e) => [CaughtDiagnostic(e)]
      case Loaded(doc) =>
        match ValidateAzurePipelinesStructure(doc)
        case Success(ds) => ds
        case Failure(e) => [CaughtDiagnostic(e)];
    PublishDiagnosticsParams(uri, diagnostics)
  }

  /** A parse failure yields exactly the parser's error, at its mark (or the document start),
      and no structural diagnostic. */
  lemma ParseErrorIsSoleDiagnostic(uri: string, e: JsError)
    ensures var ds := ValidateTextDocument(uri, LoadFailed(e)).diagnostics;
      && |ds| == 1
      && ds[0].severity == Error
      && ds[0].message == e.message
      && ds[0].range == (if e.mark.Some? then Range(e.mark.value.position, e.mark.value.position + 1) else Range(0, 1))
      && ds[0].source == DiagnosticSource
  {
  }

  /** Rule A alone decides the warning, on every document that parses to something non-nullish. */
  lemma WarningIffNoTrigger(uri: string, doc: Value)
    requires !Nullish(doc)
    ensures MissingTriggerWarning in ValidateTextDocument(uri, Loaded(doc)).diagnostics
      <==> !Truthy(Field(doc, "trigger")) && !Truthy(Field(doc, "pr")) && !Truthy(Field(doc, "schedules"))
  {
  }

  /** Rule B alone decides the error, on every document that parses to something non-nullish. */
  lemma ErrorIffNoJobs(uri: string, doc: Value)
    requires !Nullish(doc)
    ensures MissingJobsError in ValidateTextDocument(uri, Loaded(doc)).diagnostics
      <==> !Truthy(Field(doc, "jobs")) && !Truthy(Field(doc, "stages"))
  {
  }

  /** A parsed document yields at most the two structural diagnostics, the warning first. */
  lemma StructuralDiagnosticsOrdered(uri: string, doc: Value)
    requires !Nullish(doc)
    ensures var ds := ValidateTextDocument(uri, Loaded(doc)).diagnostics;
      && |ds| <= 2
      && (forall i :: 0 <= i < |ds| ==> ds[i] == MissingTriggerWarning || ds[i] == MissingJobsError)
      && (forall i, j :: 0 <= i < j < |ds| ==> ds[i] == MissingTriggerWarning && ds[j] == MissingJobsError)
  {
  }

  /** A document that parses to a non-nullish scalar or an array has neither section. */
  lemma ScalarGetsBothDiagnostics(uri: string, doc: Value)
    requires !Nullish(doc) && !doc.Mapping?
    ensures ValidateTextDocument(uri, Loaded(doc)).diagnostics == [MissingTriggerWarning, MissingJobsError]
  {
  }

  /** An empty or `null` document makes `yaml.trigger` throw; the catch reports that at 0..1. */
  lemma NullishDocumentReportsTypeError(uri: string, doc: Value)
    requires Nullish(doc)
    ensures var ds := ValidateTextDocument(uri, Loaded(doc)).diagnostics;
      |ds| == 1 && ds[0].severity == Error && ds[0].range == Range(0, 1)
      && MissingTriggerWarning !in ds && MissingJobsError !in ds
  {
  }

  /** Adding a truthy `trigger`, `pr` or `schedules` to a mapping removes the warning and
      leaves the jobs/stages verdict as it was. */
  lemma AddingTriggerRemovesWarning(uri: string, entries: map<string, Value>, key: string, v: Value)
    requires key == "trigger" || key == "pr" || key == "schedules"
    requires Truthy(v)
    ensures var before := ValidateTextDocument(uri, Loaded(Mapping(entries))).diagnostics;
      var after := ValidateTextDocument(uri, Loaded(Mapping(entries[key := v]))).diagnostics;
      && MissingTriggerWarning !in after
      && (MissingJobsError in after <==> MissingJobsError in before)
  {
  }

  /** Adding a truthy `jobs` or `stages` to a mapping removes the error and leaves the
      trigger verdict as it was. */
  lemma AddingJobsRemovesError(uri: string, entries: map<string, Value>, key: string, v: Value)
    requires key == "jobs" || key == "stages"
    requires Truthy(v)
    ensures var before := ValidateTextDocument(uri, Loaded(Mapping(entries))).diagnostics;
      var after := ValidateTextDocument(uri, Loaded(Mapping(entries[key := v]))).diagnostics;
      && MissingJobsError !in after
      && (MissingTriggerWarning in after <==> MissingTriggerWarning in before)
  {
  }

  // ----------------------------------------------------------------------------------------
  // Completion
  // ----------------------------------------------------------------------------------------

  /** `CompletionItemKind.Keyword` in the Language Server Protocol. */
  const KeywordKind: nat := 14

  datatype Position = Position(line: nat, character: nat)
  datatype TextDocumentPositionParams = TextDocumentPositionParams(uri: string, position: Position)

  /** A completion item; `data` is any JSON value a client echoes back on resolve. */
  datatype CompletionItem = CompletionItem(
    labelText: string,
    kind: Option<nat>,
    data: Value,
    detail: Option<string>,
    documentation: Option<string>)

  const KeywordLabels := ["trigger", "pr", "jobs", "stages", "pool", "steps"]
  const TriggerDetail := "Specify when the pipeline should be triggered"
  const TriggerDocumentation := "The trigger keyword defines when the pipeline should automatically run."

  function Keyword(labelText: string, id: nat): CompletionItem {
    CompletionItem(labelText, Some(KeywordKind), Number(id as real), None, None)
  }

  /** The completion handler: the same six keywords whatever the document and position. */
  function OnCompletion(params: TextDocumentPositionParams): (items: seq<CompletionItem>)
    ensures |items| == |KeywordLabels| == 6
    ensures forall i :: 0 <= i < |items| ==>
      && items[i].labelText == KeywordLabels[i]
      && items[i].kind == Some(KeywordKind)
      && items[i].data == Number((i + 1) as real)
      && items[i].detail.None? && items[i].documentation.None?
    ensures forall i, j :: 0 <= i < j < |items| ==> items[i].data != items[j].data
  {
    [Keyword("trigger", 1), Keyword("pr", 2), Keyword("jobs", 3),
     Keyword("stages", 4), Keyword("pool", 5), Keyword("steps", 6)]
  }

  /** The resolve handler: only the item whose `data` is strictly the number 1 is enriched. */
  function OnCompletionResolve(item: CompletionItem): (r: CompletionItem)
    ensures r.labelText == item.labelText && r.kind == item.kind && r.data == item.data
    ensures item.data == Number(1.0) ==>
      r.detail == Some(TriggerDetail) && r.documentation == Some(TriggerDocumentation)
    ensures item.data != Number(1.0) ==> r == item
  {
    if item.data == Number(1.0) then
      item.(detail := Some(TriggerDetail), documentation := Some(TriggerDocumentation))
    else
      item
  }

  /** Resolving twice is resolving once. */
  lemma ResolveIdempotent(item: CompletionItem)
    ensures OnCompletionResolve(OnCompletionResolve(item)) == OnCompletionResolve(item)
  {
  }

  /** Over the list the completion handler returns, resolve enriches exactly the `trigger`
      item and hands every other item back unchanged. */
  lemma ResolveEnrichesOnlyTrigger(params: TextDocumentPositionParams, i: nat)
    requires i < 6
    ensures var item := OnCompletion(params)[i];
      var r := OnCompletionResolve(item);
      (r.detail.Some? <==> i == 0) && (i == 0 ==> r.labelText == "trigger" && r.documentation.Some?)
      && (i != 0 ==> r == item)
  {
    var items := OnCompletion(params);
    assert items[i].data == Number((i + 1) as real);
  }

  /** The handler ignores the document and the position. */
  lemma CompletionIgnoresPosition(p: TextDocumentPositionParams, q: TextDocumentPositionParams)
    ensures OnCompletion(p) == OnCompletion(q)
  {
  }
}
