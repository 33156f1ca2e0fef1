/** The document-processing workflow (`DocumentIntelligenceWorkflow`): a
    graph of four nodes over one mutable state record,

      validate --validated--> classify --> process --completed--> end
         |                                    |
         +--------otherwise--> handle_error <-+--otherwise
                                    |
                                    +--> end

    with the result shaping of `process_document` and the per-path batch
    loop. The graph runtime is replaced by the explicit sequence its edges
    describe. Every node's effect is first given as a function on the value
    of the state (`Doc`); the node methods are proved to have exactly that
    effect on the state object. */
module DocumentWorkflow {
  import opened Wrappers
  import opened Text
  import opened Paths
  import opened OrderedMaps
  import opened Settings
  import opened DocumentIntelligence

  /** The values `processing_status` takes in this workflow. */
  datatype Status = Validated | Classified | Completed | Failed {
    function Name(): string {
      match this
      case Validated => "validated"
      case Classified => "classified"
      case Completed => "completed"
      case Failed => "error"
    }
  }

  /** The value of the state record. The state is created with only some of
      its keys; a key not yet written is `None`. */
  datatype Doc = Doc(
    messages: seq<string>,
    documentPath: string,
    documentType: Option<string>,
    extractedData: Option<seq<Record>>,
    status: Option<Status>,
    errorMessage: Option<string>,
    useVision: bool,
    enablePiiMasking: bool
  )

  const VALIDATED_PREFIX := "Document validated successfully: "
  const CLASSIFIED_PREFIX := "Document classified as: "
  const NO_PATH_ERROR := "No document path provided"
  const NOT_FOUND_PREFIX := "Document not found: "
  const UNSUPPORTED_PREFIX := "Unsupported document format: "
  const CLASSIFICATION_FAILED_PREFIX := "Classification failed: "
  const PROCESSING_FAILED_PREFIX := "Processing failed: "
  const UNKNOWN_ERROR := "Unknown error occurred"
  const ENGINE_FAILED_PREFIX := "Workflow execution failed: "

  /** The state `process_document` starts the graph with. */
  function InitialDoc(path: string, vision: bool, masking: bool): (d: Doc)
    ensures d.messages == ["Process document: " + path] && d.documentPath == path
    ensures d.status.None? && d.errorMessage.None? && d.documentType.None? && d.extractedData.None?
  {
    Doc(["Process document: " + path], path, None, None, None, None, vision, masking)
  }

  /** Why validation rejects a path, checked in order: no path, a path that
      does not exist, an unsupported suffix (shown as written). */
  function ValidationError(path: string, present: string -> bool): Option<string> {
    if path == "" then Some(NO_PATH_ERROR)
    else if !present(path) then Some(NOT_FOUND_PREFIX + path)
    else if !ValidateDocument(path) then Some(UNSUPPORTED_PREFIX + Suffix(PathName(path)))
    else None
  }

  /** The `validate_document` node. */
  function ValidateStep(d: Doc, present: string -> bool): (r: Doc)
    ensures r.documentPath == d.documentPath && r.documentType == d.documentType && r.extractedData == d.extractedData
    ensures r.useVision == d.useVision && r.enablePiiMasking == d.enablePiiMasking
    ensures r.status == Some(Validated) <==> ValidationError(d.documentPath, present).None?
    ensures r.status != Some(Validated) ==>
              r.status == Some(Failed) && r.errorMessage == ValidationError(d.documentPath, present) && r.messages == d.messages
    ensures r.status == Some(Validated) ==>
              r.errorMessage == d.errorMessage && r.messages == d.messages + [VALIDATED_PREFIX + PathName(d.documentPath)]
  {
    match ValidationError(d.documentPath, present)
    case Some(e) => d.(status := Some(Failed), errorMessage := Some(e))
    case None => d.(status := Some(Validated), messages := d.messages + [VALIDATED_PREFIX + PathName(d.documentPath)])
  }

  /** The `classify_document` node, given what classifying the path gave:
      a label, `None`, or an exception. */
  function ClassifyStep(d: Doc, outcome: Result<Option<string>>): (r: Doc)
    ensures r.documentPath == d.documentPath && r.extractedData == d.extractedData
    ensures r.useVision == d.useVision && r.enablePiiMasking == d.enablePiiMasking
    ensures outcome.Ok? ==>
              && r.status == Some(Classified) && r.errorMessage == d.errorMessage
              && r.documentType.Some? && r.documentType.value != ""
              && r.messages == d.messages + [CLASSIFIED_PREFIX + r.documentType.value]
              && (Truthy(outcome.value) ==> r.documentType == outcome.value)
    ensures outcome.Err? ==>
              r == d.(status := Some(Failed), errorMessage := Some(CLASSIFICATION_FAILED_PREFIX + outcome.error))
  {
    match outcome
    case Ok(found) =>
      var t := if Truthy(found) then found.value else "Unknown";
      d.(documentType := Some(t), status := Some(Classified), messages := d.messages + [CLASSIFIED_PREFIX + t])
    case Err(e) => d.(status := Some(Failed), errorMessage := Some(CLASSIFICATION_FAILED_PREFIX + e))
  }

  /** How the processing node describes the strategy it used. */
  function Strategy(limited: bool): string {
    if limited then "pagination (limited context)" else "standard processing"
  }

  /** The trace message of a successful processing step. */
  function ProcessedMessage(limited: bool, count: nat): string {
    "Document processed successfully using " + Strategy(limited) + ". Extracted " + NatToString(count) + " data items."
  }

  /** The vision flag the processing node extracts with: the paginated path
      never uses vision. */
  function ExtractionVision(d: Doc, limited: bool): bool {
    !limited && d.useVision
  }

  /** The `process_document` node, given the outcome of the extraction it
      runs. */
  function ProcessStep(d: Doc, limited: bool, outcome: Result<seq<Record>>): (r: Doc)
    ensures r.documentPath == d.documentPath && r.documentType == d.documentType
    ensures r.useVision == d.useVision && r.enablePiiMasking == d.enablePiiMasking
    ensures r.status == Some(Completed) <==> outcome.Ok?
    ensures outcome.Ok? ==>
              && r.extractedData == Some(outcome.value) && r.errorMessage == d.errorMessage
              && r.messages == d.messages + [ProcessedMessage(limited, |outcome.value|)]
    ensures outcome.Err? ==>
              r == d.(status := Some(Failed), errorMessage := Some(PROCESSING_FAILED_PREFIX + outcome.error))
  {
    match outcome
    case Ok(items) =>
      d.(extractedData := Some(items), status := Some(Completed),
         messages := d.messages + [ProcessedMessage(limited, |items|)])
    case Err(e) => d.(status := Some(Failed), errorMessage := Some(PROCESSING_FAILED_PREFIX + e))
  }

  /** The `handle_error` node: one more trace message and nothing else. */
  function HandleErrorStep(d: Doc): (r: Doc)
    ensures r.(messages := d.messages) == d
    ensures |r.messages| == |d.messages| + 1 && r.messages[..|d.messages|] == d.messages
    ensures StartsWith(r.messages[|d.messages|], "Error: ")
  {
    d.(messages := d.messages + ["Error: " + d.errorMessage.GetOr(UNKNOWN_ERROR)])
  }

  datatype Route = Continue | ToError | End

  /** `_should_continue_after_validation`. */
  function AfterValidation(d: Doc): Route {
    if d.status == Some(Validated) then Continue else ToError
  }

  /** `_should_end_workflow`. */
  function AfterProcessing(d: Doc): Route {
    if d.status == Some(Completed) then End else ToError
  }

  /** The whole graph from a start state, following its edges. `classified`
      is what classification gives, `limited` whether the context window is
      limited, and `extract` the extraction outcome for the active provider
      `active`. */
  function RunGraph(d: Doc, present: string -> bool, classified: Result<Option<string>>,
                    limited: bool, active: Option<string>, extract: Extraction): (r: Doc)
    ensures r.status == Some(Completed) || r.status == Some(Failed)
    ensures r.documentPath == d.documentPath
  {
    var v := ValidateStep(d, present);
    if AfterValidation(v) == ToError then HandleErrorStep(v)
    else
      var c := ClassifyStep(v, classified);
      var p := ProcessStep(c, limited, extract(active, c.documentPath, ExtractionVision(c, limited)));
      if AfterProcessing(p) == End then p else HandleErrorStep(p)
  }

  /** The record `process_document` returns. */
  datatype Report = Report(
    status: string,
    documentPath: string,
    documentType: string,
    extractedData: seq<Record>,
    errorMessage: string,
    messages: seq<string>
  )

  /** The result shaping of `process_document` from the final state, with
      the defaults of the keys that were never written. */
  function Shape(d: Doc): (r: Report)
    requires d.status.Some?
    ensures r.status == d.status.value.Name() && r.documentPath == d.documentPath && r.messages == d.messages
    ensures r.documentType == d.documentType.GetOr("Unknown")
    ensures r.extractedData == d.extractedData.GetOr([]) && r.errorMessage == d.errorMessage.GetOr("")
  {
    Report(d.status.value.Name(), d.documentPath, d.documentType.GetOr("Unknown"),
           d.extractedData.GetOr([]), d.errorMessage.GetOr(""), d.messages)
  }

  /** The record returned when running the graph itself raises `e`. */
  function EngineFailure(path: string, e: string): Report {
    Report("error", path, "Unknown", [], e, [ENGINE_FAILED_PREFIX + e])
  }

  /** The environment the workflow runs in, as values: which paths exist,
      which files can be opened, whether the graph runtime itself fails on
      a path, and how extraction turns out. */
  datatype Environment = Environment(
    present: string -> bool,
    readable: string -> bool,
    engineError: string -> Option<string>,
    extract: Extraction
  )

  /** What `process_document` returns for `path`. */
  function ExpectedReport(path: string, vision: bool, masking: bool, env: Environment,
                          limited: bool, active: Option<string>): Report
  {
    match env.engineError(path)
    case Some(e) => EngineFailure(path, e)
    case None =>
      Shape(RunGraph(InitialDoc(path, vision, masking), env.present,
                     Ok(ClassifyDocument(path, env.readable(path))), limited, active, env.extract))
  }

  // ---------------------------------------------------------------------
  // Properties of the workflow

  /** Every run ends with status `completed` or `error`. */
  lemma StatusIsTerminal(path: string, vision: bool, masking: bool, env: Environment,
                         limited: bool, active: Option<string>)
    ensures ExpectedReport(path, vision, masking, env, limited, active).status in {"completed", "error"}
  {
  }

  /** A rejected path ends the run at once: neither classification nor
      processing runs, the trace is the request and the error, the type is
      the default and nothing is extracted. */
  lemma {:induction false} RejectedPath(d: Doc, present: string -> bool, classified: Result<Option<string>>,
                                        limited: bool, active: Option<string>, extract: Extraction)
    requires ValidationError(d.documentPath, present).Some?
    ensures var r := RunGraph(d, present, classified, limited, active, extract);
            && r.status == Some(Failed)
            && r.errorMessage == ValidationError(d.documentPath, present)
            && r.messages == d.messages + ["Error: " + ValidationError(d.documentPath, present).value]
            && r.documentType == d.documentType && r.extractedData == d.extractedData
  {
    var v := ValidateStep(d, present);
    assert AfterValidation(v) == ToError;
  }

  /** The validation messages in order: an empty path, then a missing file,
      then an unsupported suffix; an existing file with a supported suffix
      passes. */
  lemma ValidationOrder(path: string, present: string -> bool)
    ensures path == "" ==> ValidationError(path, present) == Some(NO_PATH_ERROR)
    ensures path != "" && !present(path) ==> ValidationError(path, present) == Some(NOT_FOUND_PREFIX + path)
    ensures path != "" && present(path) && !ValidateDocument(path) ==>
              ValidationError(path, present) == Some(UNSUPPORTED_PREFIX + Suffix(PathName(path)))
    ensures ValidationError(path, present).None? <==> path != "" && present(path) && ValidateDocument(path)
  {
  }

  /** Once validation accepts the path and extraction succeeds, the graph
      runs all three nodes: the state gets the classified type (or
      `Unknown`), the items and status `completed`, one trace message per
      node, and nothing else changes. */
  lemma {:induction false} CompletedGraph(d: Doc, present: string -> bool, kind: Option<string>,
                                          limited: bool, active: Option<string>, extract: Extraction)
    requires ValidationError(d.documentPath, present).None?
    requires extract(active, d.documentPath, ExtractionVision(d, limited)).Ok?
    ensures var items := extract(active, d.documentPath, ExtractionVision(d, limited)).value;
            var t := if Truthy(kind) then kind.value else "Unknown";
            RunGraph(d, present, Ok(kind), limited, active, extract) ==
              d.(documentType := Some(t), extractedData := Some(items), status := Some(Completed),
                 messages := d.messages + [VALIDATED_PREFIX + PathName(d.documentPath), CLASSIFIED_PREFIX + t,
                                           ProcessedMessage(limited, |items|)])
  {
    var outcome := extract(active, d.documentPath, ExtractionVision(d, limited));
    var items := outcome.value;
    var t := if Truthy(kind) then kind.value else "Unknown";
    var c := ClassifyStep(ValidateStep(d, present), Ok(kind));
    AcceptedPath(d, present, kind, limited);
    var p := ProcessStep(c, limited, outcome);
    assert p == c.(extractedData := Some(items), status := Some(Completed),
                   messages := c.messages + [ProcessedMessage(limited, |items|)]);
    assert RunGraph(d, present, Ok(kind), limited, active, extract) == p;
    AppendThree(d.messages, VALIDATED_PREFIX + PathName(d.documentPath), CLASSIFIED_PREFIX + t,
                ProcessedMessage(limited, |items|));
  }

  lemma AppendThree<T>(s: seq<T>, a: T, b: T, c: T)
    ensures s + [a] + [b] + [c] == s + [a, b, c]
  {
  }

  /** A request for an accepted file whose extraction succeeds completes,
      with the classified type, the extracted items, no error and a trace of
      the request and one message per node. */
  lemma {:induction false} SuccessfulRun(path: string, vision: bool, masking: bool, env: Environment,
                                         limited: bool, active: Option<string>)
    requires env.engineError(path).None?
    requires ValidationError(path, env.present).None?
    requires env.extract(active, path, !limited && vision).Ok?
    ensures var items := env.extract(active, path, !limited && vision).value;
            var kind := ClassifyDocument(path, env.readable(path));
            var t := if Truthy(kind) then kind.value else "Unknown";
            var r := ExpectedReport(path, vision, masking, env, limited, active);
            && r.status == "completed" && r.documentPath == path && r.documentType == t
            && r.extractedData == items && r.errorMessage == ""
            && r.messages == InitialDoc(path, vision, masking).messages +
                             [VALIDATED_PREFIX + PathName(path), CLASSIFIED_PREFIX + t, ProcessedMessage(limited, |items|)]
  {
    assert Completed.Name() == "completed";
    var kind := ClassifyDocument(path, env.readable(path));
    var d := InitialDoc(path, vision, masking);
    assert ExtractionVision(d, limited) == (!limited && vision);
    CompletedGraph(d, env.present, kind, limited, active, env.extract);
  }

  /** Once validation accepts the path and extraction fails, the run goes
      through all four nodes and ends with the processing error: the type
      is classified, nothing is extracted, and the trace gets one message
      per node, the last one reporting the error. */
  lemma {:induction false} FailedGraph(d: Doc, present: string -> bool, kind: Option<string>,
                                       limited: bool, active: Option<string>, extract: Extraction)
    requires ValidationError(d.documentPath, present).None?
    requires extract(active, d.documentPath, ExtractionVision(d, limited)).Err?
    ensures var e := PROCESSING_FAILED_PREFIX + extract(active, d.documentPath, ExtractionVision(d, limited)).error;
            var t := if Truthy(kind) then kind.value else "Unknown";
            RunGraph(d, present, Ok(kind), limited, active, extract) ==
              d.(documentType := Some(t), status := Some(Failed), errorMessage := Some(e),
                 messages := d.messages + [VALIDATED_PREFIX + PathName(d.documentPath), CLASSIFIED_PREFIX + t,
                                           "Error: " + e])
  {
    var outcome := extract(active, d.documentPath, ExtractionVision(d, limited));
    var e := PROCESSING_FAILED_PREFIX + outcome.error;
    var t := if Truthy(kind) then kind.value else "Unknown";
    var c := ClassifyStep(ValidateStep(d, present), Ok(kind));
    AcceptedPath(d, present, kind, limited);
    var p := ProcessStep(c, limited, outcome);
    assert p == c.(status := Some(Failed), errorMessage := Some(e));
    assert RunGraph(d, present, Ok(kind), limited, active, extract) == HandleErrorStep(p);
    AppendThree(d.messages, VALIDATED_PREFIX + PathName(d.documentPath), CLASSIFIED_PREFIX + t, "Error: " + e);
  }

  /** Validation and classification of an accepted path: two messages, the
      type set and status `classified`. */
  lemma AcceptedPath(d: Doc, present: string -> bool, kind: Option<string>, limited: bool)
    requires ValidationError(d.documentPath, present).None?
    ensures var t := if Truthy(kind) then kind.value else "Unknown";
            var c := ClassifyStep(ValidateStep(d, present), Ok(kind));
            && c == d.(documentType := Some(t), status := Some(Classified),
                       messages := d.messages + [VALIDATED_PREFIX + PathName(d.documentPath)] + [CLASSIFIED_PREFIX + t])
            && ExtractionVision(c, limited) == ExtractionVision(d, limited)
  {
  }

  /** A request whose extraction fails ends in the error node after the
      classification message, with the processing error and nothing
      extracted. */
  lemma {:induction false} FailedExtraction(path: string, vision: bool, masking: bool, env: Environment,
                                            limited: bool, active: Option<string>)
    requires env.engineError(path).None?
    requires ValidationError(path, env.present).None?
    requires env.extract(active, path, !limited && vision).Err?
    ensures var e := PROCESSING_FAILED_PREFIX + env.extract(active, path, !limited && vision).error;
            var kind := ClassifyDocument(path, env.readable(path));
            var t := if Truthy(kind) then kind.value else "Unknown";
            var r := ExpectedReport(path, vision, masking, env, limited, active);
            && r.status == "error" && r.documentPath == path && r.documentType == t
            && r.extractedData == [] && r.errorMessage == e
            && r.messages == InitialDoc(path, vision, masking).messages +
                             [VALIDATED_PREFIX + PathName(path), CLASSIFIED_PREFIX + t, "Error: " + e]
  {
    assert Failed.Name() == "error";
    var e := PROCESSING_FAILED_PREFIX + env.extract(active, path, !limited && vision).error;
    var kind := ClassifyDocument(path, env.readable(path));
    var t := if Truthy(kind) then kind.value else "Unknown";
    var d := InitialDoc(path, vision, masking);
    var m := d.messages + [VALIDATED_PREFIX + PathName(path), CLASSIFIED_PREFIX + t, "Error: " + e];
    var q := d.(documentType := Some(t), status := Some(Failed), errorMessage := Some(e), messages := m);
    assert ExtractionVision(d, limited) == (!limited && vision);
    FailedGraph(d, env.present, kind, limited, active, env.extract);
    assert RunGraph(d, env.present, Ok(kind), limited, active, env.extract) == q;
    assert ExpectedReport(path, vision, masking, env, limited, active) == Shape(q);
  }

  /** The edge from classification to processing is unconditional: when
      classification raises but extraction succeeds, the run completes and
      the classification error stays in the record. */
  lemma {:induction false} ClassificationErrorDoesNotStop(d: Doc, present: string -> bool, e: string,
                                                          limited: bool, active: Option<string>, extract: Extraction)
    requires ValidationError(d.documentPath, present).None?
    requires extract(active, d.documentPath, !limited && d.useVision).Ok?
    ensures var r := RunGraph(d, present, Err(e), limited, active, extract);
            && r.status == Some(Completed)
            && r.errorMessage == Some(CLASSIFICATION_FAILED_PREFIX + e)
            && r.documentType == d.documentType
  {
    var v := ValidateStep(d, present);
    var c := ClassifyStep(v, Err(e));
    assert ExtractionVision(c, limited) == (!limited && d.useVision);
  }

  /** The trace only grows: every run keeps the initial messages as a
      prefix and adds at most three. */
  lemma {:induction false} TraceExtendsStart(d: Doc, present: string -> bool, classified: Result<Option<string>>,
                                             limited: bool, active: Option<string>, extract: Extraction)
    ensures var r := RunGraph(d, present, classified, limited, active, extract);
            |d.messages| < |r.messages| <= |d.messages| + 3 && r.messages[..|d.messages|] == d.messages
  {
    var v := ValidateStep(d, present);
    if AfterValidation(v) == Continue {
      var c := ClassifyStep(v, classified);
      ClassifyTrace(v, classified);
      ProcessTrace(c, limited, extract(active, c.documentPath, ExtractionVision(c, limited)));
      var p := ProcessStep(c, limited, extract(active, c.documentPath, ExtractionVision(c, limited)));
      var r := if AfterProcessing(p) == End then p else HandleErrorStep(p);
      TraceAfterValidation(d.messages, v.messages, c.messages, r.messages);
    }
  }

  /** Classification adds at most one message. */
  lemma ClassifyTrace(v: Doc, outcome: Result<Option<string>>)
    ensures var c := ClassifyStep(v, outcome);
            |v.messages| <= |c.messages| <= |v.messages| + 1 && c.messages[..|v.messages|] == v.messages
  {
  }

  /** Processing, followed by the error node when it fails, adds exactly
      one message. */
  lemma ProcessTrace(c: Doc, limited: bool, outcome: Result<seq<Record>>)
    ensures var p := ProcessStep(c, limited, outcome);
            var r := if AfterProcessing(p) == End then p else HandleErrorStep(p);
            |r.messages| == |c.messages| + 1 && r.messages[..|c.messages|] == c.messages
  {
  }

  /** The message counts along the accepted path: validation adds one,
      classification at most one, and processing with the error node one. */
  lemma TraceAfterValidation(m: seq<string>, v: seq<string>, c: seq<string>, r: seq<string>)
    requires |v| == |m| + 1 && v[..|m|] == m
    requires |v| <= |c| <= |v| + 1 && c[..|v|] == v
    requires |r| == |c| + 1 && r[..|c|] == c
    ensures |m| < |r| <= |m| + 3 && r[..|m|] == m
  {
    PrefixOfPrefix(m, v, c);
    PrefixOfPrefix(m, c, r);
  }

  /** A prefix of a prefix is a prefix. */
  lemma PrefixOfPrefix<T>(a: seq<T>, b: seq<T>, c: seq<T>)
    requires |a| <= |b| <= |c| && b[..|a|] == a && c[..|b|] == b
    ensures c[..|a|] == a
  {
    assert c[..|a|] == c[..|b|][..|a|];
  }

  // ---------------------------------------------------------------------
  // The state object and the workflow object

  /** The mutable state record the nodes update in place. */
  class ProcessingState {
    var messages: seq<string>
    var documentPath: string
    var documentType: Option<string>
    var extractedData: Option<seq<Record>>
    var status: Option<Status>
    var errorMessage: Option<string>
    var useVision: bool
    var enablePiiMasking: bool

    function Value(): Doc
      reads this
    {
      Doc(messages, documentPath, documentType, extractedData, status, errorMessage, useVision, enablePiiMasking)
    }

    constructor (path: string, vision: bool, masking: bool)
      ensures Value() == InitialDoc(path, vision, masking)
    {
      messages := ["Process document: " + path];
      documentPath := path;
      documentType := None;
      extractedData := None;
      status := None;
      errorMessage := None;
      useVision := vision;
      enablePiiMasking := masking;
    }
  }

  class Workflow {
    const agent: Agent

    constructor (agent: Agent)
      ensures this.agent == agent
    {
      this.agent := agent;
    }

    /** The `validate_document` node. */
    method ValidateNode(state: ProcessingState, present: string -> bool)
      modifies state
      ensures state.Value() == ValidateStep(old(state.Value()), present)
    {
      var path := state.documentPath;
      if path == "" {
        state.status := Some(Failed);
        state.errorMessage := Some(NO_PATH_ERROR);
        return;
      }
      if !present(path) {
        state.status := Some(Failed);
        state.errorMessage := Some(NOT_FOUND_PREFIX + path);
        return;
      }
      if !ValidateDocument(path) {
        state.status := Some(Failed);
        state.errorMessage := Some(UNSUPPORTED_PREFIX + Suffix(PathName(path)));
        return;
      }
      state.status := Some(Validated);
      state.messages := state.messages + [VALIDATED_PREFIX + PathName(path)];
    }

    /** The `classify_document` node: the agent's classification, which
        reports an unreadable file as `None` rather than raising. */
    method ClassifyNode(state: ProcessingState, readable: string -> bool)
      modifies state
      ensures state.Value() ==
                ClassifyStep(old(state.Value()), Ok(ClassifyDocument(old(state.documentPath), readable(old(state.documentPath)))))
    {
      var kind := ClassifyDocument(state.documentPath, readable(state.documentPath));
      state.documentType := Some(if Truthy(kind) then kind.value else "Unknown");
      state.status := Some(Classified);
      state.messages := state.messages + [CLASSIFIED_PREFIX + state.documentType.value];
    }

    /** The `process_document` node: paginated extraction for a limited
        context window, standard extraction otherwise. */
    method ProcessNode(state: ProcessingState, extract: Extraction)
      requires agent.Valid()
      modifies state
      ensures state.Value() ==
                ProcessStep(old(state.Value()), agent.config.LimitedContext(),
                            extract(agent.registry.ActiveName(), old(state.documentPath),
                                    ExtractionVision(old(state.Value()), agent.config.LimitedContext())))
    {
      var limited := agent.config.LimitedContext();
      var r;
      if limited {
        r := agent.ExtractWithPagination(state.documentPath, extract);
      } else {
        r := agent.ProcessDocument(state.documentPath, state.useVision, extract);
      }
      match r {
        case Ok(items) =>
          state.extractedData := Some(items);
          state.status := Some(Completed);
          state.messages := state.messages + [ProcessedMessage(limited, |items|)];
        case Err(e) =>
          state.status := Some(Failed);
          state.errorMessage := Some(PROCESSING_FAILED_PREFIX + e);
      }
    }

    /** The `handle_error` node. */
    method HandleErrorNode(state: ProcessingState)
      modifies state
      ensures state.Value() == HandleErrorStep(old(state.Value()))
    {
      var e := if state.errorMessage.Some? then state.errorMessage.value else UNKNOWN_ERROR;
      state.messages := state.messages + ["Error: " + e];
    }

    /** Running the compiled graph on a state: the nodes in the order the
        edges and routing functions give. */
    method Invoke(state: ProcessingState, env: Environment)
      requires agent.Valid()
      modifies state
      ensures state.Value() ==
                RunGraph(old(state.Value()), env.present,
                         Ok(ClassifyDocument(old(state.documentPath), env.readable(old(state.documentPath)))),
                         agent.config.LimitedContext(), agent.registry.ActiveName(), env.extract)
    {
      ValidateNode(state, env.present);
      if AfterValidation(state.Value()) == ToError {
        HandleErrorNode(state);
        return;
      }
      ClassifyNode(state, env.readable);
      ProcessNode(state, env.extract);
      if AfterProcessing(state.Value()) == ToError {
        HandleErrorNode(state);
      }
    }

    /** `process_document`: runs the graph on a fresh state and shapes the
        result; a failure of the graph runtime gives the error record. */
    method ProcessDocument(path: string, vision: bool, masking: bool, env: Environment) returns (r: Report)
      requires agent.Valid()
      ensures r == ExpectedReport(path, vision, masking, env, agent.config.LimitedContext(), agent.registry.ActiveName())
    {
      var failure := env.engineError(path);
      if failure.Some? {
        return EngineFailure(path, failure.value);
      }
      var state := new ProcessingState(path, vision, masking);
      Invoke(state, env);
      r := Shape(state.Value());
    }

    /** `batch_process_documents`: every path once, in order of first
        appearance, mapped to the result of processing it. */
    method BatchProcessDocuments(paths: seq<string>, vision: bool, masking: bool, env: Environment)
      returns (results: OrderedMap<string, Report>)
      requires agent.Valid()
      ensures results.Valid() && results.keys == FirstOccurrences(paths)
      ensures forall p :: p in results.items ==>
                results.items[p] == ExpectedReport(p, vision, masking, env, agent.config.LimitedContext(), agent.registry.ActiveName())
    {
      ghost var limited := agent.config.LimitedContext();
      ghost var active := agent.registry.ActiveName();
      ghost var expected := p => ExpectedReport(p, vision, masking, env, limited, active);
      results := Empty();
      var i := 0;
      while i < |paths|
        invariant 0 <= i <= |paths|
        invariant agent.Valid() && agent.registry.ActiveName() == active
        invariant results == PutAll(paths[..i], expected)
      {
        var r := ProcessDocument(paths[i], vision, masking, env);
        PutAllSnoc(paths, i, expected);
        results := results.Put(paths[i], r);
        i := i + 1;
      }
      PrefixFull(paths);
    }
  }
}
