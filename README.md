# Multi-agent AI system: a Dafny model of its core

This project models, in Dafny, the deterministic core of a Python system of
cooperating language-model agents. The agents process documents, research
topics and write content. The model covers:

- **The provider registry** (`UnifiedModelManager`). It keeps an
  insertion-ordered map of text-generation backends ("ollama", then
  "huggingface"), an active provider and a fallback provider. Generation
  fails over once from the active provider to the fallback. Switching by
  name, listing, info queries and the active-name lookup are included.
- **The document-intelligence agent**:
  - extension validation against nine formats;
  - name-keyword classification, where the first match wins;
  - the choice of document splitter and the PII-masking gate;
  - provider switching, and processing with a given provider with the
    previous one restored afterwards;
  - the benchmark over all providers, and batch processing with per-file
    error capture.
- **The document-processing workflow**. The graph is validate → classify →
  process → end, with an error node. It runs over one mutable state record
  that has a status, an error message and an append-only message trace.
  Also included: the result shaping of `process_document` and the batch
  loop over paths.
- **The base agent**: `AgentState`, the tool list, the system message, the
  message list sent to the model, and `str`/`repr`.
- **The content-creation workflow**: research → write → review → finalize,
  its error mapping, and the bounded feedback loop.
- **The research workflow**: four agent steps with their context keys, the
  final report, the error mapping, collaborative research across topics
  with the context handed on from topic to topic, and the cross-topic
  synthesis.
- **The document search tool**: directory selection, the type label, the
  snippet around the first match, and the ranking of results.
- **The file tools**:
  - save, with filename normalisation, the path and the JSON wrapper;
  - load, from the first of three candidate places;
  - the filtered, sorted directory listing;
  - report rendering in markdown, text or JSON, the report file name, and
    the save of the report.

External behaviour is supplied as parameters:

- the language model;
- provider generation;
- document extraction;
- the PII analyser;
- the clock;
- which paths exist or can be opened.

State the source updates in place is kept in Dafny classes. Their methods
are proved to have exactly the effect of a function on the value of that
state, and the properties the source promises are proved as lemmas about
those functions. Each class keeps the following state:

- `Registry` (`UnifiedModelManager`): the same three fields, the provider
  map, the active provider and the fallback provider.
- `Agent` (`DocumentIntelligenceAgent`): the shared registry, the
  configuration, and the splitter loaded into the extraction process. The
  analyser, anonymiser, document loader, extractor and process objects of
  the source are external libraries; their behaviour is the function
  parameters listed above. The classification table is the constant
  `KEYWORDS`, since the source never changes it.
- `BaseAgent`: name, role, system prompt and the tool list. `className`
  stands for `self.__class__.__name__`, used by `repr`. The `llm` client
  and the logger are left out.
- `AgentState`: the same five fields.
- `ProcessingState` and `Workflow` of the document workflow: the graph
  state's keys, and the agent the workflow holds. The compiled graph is
  replaced by the route its edges describe, and the logger is left out.
- `FileSystem`: the disk, as files and directories.

`ContentCreationWorkflow` and `ResearchWorkflow` hold only their agents and
their compiled graph, which they never change after construction. They are
therefore values: `ContentCreation.Team` and `Research.Workflow`, whose
fields are the agents as functions.

Modules, one per source file plus shared helpers:

- `ModelManager`: `model_manager.dfy`.
- `DocumentIntelligence`: `document_agent.dfy`.
- `DocumentWorkflow`: `document_workflow.dfy`.
- `Agents`: `base_agent.dfy`.
- `ContentCreation`: `content_creation.dfy`.
- `Research`: `research_workflow.dfy`.
- `DocumentSearch`: `search_tools.dfy`.
- `FileTools`: `file_tools.dfy`.
- `JsonText`: `json_text.dfy`, the JSON text `json.dump` writes.
- Helpers modelling Python built-ins:
  - `Text`, `Paths`: strings and paths;
  - `OrderedMaps`: `dict`;
  - `Sorting`: `sort`;
  - `Wrappers`, `Settings`.

## Model

| member | source | states |
|---|---|---|
| ModelManager.Registry.constructor | src/utils/model_manager.py:229-262 | providers are registered only when constructed and available, ollama before huggingface; active is the primary when registered, else the first registered provider, else none; fallback is set only when registered and named differently from the primary; the registry invariant (active and fallback are registered, providers distinct) holds |
| ModelManager.Registry.SetActiveProvider | src/utils/model_manager.py:264-283 | the primary → first-available rule for active and the fallback rule, keeping the invariant |
| ModelManager.Registry.Generate | src/utils/model_manager.py:285-303 | with no active provider: the "No model providers available" error and no provider called; otherwise the active provider's answer when it succeeds, else the fallback's outcome (answer or its own error) when there is a fallback, else the original error; one or two calls, the active provider first; the registry is not changed |
| ModelManager.Registry.AvailableProviders | src/utils/model_manager.py:305-307 | exactly the registered names, each once |
| ModelManager.Registry.SwitchProvider | src/utils/model_manager.py:309-317 | returns true iff the name is registered, and then active is that provider and the active name is that name; otherwise active is unchanged |
| ModelManager.Registry.GetProviderInfo | src/utils/model_manager.py:319-331 | a registered name gives its provider's info; an unregistered non-empty name gives status `not_available` with the name; no name (or an empty one) gives the info of every provider |
| ModelManager.Registry.CollectInfo | src/utils/model_manager.py:327-331 | one info entry per registered provider, in registration order |
| ModelManager.Registry.GetActiveProviderName | src/utils/model_manager.py:333-338 | the first registered name whose provider is the active one; none iff there is no active provider |
| ModelManager.FirstHolderIsFirst | src/utils/model_manager.py:335-338 | the search loop finds the first name mapped to the provider, and finds none iff no name is |
| ModelManager.FirstHolderHolds | src/utils/model_manager.py:335-337 | a found name is registered and maps to the provider searched for |
| ModelManager.HolderOfRegistered | src/utils/model_manager.py:333-338 | with distinct providers, looking up the provider of name n finds n |
| DocumentIntelligence.ListedIsMember | src/agents/document_intelligence_agent.py:372-375 | the membership test of the format list is list membership |
| DocumentIntelligence.ValidateByName | src/agents/document_intelligence_agent.py:372-375 | a document is valid iff the lower-cased suffix of its file name is one of the nine formats |
| DocumentIntelligence.ValidateByExtension | src/agents/document_intelligence_agent.py:368-375 | `stem.ext`, alone or in a directory, is valid iff `.ext` lower-cased is listed |
| DocumentIntelligence.ValidatedEndsInFormat | src/agents/document_intelligence_agent.py:372-375 | a valid document's lower-cased name ends in a listed format and is longer than it |
| DocumentIntelligence.HiddenFileRejected | src/agents/document_intelligence_agent.py:374 | a dot file such as `.pdf` has no suffix and is rejected |
| DocumentIntelligence.FirstMatch | src/agents/document_intelligence_agent.py:309-318 | the type found is Unknown or the type of some keyword row |
| DocumentIntelligence.ClassifyName | src/agents/document_intelligence_agent.py:307-318 | the keyword chain equals the first-match rule over the table invoice/bill, license/dl, passport, business/card |
| DocumentIntelligence.ClassifyDocument | src/agents/document_intelligence_agent.py:297-322 | none iff the file cannot be opened; otherwise the label of the first type whose keyword occurs in the lower-cased file name |
| DocumentIntelligence.ClassifyInDirectory | src/agents/document_intelligence_agent.py:307 | classification depends on the file name only, not on the directory |
| DocumentIntelligence.HandleIsDriverLicense | src/agents/document_intelligence_agent.py:311 | keywords are substrings, so "handle.pdf" is classified as a driver licence |
| DocumentIntelligence.InvoiceTakesPrecedence | src/agents/document_intelligence_agent.py:309-310 | a name mentioning invoice or bill is an invoice whatever else it mentions |
| DocumentIntelligence.ChooseSplitter | src/agents/document_intelligence_agent.py:201-233 | a text splitter iff the context window is limited (or building failed); an ollama model name iff building succeeded and ollama is active; any failure gives the generic text splitter |
| DocumentIntelligence.MaskPii | src/agents/document_intelligence_agent.py:235-250 | the text is returned unchanged when masking is off or the analysis fails; otherwise the anonymised text |
| DocumentIntelligence.ItemsOrNone | src/agents/document_intelligence_agent.py:358-364 | a batch entry is the extracted items, or empty when extraction raised |
| DocumentIntelligence.BenchmarkOfWorkingProvider | src/agents/document_intelligence_agent.py:475-485 | a provider that loads and answers is recorded as a success with the length of its own answer and its info |
| DocumentIntelligence.Agent.constructor | src/agents/document_intelligence_agent.py:70-143 | the splitter is configured for the registry's active provider |
| DocumentIntelligence.Agent.SwitchModelProvider | src/agents/document_intelligence_agent.py:385-397 | true iff the name is registered and its model loads; a registered name becomes active; an unregistered one leaves active unchanged; the splitter is reconfigured only on success |
| DocumentIntelligence.Agent.ProcessDocument | src/agents/document_intelligence_agent.py:252-295 | the extraction outcome for the active provider, path and vision flag |
| DocumentIntelligence.Agent.ExtractWithPagination | src/agents/document_intelligence_agent.py:324-351 | the extraction outcome without vision |
| DocumentIntelligence.Agent.GetCurrentProviderInfo | src/agents/document_intelligence_agent.py:403-408 | the active provider's info when it has a non-empty name, else status `no_active_provider` |
| DocumentIntelligence.Agent.BatchProcess | src/agents/document_intelligence_agent.py:353-366 | one entry per distinct path in first-seen order, each the items extracted or empty on failure |
| DocumentIntelligence.Agent.ProcessWithProvider | src/agents/document_intelligence_agent.py:414-456 | no switch when no other provider is requested; otherwise the extraction with the requested provider, or "Cannot switch to provider: …"; a non-empty original provider is active again afterwards on every path; the splitter is that of the original provider or of some registered provider |
| DocumentIntelligence.Agent.BenchmarkOne | src/agents/document_intelligence_agent.py:468-494 | the entry is failed_to_switch, success or error as expected for that provider, and that provider is left active |
| DocumentIntelligence.Agent.BenchmarkEach | src/agents/document_intelligence_agent.py:467-494 | exactly one entry per registered provider in order, each the expected one; the last provider is left active |
| DocumentIntelligence.Agent.Benchmark | src/agents/document_intelligence_agent.py:458-502 | one expected entry per provider; a non-empty original provider is restored, with its splitter when its model loads |
| DocumentWorkflow.InitialDoc | src/workflows/document_intelligence_workflow.py:198-203 | the start state holds the request message and the path; status, error, type and data are not yet written |
| DocumentWorkflow.ValidateStep | src/workflows/document_intelligence_workflow.py:69-102 | status `validated` iff no validation error; success appends exactly one message; failure sets `error` and the message and leaves the trace |
| DocumentWorkflow.ValidationOrder | src/workflows/document_intelligence_workflow.py:74-87 | the checks in order: empty path, missing path, unsupported suffix, each with its own message; validation passes iff all three pass |
| DocumentWorkflow.ClassifyStep | src/workflows/document_intelligence_workflow.py:104-125 | on success the classifier's label (or "Unknown" for none), status `classified` and one message; on an exception status `error` with "Classification failed: " and nothing else changed |
| DocumentWorkflow.ProcessStep | src/workflows/document_intelligence_workflow.py:127-163 | `completed` iff extraction succeeded, storing the items and one message; otherwise `error` with "Processing failed: " |
| DocumentWorkflow.HandleErrorStep | src/workflows/document_intelligence_workflow.py:165-174 | appends one "Error: …" message and changes nothing else |
| DocumentWorkflow.RunGraph | src/workflows/document_intelligence_workflow.py:44-65 | following the edges, the final status is always `completed` or `error`, for the same path |
| DocumentWorkflow.Shape | src/workflows/document_intelligence_workflow.py:206-215 | the returned record uses the defaults "Unknown", [] and "" for keys never written |
| DocumentWorkflow.StatusIsTerminal | src/workflows/document_intelligence_workflow.py:184-229 | `process_document` always reports `completed` or `error` |
| DocumentWorkflow.RejectedPath | src/workflows/document_intelligence_workflow.py:176-178 | after a validation failure neither classification nor processing runs: `error`, that message, one "Error: " trace line |
| DocumentWorkflow.CompletedGraph | src/workflows/document_intelligence_workflow.py:44-65 | a valid path whose extraction succeeds ends `completed` with the label, the items and exactly three new trace messages |
| DocumentWorkflow.FailedGraph | src/workflows/document_intelligence_workflow.py:151-172 | a valid path whose extraction fails ends `error` with "Processing failed: …" and three new messages, the last "Error: …" |
| DocumentWorkflow.AcceptedPath | src/workflows/document_intelligence_workflow.py:89-123 | validation then classification of a valid path: the exact state before processing |
| DocumentWorkflow.ClassificationErrorDoesNotStop | src/workflows/document_intelligence_workflow.py:56 | the classify → process edge is unconditional, so a classification exception still ends `completed` when extraction succeeds |
| DocumentWorkflow.SuccessfulRun | src/workflows/document_intelligence_workflow.py:184-215 | `process_document` on a valid path with working extraction: `completed`, the type, the items, empty error and the four-message trace |
| DocumentWorkflow.FailedExtraction | src/workflows/document_intelligence_workflow.py:184-215 | `process_document` when extraction fails: `error`, no data, the processing error and its trace |
| DocumentWorkflow.TraceExtendsStart | src/workflows/document_intelligence_workflow.py:93-172 | every run keeps the start trace as a prefix and appends one to three messages |
| DocumentWorkflow.ClassifyTrace | src/workflows/document_intelligence_workflow.py:116-123 | classification appends at most one message |
| DocumentWorkflow.ProcessTrace | src/workflows/document_intelligence_workflow.py:151-172 | processing plus the error node append exactly one message |
| DocumentWorkflow.ProcessingState.constructor | src/workflows/document_intelligence_workflow.py:18-26 | the state object starts as the start state |
| DocumentWorkflow.Workflow.ValidateNode | src/workflows/document_intelligence_workflow.py:69-102 | the node changes the state exactly as ValidateStep says |
| DocumentWorkflow.Workflow.ClassifyNode | src/workflows/document_intelligence_workflow.py:104-125 | the node changes the state as ClassifyStep with the agent's classification |
| DocumentWorkflow.Workflow.ProcessNode | src/workflows/document_intelligence_workflow.py:127-163 | pagination iff the context is limited, else standard extraction with the vision flag; the state changes as ProcessStep says |
| DocumentWorkflow.Workflow.HandleErrorNode | src/workflows/document_intelligence_workflow.py:165-174 | the node changes the state as HandleErrorStep says |
| DocumentWorkflow.Workflow.Invoke | src/workflows/document_intelligence_workflow.py:44-65 | running the nodes along the edges gives RunGraph's state |
| DocumentWorkflow.Workflow.ProcessDocument | src/workflows/document_intelligence_workflow.py:184-229 | the shaped final state, or the engine-failure record when the graph itself raises |
| DocumentWorkflow.Workflow.BatchProcessDocuments | src/workflows/document_intelligence_workflow.py:231-255 | one entry per distinct path in first-seen order, each equal to `process_document` on that path |
| Agents.NewState | src/agents/base_agent.py:12-19 | a new state has no messages and no agent outputs, and holds the given task, context and metadata |
| Agents.Get | src/workflows/content_creation.py:64-65 | `dict.get`: the stored value when the key is present, else the default |
| Agents.DictRepr | src/agents/base_agent.py:72 | a printed dictionary is enclosed in braces |
| Agents.AgentState.constructor | src/agents/base_agent.py:12-19 | messages and agent outputs start empty |
| Agents.AgentState.Load | src/workflows/research_workflow.py:52 | the state object takes the value an agent returned |
| Agents.BaseAgent.constructor | src/agents/base_agent.py:27-54 | name, role, class name and prompt are stored; the tool list starts empty |
| Agents.BaseAgent.AddTool | src/agents/base_agent.py:56-58 | appends exactly one tool at the end and keeps the earlier tools |
| Agents.BaseAgent.GetSystemMessage | src/agents/base_agent.py:61-63 | a system message carrying the system prompt |
| Agents.BaseAgent.PrepareMessages | src/agents/base_agent.py:65-81 | the system message first; a context message iff the context is non-empty, then a task message iff the task is truthy; then the state's messages in order; length 1 + [ctx] + [task] + messages |
| Agents.BaseAgent.Str | src/agents/base_agent.py:102-103 | "name (role)" |
| Agents.BaseAgent.Repr | src/agents/base_agent.py:105-106 | "<ClassName: name>" |
| ContentCreation.Finished | src/workflows/content_creation.py:84-85 | finalize sets `final_result` and `workflow_completed` = true and leaves every other key and field unchanged |
| ContentCreation.FinalizeStep | src/workflows/content_creation.py:60-88 | the state object changes exactly as Finalize says |
| ContentCreation.InitialState | src/workflows/content_creation.py:95-99 | the run starts from the task, the given context and metadata holding only `workflow_started` |
| ContentCreation.RunOutcome | src/workflows/content_creation.py:90-121 | a run fails iff an agent raised, carrying its error; otherwise it reports the content, feedback, findings, the compiled result, completed metadata and the agent outputs |
| ContentCreation.IterationTask | src/workflows/content_creation.py:141 | iteration i runs "Iteration i: task" |
| ContentCreation.IterationContext | src/workflows/content_creation.py:135-139 | `previous_content` and `iteration` are passed iff the current content is non-empty |
| ContentCreation.LowerText | src/workflows/content_creation.py:150 | lower-casing the feedback succeeds iff it is text |
| ContentCreation.RunWithFeedbackLoop | src/workflows/content_creation.py:123-159 | the loop computes the feedback-loop value |
| ContentCreation.LoopFromBounds | src/workflows/content_creation.py:127-159 | every loop result is a success with empty history, ending after its start and no later than the limit |
| ContentCreation.IterationBounds | src/workflows/content_creation.py:127-133 | 0 ≤ iterations ≤ max_iterations, and iterations is 0 iff max_iterations ≤ 0 |
| ContentCreation.NeverApprovedRunsAll | src/workflows/content_creation.py:130-152 | when no run stops the loop, it runs all max_iterations iterations |
| ContentCreation.FailureKeepsContent | src/workflows/content_creation.py:143-144 | a failed run stops the loop and keeps the content so far |
| ContentCreation.ApprovalStops | src/workflows/content_creation.py:149-152 | feedback containing "approved" or "excellent", in any case, stops the loop with that run's content |
| Research.OutputOr | src/workflows/research_workflow.py:55 | the research agent's output, or the default when there is none |
| Research.AgentStep | src/workflows/research_workflow.py:82-87 | a step fails iff the agent raised; otherwise the agent's output is stored under the step's key and nothing else differs from the agent's state |
| Research.InitialResearch | src/workflows/research_workflow.py:44-58 | the task is restored to its value on entry and the output is stored under `initial_findings` |
| Research.DeepDive | src/workflows/research_workflow.py:60-87 | fails iff the research agent fails on the deep-dive task, with its error; otherwise the agent's output is stored under `deep_dive_findings` |
| Research.Synthesis | src/workflows/research_workflow.py:89-120 | fails iff the research agent fails on the synthesis task, with its error; otherwise the agent's output is stored under `research_synthesis` |
| Research.Validation | src/workflows/research_workflow.py:122-150 | fails iff the research agent fails on the validation task, with its error; otherwise the agent's output is stored under `validation_results` |
| Research.Reported | src/workflows/research_workflow.py:181-182 | finalize sets `final_research_report` and `research_workflow_completed` = true and changes nothing else |
| Research.Head500 | src/workflows/research_workflow.py:160 | the executive summary is a prefix of the synthesis of length min(500, its length), so the whole synthesis when it has at most 500 characters |
| Research.FinalizeResearch | src/workflows/research_workflow.py:152-184 | finalizing succeeds iff the synthesis is text |
| Research.Graph | src/workflows/research_workflow.py:22-42 | a graph that completes leaves a text report and the completion flag |
| Research.RunOutcome | src/workflows/research_workflow.py:186-217 | the report names its topic; it fails iff the graph raised, with that error; a completed one has a text report and the completion flag |
| Research.RunAgentStep | src/workflows/research_workflow.py:82-87 | the state object takes the step's result, or the error is returned |
| Research.InitialResearchStep | src/workflows/research_workflow.py:44-58 | the state object changes as InitialResearch says |
| Research.DeepDiveStep | src/workflows/research_workflow.py:60-87 | the state object changes as DeepDive says |
| Research.SynthesisStep | src/workflows/research_workflow.py:89-120 | the state object changes as Synthesis says |
| Research.ValidationStep | src/workflows/research_workflow.py:122-150 | the state object changes as Validation says |
| Research.FinalizeStep | src/workflows/research_workflow.py:152-184 | the state object changes as FinalizeResearch says |
| Research.Run | src/workflows/research_workflow.py:186-217 | the steps run in edge order, and the first error becomes the failed report |
| Research.PreviousKeyInjective | src/workflows/research_workflow.py:236 | different topic indices give different `previous_research_i` keys |
| Research.PreviousKeyIsNew | src/workflows/research_workflow.py:236 | the key of topic n differs from the keys of every earlier topic |
| Research.RunOfNamesTopic | src/workflows/research_workflow.py:203-217 | every run reports its own topic |
| Research.ContextHoldsEarlierSyntheses | src/workflows/research_workflow.py:223-236 | the context given to topic n holds `previous_research_j` iff earlier topic j succeeded, with its synthesis |
| Research.ContextHoldsOnlyPreviousKeys | src/workflows/research_workflow.py:223-236 | that context holds no other keys |
| Research.ResultsCoverTopics | src/workflows/research_workflow.py:226-231 | the results have one entry per distinct topic, in first-seen order |
| Research.ResultsNameTopics | src/workflows/research_workflow.py:230-231 | the result under each topic is that topic's report |
| Research.Successful | src/workflows/research_workflow.py:255-256 | exactly the topics whose run succeeded |
| Research.PartsOfSuccessful | src/workflows/research_workflow.py:252-258 | the synthesis input has one section per successful topic, in result order, and none for failed ones |
| Research.CreateCollaborativeSynthesis | src/workflows/research_workflow.py:249-278 | the loop builds exactly those sections, and the agent's answer (or "Synthesis not available") is returned |
| Research.RunCollaborativeResearch | src/workflows/research_workflow.py:219-247 | each topic runs on a copy of the context so far, and the loop computes the collaborative report |
| Research.CollaborativeShape | src/workflows/research_workflow.py:241-247 | success, `total_topics` = number of topics, the topics as given, and an individual result for every topic, naming it |
| DocumentSearch.SearchDirectories | src/tools/search_tools.py:130-145 | a single directory or all three, always among the known ones |
| DocumentSearch.SingleDirectoryIffKnownType | src/tools/search_tools.py:131-145 | one directory iff the lower-cased type is report, specification, spec or policy, and then the mapped one; otherwise all three in order |
| DocumentSearch.SearchDirectoriesIgnoreCase | src/tools/search_tools.py:138-139 | matching the type ignores case |
| DocumentSearch.RStripChar | src/tools/search_tools.py:184 | `rstrip(c)` removes exactly the trailing run of c |
| DocumentSearch.TypeLabels | src/tools/search_tools.py:184 | the labels are "report", "specification" and "policie" |
| DocumentSearch.FirstMatch | src/tools/search_tools.py:204-209 | the position found is -1 or within the content |
| DocumentSearch.FirstMatchIsEarliest | src/tools/search_tools.py:204-209 | -1 iff no term occurs; otherwise the position of some term and no later than any term's first occurrence |
| DocumentSearch.FindFirstMatch | src/tools/search_tools.py:204-209 | the loop finds the earliest match |
| DocumentSearch.Window | src/tools/search_tools.py:216-217 | start ≤ match and end ≤ length; the start is 0 exactly when the match lies within half a snippet of the beginning, and is otherwise half a snippet before the match; the end is the content's end when a full snippet would pass it, and is otherwise a full snippet after the start |
| DocumentSearch.Framed | src/tools/search_tools.py:222-225 | the result is the body with exactly three more characters for each ellipsis asked for: "..." in front iff `lead`, "..." behind iff `trail`, and the body between them |
| DocumentSearch.FramedDetermined | src/tools/search_tools.py:222-225 | any text with the framed length, the leading ellipsis when asked for, the body in its place and the trailing ellipsis when asked for is the framed text: nothing else is added |
| DocumentSearch.SnippetWithoutMatch | src/tools/search_tools.py:211-213 | with no match: the whole stripped content when it fits, otherwise the first L characters stripped plus "..." |
| DocumentSearch.SnippetAroundMatch | src/tools/search_tools.py:215-227 | with a match: the window starts at 0 iff the match is within half a snippet of the beginning, else half a snippet before it, and ends before the content's end iff a full snippet fits, then one snippet after the start; the snippet is the stripped window, with "..." in front iff start > 0 and behind iff end < length, at most six characters longer than the snippet length |
| DocumentSearch.ExtractSnippet | src/tools/search_tools.py:200-227 | the method computes the snippet |
| DocumentSearch.ScoreAtLeastTotalPreorder | src/tools/search_tools.py:197 | ordering by descending score is a total preorder |
| DocumentSearch.KeptCount | src/tools/search_tools.py:198 | `[:max_results]` keeps min(max, n) for max ≥ 0; a negative max drops that many results from the end, and keeps none when it is larger than n |
| DocumentSearch.SortedPrefixDominates | src/tools/search_tools.py:197-198 | a prefix of the sorted list is sorted, and every result left out scores no more than every result kept |
| DocumentSearch.TopResults | src/tools/search_tools.py:197-198 | the kept count of results, sorted by descending score, drawn from the hits, none left out scoring higher than one kept |
| FileTools.SaveName | src/tools/file_tools.py:37-38 | the name ends with ".type"; it is unchanged if it already did, else ".type" is appended |
| FileTools.SaveNameIdempotent | src/tools/file_tools.py:37-38 | normalising twice is normalising once |
| FileTools.SavePath | src/tools/file_tools.py:40 | the path ends with ".type" and is "outputs/" + the name for a relative name |
| FileTools.SaveFile | src/tools/file_tools.py:27-54 | "outputs" is created; the message is the success text or "Error saving file: " + the OS error; on success only the saved path is written, with the JSON wrapper for json; on error no file changes |
| FileTools.SaveSucceeds | src/tools/file_tools.py:33-49 | a plain name saves successfully when "outputs" is not a file and no directory has the saved name |
| FileTools.SaveWrites | src/tools/file_tools.py:43-49 | a reported success has written the saved body at the path |
| FileTools.SaveThenLoad | src/tools/file_tools.py:27-93 | saved content loads back by the reported path, and by the saved name when the working directory has no such entry: exactly for JSON, with universal newlines for text |
| FileTools.Candidates | src/tools/file_tools.py:73-77 | the name, then outputs/name, then data/name |
| FileTools.FirstExisting | src/tools/file_tools.py:79-80 | the first candidate that exists, none iff none does |
| FileTools.LoadOrder | src/tools/file_tools.py:73-88 | load reads the name if it exists, else outputs/name, else data/name, else "File not found: name" |
| FileTools.SavedBodyReadsBack | src/tools/file_tools.py:82-86 | a saved body reads back as the content: exactly through a JSON file's "content" field, and with "\r\n" and "\r" read as "\n" for a text file |
| FileTools.ReadBack | src/tools/file_tools.py:81-86 | saved content reads back unchanged for JSON or when it holds no "\r"; for a text file the text read holds no "\r" and keeps every other character in order |
| FileTools.WrittenLoadsBack | src/tools/file_tools.py:67-88 | a written body loads back by path, and by name when outputs/name is the path, as the content read back |
| FileTools.JsonSavePath | src/tools/file_tools.py:37-40 | a json save always lands on a ".json" path |
| FileTools.Filtered | src/tools/file_tools.py:118-119 | with a type, exactly the names ending in ".type"; without one, all names |
| FileTools.FileLines | src/tools/file_tools.py:126-132 | at most one line per name |
| FileTools.ListedNames | src/tools/file_tools.py:126-132 | the lines are exactly those of the names that are files, in order, each with its size and time |
| FileTools.ListingOrder | src/tools/file_tools.py:107-134 | the listing shows exactly the files of the directory with the type, sorted and each once, after "Files in d:"; with no such file it says "No files found in d", adding "with type t" when a type is asked for |
| FileTools.SubsequenceSorted | src/tools/file_tools.py:126-132 | skipping non-files keeps the names sorted and distinct |
| FileTools.SectionBlocks | src/tools/file_tools.py:165-166 | one block per section |
| FileTools.ReportSections | src/tools/file_tools.py:160-180 | a markdown or text report starts with its header, and section i's block ("## s" or s underlined with dashes) sits right after the blocks of the sections before it |
| FileTools.RenderReport | src/tools/file_tools.py:160-180 | the loop renders the report of the format |
| FileTools.ReportName | src/tools/file_tools.py:183 | "report_" + the title lower-cased with spaces turned into "_" + "_" + the time |
| FileTools.ReportSaved | src/tools/file_tools.py:183-187 | the report is saved with its format as extension ("markdown" included) and loads back when the save succeeded, with universal newlines unless it is JSON |
| FileTools.FileSystem.Save | src/tools/file_tools.py:27-54 | the disk and message change exactly as SaveFile says |
| FileTools.FileSystem.Load | src/tools/file_tools.py:67-93 | the loop over candidates computes LoadText, which reads a text file with universal newlines |
| FileTools.FileSystem.ListFiles | src/tools/file_tools.py:107-139 | the listing text for the directory and type |
| FileTools.FileSystem.DescribeFiles | src/tools/file_tools.py:126-132 | the loop computes the file lines |
| FileTools.FileSystem.CreateReport | src/tools/file_tools.py:154-192 | the rendered report is saved under the report name; the message is "Report created successfully.\n" + the save message, even when the save failed |
| JsonText.Hex4RoundTrip | src/tools/file_tools.py:45 | a `\uXXXX` escape reads back as its code unit |
| JsonText.EscapeChar | src/tools/file_tools.py:45 | each escaped character is printable ASCII, and only an unescaped printable character is written as itself |
| JsonText.Escape | src/tools/file_tools.py:45 | escaped text is printable ASCII |
| JsonText.Quote | src/tools/file_tools.py:168-172 | a string literal is enclosed in quotes and printable |
| JsonText.UnescapeChar | src/tools/file_tools.py:45 | one escaped character reads back as itself, surrogate pairs included |
| JsonText.UnescapeEscape | src/tools/file_tools.py:82-84 | escaping loses nothing: reading an escaped string gives it back |
| JsonText.QuoteInjective | src/tools/file_tools.py:168-172 | different strings give different literals |
| JsonText.Object | src/tools/file_tools.py:168-172 | an object is enclosed in braces, and is "{}" iff it has no members |
| OrderedMaps.Put | src/workflows/research_workflow.py:55 | dict assignment: the key maps to the value, other keys are unchanged, a new key goes last and an existing one keeps its place |
| OrderedMaps.FirstOccurrences | src/workflows/document_intelligence_workflow.py:248-253 | the keys a loop of assignments leaves: the same items, each once |
| Sorting.SortBy | src/tools/search_tools.py:197 | sorting gives a sorted permutation |
| Sorting.SortedSet | src/tools/file_tools.py:126 | `sorted` of a set: the same names, each once, in order |
| Paths.PathName | src/agents/document_intelligence_agent.py:307 | `Path(p).name` is no longer than p |
| Paths.Suffix | src/agents/document_intelligence_agent.py:374 | `Path(p).suffix` is empty or a final dot-part of the name after a non-empty stem |
| Paths.JoinPath | src/tools/file_tools.py:40 | `os.path.join` keeps an absolute second part and otherwise joins with one separator |
| Text.Lower | src/agents/document_intelligence_agent.py:307 | lower-casing keeps length and lowers each character |
| Text.Find | src/tools/search_tools.py:207 | `find`: -1, or the first index where the term occurs |
| Text.StripTrims | src/tools/search_tools.py:213 | `strip` keeps the slice after the leading whitespace, ends on no whitespace, and cuts off only whitespace, where whitespace is every character `str.isspace` accepts |
| Text.UniversalNewlinesKeepsText | src/tools/file_tools.py:81-86 | reading in text mode rewrites only line breaks: the characters other than "\r" and "\n" are kept, in order |

## Left out

- The provider back ends (the Ollama and Hugging Face clients) are left out, as are network and device handling. A provider is an identity with an availability flag and an info record, and its `generate` is a function supplied by the caller.
- Document extraction is left out: loading, splitting, extracting and contract classes belong to an external library. Its outcome is a function of the active provider, the path and the vision flag. The splitting and completion strategies passed through are not modelled.
- PII analysis is left out (it is an external library). Its outcome is a parameter of `MaskPii`.
- `_configure_model_provider` is left out. It only sets environment variables and model strings. Whether it succeeds is the `loads` parameter.
- The graph runtime is replaced by the sequence its edges describe. Its failure is the parameter `engineError`.
- The language model is left out: `invoke_llm`, prompt wording inside the agents, and the agents' own `process`. Each agent is a function from a state to a state or an error.
- The research workflow's task and report wording is a parameter (`Texts`). `SOURCE_TEXTS` holds the source's wording.
- File reading, `stat`, the directory walk and the relevance arithmetic of the document search are left out. Scores are given values. Splitting the query into search terms is not modelled: the terms are given.
- Title-casing of search hit titles (`str.title`) is not modelled.
- `DocumentSearchTool._run` output formatting is not modelled.
- Web search, Wikipedia and the fact check are left out. They are network calls and a mock.
- Logging, `time.time` timing, `datetime.now()` and `main.py` are left out. The clock is a parameter. In `CreateReport` the two clock readings are taken as one instant.
- Configuration values are parameters (`Config`) rather than environment parsing.
- Case mapping is ASCII-only (`Lower`, `Upper`). Python's Unicode lower-casing, which may change string length, is not modelled.
- The file system is a map of paths to files plus a set of directory paths:
  - paths are not normalised (`a/../b`, `./a`);
  - the working directory "" always exists;
  - for ENOENT/ENOTDIR only the immediate parent is checked;
  - OS error texts are the Linux ones;
  - `repr` quoting of paths containing a quote is not modelled.
- Files are written as on POSIX systems, with no newline translation on write; reading translates "\r\n" and "\r" to "\n", as text mode does.
- File sizes are UTF-8 byte counts of the written text. Modification times are the clock's value at the last write.
- JSON reading is modelled only for files this system wrote.
  - A non-JSON file at a `.json` path always gives the fixed decode error.
  - Other JSON layouts, and values that are not text, numbers or flags, are not modelled.
- The agent's `generate_with_model`, `get_available_providers` and `get_all_provider_info` only forward to the registry. They are covered by `Registry.Generate`, `Registry.AvailableProviders` and `Registry.GetProviderInfo`.
- `benchmark_providers` generation time is not modelled (timing).
- The business document processor, the writing, review and research agents' prompts, setup and the examples are outside this core.
- The `messages` reducer of the workflow state (`MessagesState`) is modelled as appending plain message texts. Message kinds are not kept there.
- The state keys of the document workflow that were never written are absent, not defaulted. The code returns them through `.get` defaults, so `pending` never appears.
- Sorting.SortBy: stability (the order among equal scores) is not proved; only a sorted permutation is.
- DocumentSearch.TopResults: does not state which of several equally scored hits are kept, since stability is not proved.
- Agents.DictRepr: escaping of quotes and special characters inside `repr` of keys and values is not modelled.
- Concurrency is not modelled: the registry is a single module-level object used sequentially.
