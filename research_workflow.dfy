/** The research workflow: one research agent is run four times on one
    state (initial research, deep dive, synthesis, validation), each time
    with a task built from the findings so far, and a final step compiles
    a report. Collaborative research runs the workflow once per topic,
    handing each run the syntheses of the earlier successful runs, and
    then has the agent synthesise across topics. The agent's work (a
    language-model call that may raise) is a parameter. */
module Research {
  import opened Wrappers
  import opened Text
  import opened OrderedMaps
  import opened Agents

  /** The research agent's `process`: the state it returns, or the error it
      raised. */
  type Process = StateValue -> Result<StateValue>

  /** The name under which the research agent records its output. */
  const RESEARCH_AGENT := "research_agent"

  /** `state.agent_outputs.get("research_agent", default)`. */
  function OutputOr(v: StateValue, default: string): (r: string)
    ensures RESEARCH_AGENT in v.agentOutputs.items ==> r == v.agentOutputs.items[RESEARCH_AGENT]
    ensures RESEARCH_AGENT !in v.agentOutputs.items ==> r == default
  {
    if RESEARCH_AGENT in v.agentOutputs.items then v.agentOutputs.items[RESEARCH_AGENT] else default
  }

  /** A newline followed by the indentation of the prompts' lines. */
  const NL := "\n        "

  function InitialTask(task: Option<string>): string {
    "Conduct initial broad research on: " + TaskText(task)
  }

  function DeepDiveTask(task: string, initialFindings: string): string {
    NL + "Based on the initial research findings below, conduct a deep dive analysis on:"
    + NL + task + NL
    + NL + "Initial findings:"
    + NL + initialFindings + NL
    + NL + "Focus on:"
    + NL + "1. Detailed analysis of key points"
    + NL + "2. Supporting evidence and data"
    + NL + "3. Different perspectives and viewpoints"
    + NL + "4. Potential gaps or areas needing more investigation"
    + NL
  }

  function SynthesisTask(task: string, initialFindings: string, deepDiveFindings: string): string {
    NL + "Synthesize all research findings for: " + task + NL
    + NL + "Initial Research:"
    + NL + initialFindings + NL
    + NL + "Deep Dive Research:"
    + NL + deepDiveFindings + NL
    + NL + "Create a comprehensive synthesis that includes:"
    + NL + "1. Executive summary of key findings"
    + NL + "2. Main themes and patterns"
    + NL + "3. Supporting evidence and data"
    + NL + "4. Conflicting viewpoints and their resolution"
    + NL + "5. Implications and recommendations"
    + NL + "6. Areas for future research"
    + NL
  }

  function ValidationTask(synthesis: string): string {
    NL + "Validate the following research synthesis for accuracy and completeness:" + NL
    + NL + synthesis + NL
    + NL + "Validation criteria:"
    + NL + "1. Factual accuracy"
    + NL + "2. Logical consistency"
    + NL + "3. Source reliability assessment"
    + NL + "4. Bias identification"
    + NL + "5. Gap analysis"
    + NL + "6. Confidence levels for each finding" + NL
    + NL + "Provide validation results and recommendations for improvement."
    + NL
  }

  function CollaborativeTask(combinedResearch: string): string {
    NL + "Create a collaborative synthesis across multiple research topics:" + NL
    + NL + combinedResearch + NL
    + NL + "Provide:"
    + NL + "1. Cross-topic themes and patterns"
    + NL + "2. Interconnections between topics"
    + NL + "3. Comprehensive insights"
    + NL + "4. Unified recommendations"
    + NL + "5. Research gaps across all topics"
    + NL
  }

  /** The report `finalize_step` compiles; `summary` is the first 500
      characters of the synthesis. */
  function FinalReport(v: StateValue, summary: string): string {
    "\nCOMPREHENSIVE RESEARCH REPORT\n\n=== EXECUTIVE SUMMARY ===\n" + summary
    + "...\n\n=== INITIAL FINDINGS ===\n" + Get(v.context, "initial_findings", Text("")).Show()
    + "\n\n=== DETAILED ANALYSIS ===\n" + Get(v.context, "deep_dive_findings", Text("")).Show()
    + "\n\n=== SYNTHESIS ===\n" + Get(v.context, "research_synthesis", Text("")).Show()
    + "\n\n=== VALIDATION ===\n" + Get(v.context, "validation_results", Text("")).Show()
    + "\n\n=== METADATA ===\nOriginal Task: " + TaskText(v.currentTask)
    + "\nResearch Depth: Comprehensive (4 stages)\nValidation: Completed\n"
  }

  /** The texts the workflow writes around the findings: the tasks it gives
      the agent and the final report. They are a parameter so that proofs
      about the workflow do not depend on their wording; `SOURCE_TEXTS`
      holds the wording of the modelled code. */
  datatype Texts = Texts(
    deepDive: (string, string) -> string,
    synthesis: (string, string, string) -> string,
    validation: string -> string,
    report: (StateValue, string) -> string,
    collaborative: string -> string)

  /** The wording of the modelled code. */
  const SOURCE_TEXTS := Texts(DeepDiveTask, SynthesisTask, ValidationTask, FinalReport, CollaborativeTask)

  /** A `ResearchWorkflow` object: its research agent and its texts. */
  datatype Workflow = Workflow(agent: Process, texts: Texts)

  /** The shape every step shares: set the task to `prompt`, let the agent
      work, and store its output under `key` in the context. The task is
      left as the prompt. */
  function AgentStep(agent: Process, v: StateValue, prompt: string, key: string): (r: Result<StateValue>)
    ensures var a := agent(v.(currentTask := Some(prompt)));
            && (r.Ok? <==> a.Ok?)
            && (r.Err? ==> r.error == a.error)
            && (r.Ok? ==>
                  && key in r.value.context.items
                  && r.value.context.items[key] == Text(OutputOr(a.value, ""))
                  && (forall k :: k != key ==> (k in r.value.context.items <==> k in a.value.context.items))
                  && r.value.(context := a.value.context) == a.value)
  {
    match agent(v.(currentTask := Some(prompt)))
    case Err(e) => Err(e)
    case Ok(a) => Ok(a.(context := a.context.Put(key, Text(OutputOr(a, "")))))
  }

  /** `initial_research_step`: the output goes under `initial_findings` and
      the task is the one the step started with. */
  function InitialResearch(w: Workflow, v: StateValue): (r: Result<StateValue>)
    ensures var a := w.agent(v.(currentTask := Some(InitialTask(v.currentTask))));
            && (r.Ok? <==> a.Ok?)
            && (r.Ok? ==>
                  && r.value.currentTask == v.currentTask
                  && "initial_findings" in r.value.context.items
                  && r.value.context.items["initial_findings"] == Text(OutputOr(a.value, "")))
  {
    match AgentStep(w.agent, v, InitialTask(v.currentTask), "initial_findings")
    case Err(e) => Err(e)
    case Ok(a) => Ok(a.(currentTask := v.currentTask))
  }

  /** The task `deep_dive_step` hands the agent. */
  function DeepDivePrompt(w: Workflow, v: StateValue): string {
    w.texts.deepDive(TaskText(v.currentTask), Get(v.context, "initial_findings", Text("")).Show())
  }

  /** `deep_dive_step`: the output goes under `deep_dive_findings`. */
  function DeepDive(w: Workflow, v: StateValue): (r: Result<StateValue>)
    ensures var a := w.agent(v.(currentTask := Some(DeepDivePrompt(w, v))));
            && (r.Ok? <==> a.Ok?)
            && (r.Err? ==> r.error == a.error)
            && (r.Ok? ==> "deep_dive_findings" in r.value.context.items && r.value.context.items["deep_dive_findings"] == Text(OutputOr(a.value, "")))
  {
    AgentStep(w.agent, v, DeepDivePrompt(w, v), "deep_dive_findings")
  }

  /** The task `synthesis_step` hands the agent. */
  function SynthesisPrompt(w: Workflow, v: StateValue): string {
    w.texts.synthesis(TaskText(v.currentTask), Get(v.context, "initial_findings", Text("")).Show(),
      Get(v.context, "deep_dive_findings", Text("")).Show())
  }

  /** `synthesis_step`: the output goes under `research_synthesis`. */
  function Synthesis(w: Workflow, v: StateValue): (r: Result<StateValue>)
    ensures var a := w.agent(v.(currentTask := Some(SynthesisPrompt(w, v))));
            && (r.Ok? <==> a.Ok?)
            && (r.Err? ==> r.error == a.error)
            && (r.Ok? ==> "research_synthesis" in r.value.context.items && r.value.context.items["research_synthesis"] == Text(OutputOr(a.value, "")))
  {
    AgentStep(w.agent, v, SynthesisPrompt(w, v), "research_synthesis")
  }

  /** The task `validation_step` hands the agent. */
  function ValidationPrompt(w: Workflow, v: StateValue): string {
    w.texts.validation(Get(v.context, "research_synthesis", Text("")).Show())
  }

  /** `validation_step`: the output goes under `validation_results`. */
  function Validation(w: Workflow, v: StateValue): (r: Result<StateValue>)
    ensures var a := w.agent(v.(currentTask := Some(ValidationPrompt(w, v))));
            && (r.Ok? <==> a.Ok?)
            && (r.Err? ==> r.error == a.error)
            && (r.Ok? ==> "validation_results" in r.value.context.items && r.value.context.items["validation_results"] == Text(OutputOr(a.value, "")))
  {
    AgentStep(w.agent, v, ValidationPrompt(w, v), "validation_results")
  }

  /** What `finalize_step` does once the report is known: it goes under
      `final_research_report` and the run is flagged as completed. */
  function Reported(v: StateValue, report: string): (r: StateValue)
    ensures "final_research_report" in r.context.items && r.context.items["final_research_report"] == Text(report)
    ensures "research_workflow_completed" in r.metadata.items
    ensures r.metadata.items["research_workflow_completed"] == Flag(true)
    ensures forall k :: k != "final_research_report" ==>
              (k in r.context.items <==> k in v.context.items)
              && (k in v.context.items ==> r.context.items[k] == v.context.items[k])
    ensures r.messages == v.messages && r.currentTask == v.currentTask && r.agentOutputs == v.agentOutputs
  {
    v.(context := v.context.Put("final_research_report", Text(report)),
       metadata := v.metadata.Put("research_workflow_completed", Flag(true)))
  }

  /** The first 500 characters of `s`, as `s[:500]`. */
  function Head500(s: string): (r: string)
    ensures |r| <= 500 && |r| <= |s| && r == s[..|r|]
    ensures |r| == if |s| <= 500 then |s| else 500
  {
    if |s| <= 500 then s else s[..500]
  }

  /** `finalize_step`. Slicing the synthesis raises unless it is text. */
  function FinalizeResearch(w: Workflow, v: StateValue): (r: Result<StateValue>)
    ensures r.Ok? <==> Get(v.context, "research_synthesis", Text("")).Text?
  {
    match Get(v.context, "research_synthesis", Text(""))
    case Text(s) => Ok(Reported(v, w.texts.report(v, Head500(s))))
    case Number(_) => Err("'int' object is not subscriptable")
    case Flag(_) => Err("'bool' object is not subscriptable")
  }

  /** The graph's stages in edge order; each runs when the one before it
      succeeded, and the first error stops the graph. */
  function AfterDeepDive(w: Workflow, v: StateValue): Result<StateValue> {
    match InitialResearch(w, v)
    case Err(e) => Err(e)
    case Ok(a) => DeepDive(w, a)
  }

  function AfterSynthesis(w: Workflow, v: StateValue): Result<StateValue> {
    match AfterDeepDive(w, v)
    case Err(e) => Err(e)
    case Ok(b) => Synthesis(w, b)
  }

  function AfterValidation(w: Workflow, v: StateValue): Result<StateValue> {
    match AfterSynthesis(w, v)
    case Err(e) => Err(e)
    case Ok(c) => Validation(w, c)
  }

  /** The graph initial research → deep dive → synthesis → validate →
      finalize. */
  function Graph(w: Workflow, v: StateValue): (r: Result<StateValue>)
    ensures r.Ok? ==> && "final_research_report" in r.value.context.items
                      && r.value.context.items["final_research_report"].Text?
                      && "research_workflow_completed" in r.value.metadata.items
                      && r.value.metadata.items["research_workflow_completed"] == Flag(true)
  {
    match AfterValidation(w, v)
    case Err(e) => Err(e)
    case Ok(d) => FinalizeResearch(w, d)
  }

  /** What `run` returns. */
  datatype ResearchReport =
    | Completed(researchTopic: string, finalReport: Data, initialFindings: Data, deepDiveFindings: Data,
                synthesis: Data, validation: Data, metadata: Dict)
    | Failed(error: string, researchTopic: string)

  /** The state `run` starts from. */
  function InitialState(topic: string, context: Dict): StateValue {
    NewState(Some(topic), context, Empty<string, Data>().Put("research_workflow_started", Flag(true)))
  }

  /** `run` as a value: the report of the graph on the initial state, or the
      error it raised. */
  function RunResearch(w: Workflow, topic: string, context: Dict): ResearchReport {
    match Graph(w, InitialState(topic, context))
    case Err(e) => Failed(e, topic)
    case Ok(f) =>
      Completed(topic, Get(f.context, "final_research_report", Text("")), Get(f.context, "initial_findings", Text("")),
                Get(f.context, "deep_dive_findings", Text("")), Get(f.context, "research_synthesis", Text("")),
                Get(f.context, "validation_results", Text("")), f.metadata)
  }

  /** Every report names its topic; it fails exactly when the graph raised,
      with that error; a completed one carries a text report and metadata
      flagged as completed. */
  lemma RunOutcome(w: Workflow, topic: string, context: Dict)
    ensures var g := Graph(w, InitialState(topic, context));
            var r := RunResearch(w, topic, context);
            && r.researchTopic == topic
            && (r.Failed? <==> g.Err?)
            && (r.Failed? ==> r.error == g.error)
            && (r.Completed? ==>
                  && r.finalReport.Text?
                  && "research_workflow_completed" in r.metadata.items
                  && r.metadata.items["research_workflow_completed"] == Flag(true))
  {
  }

  /** Runs one step on the state object; on success the state is the
      step's result, and on failure the error is returned. */
  method RunAgentStep(agent: Process, state: AgentState, prompt: string, key: string) returns (error: Option<string>)
    modifies state
    ensures var r := AgentStep(agent, old(state.Value()), prompt, key);
            && (error.None? <==> r.Ok?)
            && (r.Ok? ==> state.Value() == r.value)
            && (r.Err? ==> error == Some(r.error))
  {
    state.currentTask := Some(prompt);
    var out := agent(state.Value());
    if out.Err? {
      return Some(out.error);
    }
    state.Load(out.value);
    state.context := state.context.Put(key, Text(OutputOr(state.Value(), "")));
    return None;
  }

  method InitialResearchStep(w: Workflow, state: AgentState) returns (error: Option<string>)
    modifies state
    ensures var r := InitialResearch(w, old(state.Value()));
            && (error.None? <==> r.Ok?)
            && (r.Ok? ==> state.Value() == r.value)
            && (r.Err? ==> error == Some(r.error))
  {
    var original := state.currentTask;
    error := RunAgentStep(w.agent, state, InitialTask(original), "initial_findings");
    if error.None? {
      state.currentTask := original;
    }
  }

  method DeepDiveStep(w: Workflow, state: AgentState) returns (error: Option<string>)
    modifies state
    ensures var r := DeepDive(w, old(state.Value()));
            && (error.None? <==> r.Ok?)
            && (r.Ok? ==> state.Value() == r.value)
            && (r.Err? ==> error == Some(r.error))
  {
    var initialFindings := Get(state.context, "initial_findings", Text(""));
    var prompt := w.texts.deepDive(TaskText(state.currentTask), initialFindings.Show());
    error := RunAgentStep(w.agent, state, prompt, "deep_dive_findings");
  }

  method SynthesisStep(w: Workflow, state: AgentState) returns (error: Option<string>)
    modifies state
    ensures var r := Synthesis(w, old(state.Value()));
            && (error.None? <==> r.Ok?)
            && (r.Ok? ==> state.Value() == r.value)
            && (r.Err? ==> error == Some(r.error))
  {
    var initialFindings := Get(state.context, "initial_findings", Text(""));
    var deepDiveFindings := Get(state.context, "deep_dive_findings", Text(""));
    var prompt := w.texts.synthesis(TaskText(state.currentTask), initialFindings.Show(), deepDiveFindings.Show());
    error := RunAgentStep(w.agent, state, prompt, "research_synthesis");
  }

  method ValidationStep(w: Workflow, state: AgentState) returns (error: Option<string>)
    modifies state
    ensures var r := Validation(w, old(state.Value()));
            && (error.None? <==> r.Ok?)
            && (r.Ok? ==> state.Value() == r.value)
            && (r.Err? ==> error == Some(r.error))
  {
    var synthesis := Get(state.context, "research_synthesis", Text(""));
    error := RunAgentStep(w.agent, state, w.texts.validation(synthesis.Show()), "validation_results");
  }

  method FinalizeStep(w: Workflow, state: AgentState) returns (error: Option<string>)
    modifies state
    ensures var r := FinalizeResearch(w, old(state.Value()));
            && (error.None? <==> r.Ok?)
            && (r.Ok? ==> state.Value() == r.value)
            && (r.Err? ==> error == Some(r.error))
  {
    var synthesis := Get(state.context, "research_synthesis", Text(""));
    match synthesis
    case Text(s) =>
      var report := w.texts.report(state.Value(), Head500(s));
      state.context := state.context.Put("final_research_report", Text(report));
      state.metadata := state.metadata.Put("research_workflow_completed", Flag(true));
      error := None;
    case Number(_) =>
      error := Some("'int' object is not subscriptable");
    case Flag(_) =>
      error := Some("'bool' object is not subscriptable");
  }

  /** `run`: the steps in graph order on a fresh state object. */
  method Run(w: Workflow, topic: string, context: Dict) returns (r: ResearchReport)
    ensures r == RunResearch(w, topic, context)
  {
    var state := new AgentState(Some(topic), context, Empty<string, Data>().Put("research_workflow_started", Flag(true)));
    ghost var v0 := state.Value();
    var error := InitialResearchStep(w, state);
    if error.Some? {
      assert Graph(w, v0) == Err(error.value);
      return Failed(error.value, topic);
    }
    error := DeepDiveStep(w, state);
    assert AfterDeepDive(w, v0) == if error.Some? then Err(error.value) else Ok(state.Value());
    if error.Some? {
      return Failed(error.value, topic);
    }
    error := SynthesisStep(w, state);
    assert AfterSynthesis(w, v0) == if error.Some? then Err(error.value) else Ok(state.Value());
    if error.Some? {
      return Failed(error.value, topic);
    }
    error := ValidationStep(w, state);
    assert AfterValidation(w, v0) == if error.Some? then Err(error.value) else Ok(state.Value());
    if error.Some? {
      return Failed(error.value, topic);
    }
    error := FinalizeStep(w, state);
    assert Graph(w, v0) == if error.Some? then Err(error.value) else Ok(state.Value());
    if error.Some? {
      return Failed(error.value, topic);
    }
    r := Completed(topic, Get(state.context, "final_research_report", Text("")), Get(state.context, "initial_findings", Text("")),
                   Get(state.context, "deep_dive_findings", Text("")), Get(state.context, "research_synthesis", Text("")),
                   Get(state.context, "validation_results", Text("")), state.metadata);
  }

  /** The key under which the synthesis of topic `i` is handed to the
      topics after it. */
  function PreviousKey(i: nat): string {
    "previous_research_" + NatToString(i)
  }

  /** Different topics hand their syntheses on under different keys. */
  lemma PreviousKeyInjective(i: nat, j: nat)
    requires PreviousKey(i) == PreviousKey(j)
    ensures i == j
  {
    var prefix := "previous_research_";
    assert PreviousKey(i)[|prefix|..] == NatToString(i);
    assert PreviousKey(j)[|prefix|..] == NatToString(j);
    NatToStringInjective(i, j);
  }

  /** The results gathered so far, by topic, and the context the next topic
      is given. */
  datatype Progress = Progress(results: OrderedMap<string, ResearchReport>, context: Dict)

  /** `run` of one topic with a given context. */
  type Runner = (string, Dict) -> ResearchReport

  function RunOf(w: Workflow): Runner {
    (topic, context) => RunResearch(w, topic, context)
  }

  /** Every run of `w` names its topic. */
  lemma RunOfNamesTopic(w: Workflow)
    ensures forall topic, context :: RunOf(w)(topic, context).researchTopic == topic
  {
    forall topic, context {
      RunOutcome(w, topic, context);
    }
  }

  /** The progress of `run_collaborative_research` after its first `n`
      topics. */
  function Collected(run: Runner, topics: seq<string>, n: nat): Progress
    requires n <= |topics|
  {
    if n == 0 then Progress(Empty(), Empty())
    else
      var p := Collected(run, topics, n - 1);
      var result := run(topics[n - 1], p.context);
      Progress(p.results.Put(topics[n - 1], result),
               if result.Completed? then p.context.Put(PreviousKey(n - 1), result.synthesis) else p.context)
  }

  /** The report of topic `i`, run on the context the topics before it
      built. */
  function Outcome(run: Runner, topics: seq<string>, i: nat): ResearchReport
    requires i < |topics|
  {
    run(topics[i], Collected(run, topics, i).context)
  }

  /** The key of a topic differs from the keys of all topics before it. */
  lemma PreviousKeyIsNew(n: nat)
    ensures forall j :: 0 <= j < n ==> PreviousKey(j) != PreviousKey(n)
  {
    forall j | 0 <= j < n
      ensures PreviousKey(j) != PreviousKey(n)
    {
      if PreviousKey(j) == PreviousKey(n) {
        PreviousKeyInjective(j, n);
      }
    }
  }

  /** One topic's step on the results: its report is filed under it. */
  lemma ResultsStep(run: Runner, topics: seq<string>, n: nat)
    requires 0 < n <= |topics|
    ensures Collected(run, topics, n).results
            == Collected(run, topics, n - 1).results.Put(topics[n - 1], Outcome(run, topics, n - 1))
  {
  }

  /** One topic's step on the context: a successful run adds its synthesis
      under its own key. */
  lemma ContextStep(run: Runner, topics: seq<string>, n: nat)
    requires 0 < n <= |topics|
    ensures var p := Collected(run, topics, n - 1).context;
            var result := Outcome(run, topics, n - 1);
            Collected(run, topics, n).context
              == if result.Completed? then p.Put(PreviousKey(n - 1), result.synthesis) else p
  {
  }

  /** The context given to topic `n` holds, for each earlier topic whose run
      succeeded and for no other, its synthesis under `previous_research_j`. */
  lemma {:induction false} ContextHoldsEarlierSyntheses(run: Runner, topics: seq<string>, n: nat)
    requires n <= |topics|
    ensures var c := Collected(run, topics, n).context;
            && c.Valid()
            && (forall j :: 0 <= j < n ==>
                  && (PreviousKey(j) in c.items <==> Outcome(run, topics, j).Completed?)
                  && (PreviousKey(j) in c.items ==> c.items[PreviousKey(j)] == Outcome(run, topics, j).synthesis))
  {
    if n > 0 {
      ContextHoldsEarlierSyntheses(run, topics, n - 1);
      ContextStep(run, topics, n);
      PreviousKeyIsNew(n - 1);
      // the key of topic n - 1 is not yet in the context
      ContextHoldsOnlyPreviousKeys(run, topics, n - 1);
      var p := Collected(run, topics, n - 1).context;
      var c := Collected(run, topics, n).context;
      var result := Outcome(run, topics, n - 1);
      forall j | 0 <= j < n
        ensures && (PreviousKey(j) in c.items <==> Outcome(run, topics, j).Completed?)
                && (PreviousKey(j) in c.items ==> c.items[PreviousKey(j)] == Outcome(run, topics, j).synthesis)
      {
        if j < n - 1 {
          assert PreviousKey(j) != PreviousKey(n - 1);
          assert PreviousKey(j) in c.items <==> PreviousKey(j) in p.items;
        }
      }
    }
  }

  /** The context given to topic `n` holds nothing but keys of earlier
      topics. */
  lemma {:induction false} ContextHoldsOnlyPreviousKeys(run: Runner, topics: seq<string>, n: nat)
    requires n <= |topics|
    ensures var c := Collected(run, topics, n).context;
            forall k :: k in c.items ==> exists j :: 0 <= j < n && k == PreviousKey(j)
  {
    if n > 0 {
      ContextHoldsOnlyPreviousKeys(run, topics, n - 1);
      ContextStep(run, topics, n);
      var p := Collected(run, topics, n - 1).context;
      var c := Collected(run, topics, n).context;
      forall k | k in c.items
        ensures exists j :: 0 <= j < n && k == PreviousKey(j)
      {
        if k == PreviousKey(n - 1) {
          assert 0 <= n - 1 < n && k == PreviousKey(n - 1);
        } else {
          assert k in p.items;
          var j :| 0 <= j < n - 1 && k == PreviousKey(j);
          assert 0 <= j < n && k == PreviousKey(j);
        }
      }
    }
  }

  /** After `n` topics there is one result per distinct topic, in order of
      first appearance. */
  lemma {:induction false} ResultsCoverTopics(run: Runner, topics: seq<string>, n: nat)
    requires n <= |topics|
    ensures var r := Collected(run, topics, n).results;
            r.Valid() && r.keys == FirstOccurrences(topics[..n])
  {
    if n > 0 {
      ResultsCoverTopics(run, topics, n - 1);
      var p := Collected(run, topics, n - 1).results;
      var t := topics[n - 1];
      ResultsStep(run, topics, n);
      PrefixSnoc(topics, n - 1);
      PutFirstOccurrences(p, topics[..n - 1], t, Outcome(run, topics, n - 1));
    }
  }

  /** Every result gathered is the report of the topic it is filed under. */
  lemma {:induction false} ResultsNameTopics(run: Runner, topics: seq<string>, n: nat)
    requires forall topic, context :: run(topic, context).researchTopic == topic
    requires n <= |topics|
    ensures var r := Collected(run, topics, n).results;
            forall t :: t in r.items ==> r.items[t].researchTopic == t
  {
    if n > 0 {
      ResultsNameTopics(run, topics, n - 1);
      var t := topics[n - 1];
      ResultsStep(run, topics, n);
    }
  }

  /** `=== TOPIC ===` followed by the topic's synthesis. */
  function Section(topic: string, synthesis: Data): string {
    "=== " + Upper(topic) + " ===\n" + synthesis.Show() + "\n"
  }

  /** The sections of the successful results, in the order of `topics`. */
  function SynthesisParts(topics: seq<string>, results: map<string, ResearchReport>): seq<string>
    decreases |topics|
  {
    if |topics| == 0 then []
    else
      var t := topics[|topics| - 1];
      SynthesisParts(topics[..|topics| - 1], results)
      + (if t in results && results[t].Completed? then [Section(t, results[t].synthesis)] else [])
  }

  /** The topics whose run succeeded, in order. */
  function Successful(topics: seq<string>, results: map<string, ResearchReport>): (r: seq<string>)
    ensures forall t :: t in r <==> t in topics && t in results && results[t].Completed?
    decreases |topics|
  {
    if |topics| == 0 then []
    else
      var t := topics[|topics| - 1];
      var earlier := Successful(topics[..|topics| - 1], results);
      assert forall u :: u in topics <==> u in topics[..|topics| - 1] || u == t;
      if t in results && results[t].Completed? then earlier + [t] else earlier
  }

  /** The synthesis input has one section per successful topic, in order,
      and none for the others. */
  lemma {:induction false} PartsOfSuccessful(topics: seq<string>, results: map<string, ResearchReport>)
    ensures var parts := SynthesisParts(topics, results);
            var ok := Successful(topics, results);
            && |parts| == |ok|
            && forall j :: 0 <= j < |ok| ==> ok[j] in results && parts[j] == Section(ok[j], results[ok[j]].synthesis)
    decreases |topics|
  {
    if |topics| > 0 {
      PartsOfSuccessful(topics[..|topics| - 1], results);
    }
  }

  /** `_create_collaborative_synthesis` as a value: the agent's answer to a
      task built from the successful sections joined by newlines, or the
      error it raised. */
  function CollaborativeSynthesis(w: Workflow, results: OrderedMap<string, ResearchReport>): Result<string> {
    var combined := Join(SynthesisParts(results.keys, results.items), "\n");
    match w.agent(NewState(Some(w.texts.collaborative(combined)), Empty(), Empty()))
    case Err(e) => Err(e)
    case Ok(s) => Ok(OutputOr(s, "Synthesis not available"))
  }

  /** `_create_collaborative_synthesis`. */
  method CreateCollaborativeSynthesis(w: Workflow, results: OrderedMap<string, ResearchReport>) returns (r: Result<string>)
    ensures r == CollaborativeSynthesis(w, results)
  {
    var parts: seq<string> := [];
    for i := 0 to |results.keys|
      invariant parts == SynthesisParts(results.keys[..i], results.items)
    {
      var topic := results.keys[i];
      assert results.keys[..i + 1][..i] == results.keys[..i];
      if topic in results.items && results.items[topic].Completed? {
        parts := parts + [Section(topic, results.items[topic].synthesis)];
      }
    }
    assert results.keys[..|results.keys|] == results.keys;
    var combined := Join(parts, "\n");
    var temp := new AgentState(Some(w.texts.collaborative(combined)), Empty(), Empty());
    var out := w.agent(temp.Value());
    if out.Err? {
      return Err(out.error);
    }
    return Ok(OutputOr(out.value, "Synthesis not available"));
  }

  /** What `run_collaborative_research` returns. */
  datatype CollaborativeReport = CollaborativeReport(
    success: bool,
    researchTopics: seq<string>,
    individualResults: OrderedMap<string, ResearchReport>,
    collaborativeSynthesis: string,
    totalTopics: int)

  /** `run_collaborative_research` as a value. Only the final synthesis can
      raise; a failing topic is recorded in its result. */
  function CollaborativeResearch(w: Workflow, topics: seq<string>): Result<CollaborativeReport> {
    var p := Collected(RunOf(w), topics, |topics|);
    match CollaborativeSynthesis(w, p.results)
    case Err(e) => Err(e)
    case Ok(synthesis) => Ok(CollaborativeReport(true, topics, p.results, synthesis, |topics|))
  }

  /** `run_collaborative_research`: each topic is run on a copy of the
      context so far, and a successful run hands its synthesis on. */
  method RunCollaborativeResearch(w: Workflow, topics: seq<string>) returns (r: Result<CollaborativeReport>)
    ensures r == CollaborativeResearch(w, topics)
  {
    var results: OrderedMap<string, ResearchReport> := Empty();
    var combined: Dict := Empty();
    for i := 0 to |topics|
      invariant Progress(results, combined) == Collected(RunOf(w), topics, i)
    {
      var result := Run(w, topics[i], combined);
      results := results.Put(topics[i], result);
      if result.Completed? {
        combined := combined.Put(PreviousKey(i), result.synthesis);
      }
    }
    var synthesis := CreateCollaborativeSynthesis(w, results);
    if synthesis.Err? {
      return Err(synthesis.error);
    }
    return Ok(CollaborativeReport(true, topics, results, synthesis.value, |topics|));
  }

  /** A collaborative report counts every topic and has one result per
      distinct topic, in order of first appearance. */
  lemma CollaborativeShape(w: Workflow, topics: seq<string>)
    requires CollaborativeResearch(w, topics).Ok?
    ensures var rep := CollaborativeResearch(w, topics).value;
            && rep.success && rep.totalTopics == |topics| && rep.researchTopics == topics
            && rep.individualResults.keys == FirstOccurrences(topics)
            && (forall t :: t in topics ==> t in rep.individualResults.items)
            && (forall t :: t in rep.individualResults.items ==> rep.individualResults.items[t].researchTopic == t)
  {
    RunOfNamesTopic(w);
    ResultsCoverTopics(RunOf(w), topics, |topics|);
    ResultsNameTopics(RunOf(w), topics, |topics|);
    PrefixFull(topics);
  }
}
