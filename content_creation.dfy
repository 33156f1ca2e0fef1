/** The content-creation workflow: the research, writing and review agents
    run in turn on one state, a final step compiles their results, and an
    outer loop repeats whole runs until the review approves the content or
    an iteration limit is reached. Each agent's work (a language-model call
    that may raise) is a parameter. */
module ContentCreation {
  import opened Wrappers
  import opened Text
  import opened OrderedMaps
  import opened Agents

  /** An agent's `process`: the state it returns, or the error it raised. */
  type Process = StateValue -> Result<StateValue>

  /** The three agents of the graph, in the order its edges run them. */
  datatype Team = Team(research: Process, writing: Process, review: Process)

  /** The text `finalize_step` stores under `final_result`. */
  function FinalResult(v: StateValue): string {
    "\nCONTENT CREATION WORKFLOW COMPLETE\n\n=== FINAL CONTENT ===\n"
    + Get(v.context, "written_content", Text("")).Show()
    + "\n\n=== REVIEW FEEDBACK ===\n"
    + Get(v.context, "review_feedback", Text("")).Show()
    + "\n\n=== WORKFLOW METADATA ===\nTask: " + TaskText(v.currentTask)
    + "\nResearch completed: " + Get(v.metadata, "research_agent_completed", Flag(false)).Show()
    + "\nWriting completed: " + Get(v.metadata, "writing_agent_completed", Flag(false)).Show()
    + "\nReview completed: " + Get(v.metadata, "review_agent_completed", Flag(false)).Show()
    + "\n"
  }

  /** What `finalize_step` does to a state once the compiled result `text`
      is known: it goes into the context and the run is flagged as
      completed; nothing else changes. */
  function Finished(v: StateValue, text: string): (r: StateValue)
    ensures "final_result" in r.context.items && r.context.items["final_result"] == Text(text)
    ensures "workflow_completed" in r.metadata.items && r.metadata.items["workflow_completed"] == Flag(true)
    ensures r.messages == v.messages && r.currentTask == v.currentTask && r.agentOutputs == v.agentOutputs
    ensures forall k :: k != "final_result" ==>
              (k in r.context.items <==> k in v.context.items)
              && (k in v.context.items ==> r.context.items[k] == v.context.items[k])
    ensures forall k :: k != "workflow_completed" ==>
              (k in r.metadata.items <==> k in v.metadata.items)
              && (k in v.metadata.items ==> r.metadata.items[k] == v.metadata.items[k])
    ensures v.context.Valid() ==> r.context.Valid()
    ensures v.metadata.Valid() ==> r.metadata.Valid()
  {
    v.(context := v.context.Put("final_result", Text(text)),
       metadata := v.metadata.Put("workflow_completed", Flag(true)))
  }

  /** `finalize_step` on values. */
  function Finalize(v: StateValue): StateValue {
    Finished(v, FinalResult(v))
  }

  /** `finalize_step` on the shared state object. */
  method FinalizeStep(state: AgentState)
    modifies state
    ensures state.Value() == Finalize(old(state.Value()))
  {
    var text := FinalResult(state.Value());
    state.context := state.context.Put("final_result", Text(text));
    state.metadata := state.metadata.Put("workflow_completed", Flag(true));
  }

  /** The state after the research, writing and review nodes, or the first
      error one of them raised; later agents do not run after an error. */
  function Reviewed(team: Team, v: StateValue): Result<StateValue> {
    match team.research(v)
    case Err(e) => Err(e)
    case Ok(a) =>
      match team.writing(a)
      case Err(e) => Err(e)
      case Ok(b) => team.review(b)
  }

  /** What `run` returns. A failed run also carries an empty
      `partial_results`, which is left implicit. */
  datatype RunReport =
    | Succeeded(finalContent: Data, reviewFeedback: Data, researchFindings: Data,
                fullResult: Data, metadata: Dict, agentOutputs: OrderedMap<string, string>)
    | Failed(error: string)

  /** The state `run` starts from: the task, the given context (an absent
      one is empty) and the `workflow_started` flag. */
  function InitialState(task: string, initialContext: Dict): (s: StateValue)
    ensures s.currentTask == Some(task) && s.context == initialContext && s.messages == []
    ensures s.metadata.keys == ["workflow_started"] && s.metadata.items == map["workflow_started" := Flag(true)]
  {
    NewState(Some(task), initialContext, Empty<string, Data>().Put("workflow_started", Flag(true)))
  }

  /** `run`: the graph research → write → review → finalize on the initial
      state; an error anywhere becomes a failed report carrying its text. */
  function Run(team: Team, task: string, initialContext: Dict): RunReport {
    match Reviewed(team, InitialState(task, initialContext))
    case Err(e) => Failed(e)
    case Ok(w) =>
      var f := Finalize(w);
      Succeeded(Get(f.context, "written_content", Text("")), Get(f.context, "review_feedback", Text("")),
                Get(f.context, "research_findings", Text("")), Get(f.context, "final_result", Text("")),
                f.metadata, f.agentOutputs)
  }

  /** A run fails exactly when an agent raised, with that agent's error;
      otherwise it reports what the agents left in the context, the compiled
      result of the reviewed state, and metadata flagged as completed. */
  lemma RunOutcome(team: Team, task: string, initialContext: Dict)
    ensures var w := Reviewed(team, InitialState(task, initialContext));
            var r := Run(team, task, initialContext);
            && (r.Failed? <==> w.Err?)
            && (w.Err? ==> r.error == w.error)
            && (w.Ok? ==>
                  && r.finalContent == Get(w.value.context, "written_content", Text(""))
                  && r.reviewFeedback == Get(w.value.context, "review_feedback", Text(""))
                  && r.researchFindings == Get(w.value.context, "research_findings", Text(""))
                  && r.fullResult == Text(FinalResult(w.value))
                  && "workflow_completed" in r.metadata.items
                  && r.metadata.items["workflow_completed"] == Flag(true)
                  && r.agentOutputs == w.value.agentOutputs)
  {
    var w := Reviewed(team, InitialState(task, initialContext));
    if w.Ok? {
      var f := Finalize(w.value);
      assert "written_content" != "final_result";
      assert "review_feedback" != "final_result";
      assert "research_findings" != "final_result";
    }
  }

  /** What `run_with_feedback_loop` returns: always successful, with no
      improvement history. */
  datatype LoopReport = LoopReport(success: bool, iterations: int, finalContent: Data, improvementHistory: seq<Data>)

  /** The task of iteration `i`. */
  function IterationTask(i: int, task: string): (r: string)
    ensures EndsWith(r, ": " + task) && StartsWith(r, "Iteration ")
  {
    "Iteration " + IntToString(i) + ": " + task
  }

  /** The context of iteration `i`: the previous content and the iteration
      number, but only once some content exists. */
  function IterationContext(i: int, content: Data): (d: Dict)
    ensures d.Valid()
    ensures !content.Truthy() ==> d.keys == [] && d.items == map[]
    ensures content.Truthy() ==>
              && d.keys == ["previous_content", "iteration"]
              && d.items == map["previous_content" := content, "iteration" := Number(i)]
  {
    if content.Truthy() then Empty<string, Data>().Put("previous_content", content).Put("iteration", Number(i))
    else Empty()
  }

  /** The run made in iteration `i` when the current content is `content`. */
  function Attempt(team: Team, task: string, i: int, content: Data): RunReport {
    Run(team, IterationTask(i, task), IterationContext(i, content))
  }

  /** `feedback.lower()`: only text has it; any other value raises. */
  function LowerText(d: Data): (r: Result<string>)
    ensures r.Ok? <==> d.Text?
    ensures r.Ok? ==> r.value == Lower(d.text)
  {
    match d
    case Text(s) => Ok(Lower(s))
    case Number(_) => Err("'int' object has no attribute 'lower'")
    case Flag(_) => Err("'bool' object has no attribute 'lower'")
  }

  /** The review approves when its lower-cased text mentions "approved" or
      "excellent". */
  predicate Approves(feedback: string) {
    Contains(feedback, "approved") || Contains(feedback, "excellent")
  }

  /** A run after which the loop goes on: it succeeded and its review is
      text that does not approve. */
  predicate Continues(r: RunReport) {
    r.Succeeded? && LowerText(r.reviewFeedback).Ok? && !Approves(LowerText(r.reviewFeedback).value)
  }

  /** The rest of the loop once `iteration` iterations have run and the
      current content is `content`. */
  function LoopFrom(team: Team, task: string, maxIterations: int, iteration: int, content: Data): Result<LoopReport>
    decreases maxIterations - iteration
  {
    if iteration >= maxIterations then Ok(LoopReport(true, iteration, content, []))
    else
      var i := iteration + 1;
      var result := Attempt(team, task, i, content);
      if result.Failed? then Ok(LoopReport(true, i, content, []))
      else
        match LowerText(result.reviewFeedback)
        case Err(e) => Err(e)
        case Ok(feedback) =>
          if Approves(feedback) then Ok(LoopReport(true, i, result.finalContent, []))
          else LoopFrom(team, task, maxIterations, i, result.finalContent)
  }

  /** `run_with_feedback_loop` as a value: the loop from no iterations and no
      content. It fails only when a review is not text. */
  function FeedbackLoop(team: Team, task: string, maxIterations: int): Result<LoopReport> {
    LoopFrom(team, task, maxIterations, 0, Text(""))
  }

  /** `run_with_feedback_loop`. */
  method RunWithFeedbackLoop(team: Team, task: string, maxIterations: int) returns (r: Result<LoopReport>)
    ensures r == FeedbackLoop(team, task, maxIterations)
  {
    var iteration := 0;
    var current := Text("");
    while iteration < maxIterations
      invariant LoopFrom(team, task, maxIterations, iteration, current) == FeedbackLoop(team, task, maxIterations)
      decreases maxIterations - iteration
    {
      iteration := iteration + 1;
      var context: Dict := Empty();
      if current.Truthy() {
        context := context.Put("previous_content", current);
        context := context.Put("iteration", Number(iteration));
      }
      assert context == IterationContext(iteration, current);
      var result := Run(team, IterationTask(iteration, task), context);
      if result.Failed? {
        return Ok(LoopReport(true, iteration, current, []));
      }
      current := result.finalContent;
      var feedback := LowerText(result.reviewFeedback);
      if feedback.Err? {
        return Err(feedback.error);
      }
      if Approves(feedback.value) {
        return Ok(LoopReport(true, iteration, current, []));
      }
    }
    return Ok(LoopReport(true, iteration, current, []));
  }

  /** Every loop result reports success with an empty history, and ends
      after the iteration it started from and no later than the limit. */
  lemma {:induction false} LoopFromBounds(team: Team, task: string, maxIterations: int, iteration: int, content: Data)
    requires LoopFrom(team, task, maxIterations, iteration, content).Ok?
    ensures var rep := LoopFrom(team, task, maxIterations, iteration, content).value;
            && rep.success && rep.improvementHistory == []
            && (iteration >= maxIterations ==> rep.iterations == iteration)
            && (iteration < maxIterations ==> iteration < rep.iterations <= maxIterations)
    decreases maxIterations - iteration
  {
    if iteration < maxIterations {
      var i := iteration + 1;
      var result := Attempt(team, task, i, content);
      if result.Succeeded? && LowerText(result.reviewFeedback).Ok? && !Approves(LowerText(result.reviewFeedback).value) {
        LoopFromBounds(team, task, maxIterations, i, result.finalContent);
      }
    }
  }

  /** The iteration count lies between 0 and the limit, and is 0 exactly
      when the limit is not positive; the loop always reports success with
      no history. */
  lemma IterationBounds(team: Team, task: string, maxIterations: int)
    requires FeedbackLoop(team, task, maxIterations).Ok?
    ensures var rep := FeedbackLoop(team, task, maxIterations).value;
            && rep.success && rep.improvementHistory == []
            && 0 <= rep.iterations
            && (maxIterations > 0 ==> rep.iterations <= maxIterations)
            && (rep.iterations == 0 <==> maxIterations <= 0)
  {
    LoopFromBounds(team, task, maxIterations, 0, Text(""));
  }

  /** When no run ever fails or approves, the loop uses every iteration
      allowed. */
  lemma {:induction false} NeverApprovedRunsAll(team: Team, task: string, maxIterations: int, iteration: int, content: Data)
    requires forall i, c :: Continues(Attempt(team, task, i, c))
    requires iteration < maxIterations
    ensures var r := LoopFrom(team, task, maxIterations, iteration, content);
            r.Ok? && r.value.iterations == maxIterations
    decreases maxIterations - iteration
  {
    var i := iteration + 1;
    var result := Attempt(team, task, i, content);
    assert Continues(result);
    if i < maxIterations {
      NeverApprovedRunsAll(team, task, maxIterations, i, result.finalContent);
    }
  }

  /** A failing run ends the loop at once and keeps the content the previous
      successful run produced. */
  lemma FailureKeepsContent(team: Team, task: string, maxIterations: int, iteration: int, content: Data)
    requires iteration < maxIterations
    requires Attempt(team, task, iteration + 1, content).Failed?
    ensures LoopFrom(team, task, maxIterations, iteration, content) == Ok(LoopReport(true, iteration + 1, content, []))
  {
  }

  /** A run whose review approves ends the loop at once with that run's
      content. */
  lemma ApprovalStops(team: Team, task: string, maxIterations: int, iteration: int, content: Data)
    requires iteration < maxIterations
    requires var r := Attempt(team, task, iteration + 1, content);
             r.Succeeded? && r.reviewFeedback.Text? && Approves(Lower(r.reviewFeedback.text))
    ensures var r := Attempt(team, task, iteration + 1, content);
            LoopFrom(team, task, maxIterations, iteration, content) == Ok(LoopReport(true, iteration + 1, r.finalContent, []))
  {
  }
}
