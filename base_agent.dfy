/** The state agents pass to each other (`AgentState`) and the behaviour
    every agent shares (`BaseAgent`): its tool list, its system message, the
    message list it sends to the language model, and its printed forms.
    The language model itself is not part of this model. */
module Agents {
  import opened Wrappers
  import opened Text
  import opened OrderedMaps

  /** A chat message, by kind. */
  datatype Message = SystemMessage(content: string) | HumanMessage(content: string) | AiMessage(content: string)

  /** A value stored in the `context` or `metadata` dictionaries: text, an
      integer or a flag. */
  datatype Data = Text(text: string) | Number(number: int) | Flag(flag: bool) {

    /** `str(v)`, as an f-string shows it. */
    function Show(): string {
      match this
      case Text(s) => s
      case Number(n) => IntToString(n)
      case Flag(b) => if b then "True" else "False"
    }

    /** `repr(v)`, as it appears inside a printed dictionary. */
    function Repr(): string {
      match this
      case Text(s) => "'" + s + "'"
      case _ => Show()
    }

    /** Python truthiness. */
    predicate Truthy() {
      match this
      case Text(s) => s != ""
      case Number(n) => n != 0
      case Flag(b) => b
    }
  }

  type Dict = OrderedMap<string, Data>

  /** `d.get(k, default)`. */
  function Get(d: Dict, k: string, default: Data): (r: Data)
    ensures k in d.items ==> r == d.items[k]
    ensures k !in d.items ==> r == default
  {
    if k in d.items then d.items[k] else default
  }

  /** The entries of `d` from index `i` on, as `'key': value` items. */
  function Items(d: Dict, i: nat): seq<string>
    requires i <= |d.keys|
    decreases |d.keys| - i
  {
    if i == |d.keys| then []
    else
      var k := d.keys[i];
      var v := if k in d.items then d.items[k].Repr() else "";
      ["'" + k + "': " + v] + Items(d, i + 1)
  }

  /** `str(d)` of a dictionary: its items in insertion order between braces. */
  function DictRepr(d: Dict): (r: string)
    ensures |r| >= 2 && r[0] == '{' && r[|r| - 1] == '}'
  {
    "{" + Join(Items(d, 0), ", ") + "}"
  }

  /** The value of an `AgentState`. The agents' outputs are the text each
      agent produced, by agent name. */
  datatype StateValue = StateValue(
    messages: seq<Message>,
    currentTask: Option<string>,
    context: Dict,
    agentOutputs: OrderedMap<string, string>,
    metadata: Dict
  )

  /** `AgentState(current_task=…, context=…, metadata=…)`; the keywords
      left out take their defaults (`None`, `{}`). */
  function NewState(task: Option<string>, context: Dict, metadata: Dict): (s: StateValue)
    ensures s.messages == [] && s.agentOutputs.keys == [] && s.agentOutputs.items == map[]
    ensures s.currentTask == task && s.context == context && s.metadata == metadata
  {
    StateValue([], task, context, Empty(), metadata)
  }

  /** `f"{state.current_task}"`: Python prints a missing task as `None`. */
  function TaskText(task: Option<string>): string {
    if task.Some? then task.value else "None"
  }

  /** `if state.current_task:` — a task is given and is not empty. */
  predicate HasTask(task: Option<string>) {
    task.Some? && task.value != ""
  }

  /** The state object the agents and workflow steps update in place. */
  class AgentState {
    var messages: seq<Message>
    var currentTask: Option<string>
    var context: Dict
    var agentOutputs: OrderedMap<string, string>
    var metadata: Dict

    function Value(): StateValue
      reads this
    {
      StateValue(messages, currentTask, context, agentOutputs, metadata)
    }

    /** `AgentState(current_task=…, context=…, metadata=…)`: no messages
        and no agent outputs yet. */
    constructor (task: Option<string>, context: Dict, metadata: Dict)
      ensures Value() == NewState(task, context, metadata)
      ensures messages == [] && agentOutputs.keys == [] && agentOutputs.items == map[]
    {
      messages := [];
      currentTask := task;
      this.context := context;
      agentOutputs := Empty();
      this.metadata := metadata;
    }

    /** Take on the value an agent's `process` returned. */
    method Load(v: StateValue)
      modifies this
      ensures Value() == v
    {
      messages, currentTask, context, agentOutputs, metadata :=
        v.messages, v.currentTask, v.context, v.agentOutputs, v.metadata;
    }
  }

  /** What every agent has: a name, a role, its class name, a system prompt
      and a list of tools (named by their class). */
  class BaseAgent {
    const name: string
    const role: string
    const className: string
    const systemPrompt: string
    var tools: seq<string>

    constructor (name: string, role: string, className: string, systemPrompt: string)
      ensures this.name == name && this.role == role && this.className == className
      ensures this.systemPrompt == systemPrompt && tools == []
    {
      this.name := name;
      this.role := role;
      this.className := className;
      this.systemPrompt := systemPrompt;
      tools := [];
    }

    /** `add_tool`: one more tool at the end. */
    method AddTool(tool: string)
      modifies this`tools
      ensures |tools| == |old(tools)| + 1 && tools[..|old(tools)|] == old(tools) && tools[|old(tools)|] == tool
    {
      tools := tools + [tool];
    }

    /** `get_system_message`. */
    function GetSystemMessage(): (m: Message)
      ensures m.SystemMessage? && m.content == systemPrompt
    {
      SystemMessage(systemPrompt)
    }

    /** `prepare_messages`: the system message, then the context message
        when the context is not empty, then the task message when there is a
        task, then the state's own messages in order. The state is not
        changed. */
    method PrepareMessages(state: AgentState) returns (msgs: seq<Message>)
      ensures var extra := (if state.context.keys != [] then 1 else 0) + (if HasTask(state.currentTask) then 1 else 0);
              && |msgs| == 1 + extra + |state.messages|
              && msgs[0] == GetSystemMessage()
              && (state.context.keys != [] ==>
                    msgs[1] == HumanMessage("Context from previous agents: " + DictRepr(state.context)))
              && (HasTask(state.currentTask) ==> msgs[extra] == HumanMessage("Task: " + state.currentTask.value))
              && msgs[1 + extra..] == state.messages
    {
      msgs := [GetSystemMessage()];
      if state.context.keys != [] {
        msgs := msgs + [HumanMessage("Context from previous agents: " + DictRepr(state.context))];
      }
      if HasTask(state.currentTask) {
        msgs := msgs + [HumanMessage("Task: " + state.currentTask.value)];
      }
      msgs := msgs + state.messages;
    }

    /** `str(agent)`: the name, then the role in parentheses. */
    function Str(): (r: string)
      ensures |r| == |name| + |role| + 3
      ensures r[..|name|] == name && r[|name|..|name| + 2] == " (" && r[|name| + 2..|r| - 1] == role && r[|r| - 1] == ')'
    {
      name + " (" + role + ")"
    }

    /** `repr(agent)`: the class name and the name in angle brackets. */
    function Repr(): (r: string)
      ensures |r| == |className| + |name| + 4
      ensures r[0] == '<' && r[1..|className| + 1] == className && r[|className| + 1..|className| + 3] == ": "
      ensures r[|className| + 3..|r| - 1] == name && r[|r| - 1] == '>'
    {
      "<" + className + ": " + name + ">"
    }
  }
}
