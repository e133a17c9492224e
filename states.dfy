/** The records and enums shared by every node (ai_processing/states.py), and
    the graph state that every node updates in place. */
module States {
  import opened Wrappers
  import opened Json

  /** TaskStatus is a `str` enum, so the source's raw strings ("completed",
      "in_progress") are the same values. */
  datatype TaskStatus = Pending | InProgress | Completed | Blocked | Failed

  /** The agent names of AgentType. */
  datatype AgentType =
    | SupervisorAgent | Troubleshoot | Billing | Warranty | Returns
    | Account | TechnicalSpecs | Feedback
  {
    function Name(): string {
      match this
      case SupervisorAgent => "supervisor"
      case Troubleshoot => "troubleshoot"
      case Billing => "billing"
      case Warranty => "warranty"
      case Returns => "returns"
      case Account => "account"
      case TechnicalSpecs => "technical_specs"
      case Feedback => "feedback"
    }
  }

  /** The four agents the graphs can route to. */
  predicate IsWorkerName(name: string) {
    name == "troubleshoot" || name == "billing" || name == "warranty" || name == "returns"
  }

  datatype SubTask = SubTask(
    taskId: string,
    description: string,
    agent: string,
    status: TaskStatus,
    result: Option<string>,
    dependencies: seq<string>,
    priority: int)

  /** The LangChain message objects kept in `state["messages"]`. */
  datatype ChatMessage =
    | HumanMessage(content: string)
    | AIMessage(content: string)
    | SystemMessage(content: string)
    | ToolMessage(content: string, toolCallId: string)
    | OtherMessage(content: string)

  /** `agent_context`: a dict shared by the workers, which the tool-using
      agent replaces by the text its retriever returns. */
  datatype Context = Entries(values: map<string, Json>) | Retrieved(text: string) {
    predicate Truthy() {
      match this
      case Entries(m) => m != map[]
      case Retrieved(t) => t != ""
    }
  }

  /** Every task with id `id` gets status `st`; the others are untouched. */
  function SetStatusById(tasks: seq<SubTask>, id: string, st: TaskStatus): (r: seq<SubTask>)
    ensures |r| == |tasks|
    ensures forall k :: 0 <= k < |r| ==>
      r[k].status == (if tasks[k].taskId == id then st else tasks[k].status)
      && r[k].taskId == tasks[k].taskId && r[k].result == tasks[k].result
      && r[k].agent == tasks[k].agent && r[k].description == tasks[k].description
      && r[k].dependencies == tasks[k].dependencies && r[k].priority == tasks[k].priority
  {
    seq(|tasks|, k requires 0 <= k < |tasks| =>
      if tasks[k].taskId == id then tasks[k].(status := st) else tasks[k])
  }

  /** Every task with id `id` becomes COMPLETED with `result`. */
  function CompleteById(tasks: seq<SubTask>, id: string, result: string): (r: seq<SubTask>)
    ensures |r| == |tasks|
    ensures forall k :: 0 <= k < |r| ==>
      (if tasks[k].taskId == id then r[k].status == Completed && r[k].result == Some(result)
       else r[k].status == tasks[k].status && r[k].result == tasks[k].result)
      && r[k].taskId == tasks[k].taskId
      && r[k].agent == tasks[k].agent && r[k].description == tasks[k].description
      && r[k].dependencies == tasks[k].dependencies && r[k].priority == tasks[k].priority
  {
    seq(|tasks|, k requires 0 <= k < |tasks| =>
      if tasks[k].taskId == id then tasks[k].(status := Completed, result := Some(result)) else tasks[k])
  }

  /** The graph state (AgentState). `currentTask` is the position in
      `subtasks` of the dict that `state["current_task"]` refers to: the
      source stores a reference to that very dict, so a write through
      `current_task` is a write to `subtasks[currentTask]`. */
  class AgentState {
    var messages: seq<ChatMessage>
    var originalQuery: string
    var subtasks: seq<SubTask>
    var currentTask: Option<nat>
    var nextAgent: string
    var needsHumanInput: bool
    var humanInputPrompt: Option<string>
    var agentContext: Context
    var allTasksCompleted: bool
    var finalResponse: Option<string>
    // Fields of the draft state in xyz.py.
    var hasLlmClient: bool
    var casualTurnCount: nat
    var awaitingRealQuery: bool

    /** `current_task`, when set, refers to one of the subtasks. */
    ghost predicate Valid()
      reads this
    {
      currentTask.Some? ==> currentTask.value < |subtasks|
    }

    /** The state `run_support_system` builds for a new query. */
    constructor (query: string, llmClient: bool)
      ensures Valid()
      ensures messages == [HumanMessage(query)] && originalQuery == query
      ensures subtasks == [] && currentTask == None && nextAgent == "supervisor"
      ensures !needsHumanInput && humanInputPrompt == None && agentContext == Entries(map[])
      ensures !allTasksCompleted && finalResponse == None
      ensures hasLlmClient == llmClient && casualTurnCount == 0 && !awaitingRealQuery
    {
      messages := [HumanMessage(query)];
      originalQuery := query;
      subtasks := [];
      currentTask := None;
      nextAgent := "supervisor";
      needsHumanInput := false;
      humanInputPrompt := None;
      agentContext := Entries(map[]);
      allTasksCompleted := false;
      finalResponse := None;
      hasLlmClient := llmClient;
      casualTurnCount := 0;
      awaitingRealQuery := false;
    }

    /** `for task in subtasks: if task["task_id"] == id: task["status"] = st`. */
    method SetStatusWhere(id: string, st: TaskStatus)
      modifies this`subtasks
      ensures subtasks == SetStatusById(old(subtasks), id, st)
    {
      var k := 0;
      while k < |subtasks|
        invariant k <= |subtasks| == |old(subtasks)|
        invariant forall j :: 0 <= j < k ==> subtasks[j] == SetStatusById(old(subtasks), id, st)[j]
        invariant forall j :: k <= j < |subtasks| ==> subtasks[j] == old(subtasks)[j]
      {
        if subtasks[k].taskId == id {
          subtasks := subtasks[k := subtasks[k].(status := st)];
        }
        k := k + 1;
      }
    }

    /** The stub workers' loop: every subtask with id `id` gets status
        COMPLETED and `result`. */
    method CompleteWhere(id: string, result: string)
      modifies this`subtasks
      ensures subtasks == CompleteById(old(subtasks), id, result)
    {
      var k := 0;
      while k < |subtasks|
        invariant k <= |subtasks| == |old(subtasks)|
        invariant forall j :: 0 <= j < k ==> subtasks[j] == CompleteById(old(subtasks), id, result)[j]
        invariant forall j :: k <= j < |subtasks| ==> subtasks[j] == old(subtasks)[j]
      {
        if subtasks[k].taskId == id {
          subtasks := subtasks[k := subtasks[k].(status := Completed, result := Some(result))];
        }
        k := k + 1;
      }
    }
  }
}
