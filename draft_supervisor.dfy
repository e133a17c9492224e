/** The draft supervisor of xyz.py: the same scheduler as the keyword
    supervisor, but the plan, the hand-off note and the closing text come
    from a language model, and a query the model finds no task in counts as
    a casual turn. The model's replies are parameters; only what the code
    does with them is modelled: fence stripping, classification of the
    parsed reply, and the state changes of `supervisor_node`. */
module DraftSupervisor {
  import opened Wrappers
  import opened PyText
  import opened Json
  import opened States
  import opened Scheduler
  import opened Supervisor

  /** The reply cleaning in `decompose_query_with_llm`: strip, drop a
      leading "```json", then a leading "```", then a trailing "```", and
      strip again. */
  function StripFences(raw: string): (r: string)
    ensures Stripped(r)
  {
    var a := Strip(raw);
    var b := if StartsWith(a, "```json") then a[7..] else a;
    var c := if StartsWith(b, "```") then b[3..] else b;
    var d := if EndsWith(c, "```") then c[..|c| - 3] else c;
    StripIsStripped(d);
    Strip(d)
  }

  /** A JSON array or object: what the model is asked to send. */
  predicate JsonPayload(body: string) {
    Stripped(body) && body != [] && (body[0] == '[' || body[0] == '{')
  }

  /** The common tail of both fence lemmas: once the opening fence is gone,
      the closing fence and the whitespace inside the block are removed. */
  lemma ClosingFence(v1: string, body: string, v2: string)
    requires AllSpace(v1) && AllSpace(v2) && JsonPayload(body)
    ensures var c := v1 + body + v2 + "```";
      !StartsWith(c, "```") && EndsWith(c, "```") && Strip(c[..|c| - 3]) == body
  {
    var c := v1 + body + v2 + "```";
    assert c[0] == (if v1 == [] then body[0] else v1[0]);
    assert c[..|c| - 3] == v1 + body + v2;
    StripAround(v1, body, v2);
  }

  /** A payload fenced as a "```json" block, with any whitespace around the
      block and inside it, comes out exactly as it went in. */
  lemma FencedJsonPayload(w1: string, v1: string, body: string, v2: string, w2: string)
    requires AllSpace(w1) && AllSpace(v1) && AllSpace(v2) && AllSpace(w2) && JsonPayload(body)
    ensures StripFences(w1 + "```json" + v1 + body + v2 + "```" + w2) == body
  {
    var fenced := "```json" + v1 + body + v2 + "```";
    assert w1 + "```json" + v1 + body + v2 + "```" + w2 == w1 + fenced + w2;
    assert Stripped(fenced);
    StripAround(w1, fenced, w2);
    assert fenced[..7] == "```json";
    assert fenced[7..] == v1 + body + v2 + "```";
    ClosingFence(v1, body, v2);
  }

  /** So does a payload fenced with a bare "```". */
  lemma FencedPlainPayload(w1: string, v1: string, body: string, v2: string, w2: string)
    requires AllSpace(w1) && AllSpace(v1) && AllSpace(v2) && AllSpace(w2) && JsonPayload(body)
    ensures StripFences(w1 + "```" + v1 + body + v2 + "```" + w2) == body
  {
    var fenced := "```" + v1 + body + v2 + "```";
    assert w1 + "```" + v1 + body + v2 + "```" + w2 == w1 + fenced + w2;
    assert Stripped(fenced);
    StripAround(w1, fenced, w2);
    assert fenced[3] == (if v1 == [] then body[0] else v1[0]);
    assert !StartsWith(fenced, "```json") by {
      if |fenced| >= 7 {
        assert fenced[..7][3] == fenced[3];
      }
    }
    assert fenced[..3] == "```";
    assert fenced[3..] == v1 + body + v2 + "```";
    ClosingFence(v1, body, v2);
  }

  /** A reply without fences passes through unchanged. */
  lemma UnfencedPayload(body: string)
    requires Stripped(body) && !StartsWith(body, "```") && !EndsWith(body, "```")
    ensures StripFences(body) == body
  {
    StripOfStripped(body);
    assert !StartsWith(body, "```json") by {
      if |body| >= 7 {
        assert body[..7][..3] == body[..3];
      }
    }
  }

  /** What `decompose_query_with_llm` returns: the subtasks, and the
      model's own message for a query it found nothing to do in. */
  datatype Decomposition = Decomposition(tasks: seq<SubTask>, message: Option<Json>)

  /** `task_data.get("dependencies", [])`, when it is a list of strings. */
  function DependencyIds(items: seq<Json>): (r: Option<seq<string>>)
    ensures r.Some? ==> |r.value| == |items| && forall k :: 0 <= k < |items| ==> items[k] == JStr(r.value[k])
    ensures r.None? ==> exists k :: 0 <= k < |items| && !items[k].JStr?
  {
    if items == [] then Some([])
    else if !items[0].JStr? then None
    else match DependencyIds(items[1..])
      case None => None
      case Some(rest) => Some([items[0].s] + rest)
  }

  /** `task_data.get("priority", 1)`, when it is an integer (a boolean is
      one in Python). */
  function PriorityOf(m: map<string, Json>): Option<int> {
    if "priority" !in m then Some(1)
    else match m["priority"]
      case JInt(i) => Some(i)
      case JBool(b) => Some(if b then 1 else 0)
      case _ => None
  }

  /** One entry of the model's task list as a SubTask: it must be a dict
      with string "task_id", "description" and "agent"; the task starts
      PENDING without a result. */
  function TaskFromJson(j: Json): (r: Option<SubTask>)
    ensures r.Some? ==>
      j.JObj? && "task_id" in j.fields && j.fields["task_id"] == JStr(r.value.taskId)
      && "description" in j.fields && j.fields["description"] == JStr(r.value.description)
      && "agent" in j.fields && j.fields["agent"] == JStr(r.value.agent)
      && r.value.status == Pending && r.value.result == None
      && (("dependencies" !in j.fields) ==> r.value.dependencies == [])
      && (("priority" !in j.fields) ==> r.value.priority == 1)
  {
    if !j.JObj? then None
    else
      var m := j.fields;
      if "task_id" !in m || "description" !in m || "agent" !in m then None
      else if !m["task_id"].JStr? || !m["description"].JStr? || !m["agent"].JStr? then None
      else
        var deps := if "dependencies" in m then (if m["dependencies"].JArr? then DependencyIds(m["dependencies"].items) else None) else Some([]);
        var priority := PriorityOf(m);
        if deps.None? || priority.None? then None
        else Some(SubTask(m["task_id"].s, m["description"].s, m["agent"].s, Pending, None, deps.value, priority.value))
  }

  /** The whole list, or `None` when any entry is malformed (the first bad
      entry raises and the caller returns no tasks). */
  function TasksFromJson(items: seq<Json>): (r: Option<seq<SubTask>>)
    ensures r.Some? ==> |r.value| == |items|
    ensures r.Some? ==> forall k :: 0 <= k < |items| ==> TaskFromJson(items[k]) == Some(r.value[k])
    ensures r.None? ==> exists k :: 0 <= k < |items| && TaskFromJson(items[k]).None?
  {
    if items == [] then Some([])
    else match TaskFromJson(items[0])
      case None => None
      case Some(t) =>
        match TasksFromJson(items[1..])
        case None => None
        case Some(rest) => Some([t] + rest)
  }

  /** The loop that builds the subtask list, entry by entry. */
  method BuildSubtasks(items: seq<Json>) returns (r: Option<seq<SubTask>>)
    ensures r == TasksFromJson(items)
  {
    var tasks: seq<SubTask> := [];
    var k := 0;
    while k < |items|
      invariant k <= |items| && |tasks| == k
      invariant forall j :: 0 <= j < k ==> TaskFromJson(items[j]) == Some(tasks[j])
    {
      var t := TaskFromJson(items[k]);
      if t.None? {
        return None;
      }
      tasks := tasks + [t.value];
      k := k + 1;
    }
    var all := TasksFromJson(items);
    assert all.Some? && all.value == tasks by {
      if all.Some? {
        assert forall j :: 0 <= j < k ==> Some(all.value[j]) == Some(tasks[j]);
      }
    }
    r := Some(tasks);
  }

  /** The classification of the parsed reply (`None` when it does not
      parse): a dict with "response" is the model's message with no tasks,
      a non-empty list of well-formed entries is the task list, and
      anything else means no tasks and no message. */
  function Classify(data: Option<Json>): (d: Decomposition)
    ensures d.message.Some? <==> data.Some? && data.value.JObj? && "response" in data.value.fields
    ensures d.message.Some? ==> d.tasks == [] && d.message.value == data.value.fields["response"]
    ensures d.tasks != [] <==>
      data.Some? && data.value.JArr? && data.value.items != [] && TasksFromJson(data.value.items).Some?
    ensures d.tasks != [] ==> Some(d.tasks) == TasksFromJson(data.value.items)
  {
    match data
    case None => Decomposition([], None)
    case Some(JObj(m)) => if "response" in m then Decomposition([], Some(m["response"])) else Decomposition([], None)
    case Some(JArr(items)) =>
      if items == [] then Decomposition([], None)
      else
        (match TasksFromJson(items)
         case None => Decomposition([], None)
         case Some(ts) => Decomposition(ts, None))
    case Some(_) => Decomposition([], None)
  }

  /** The tasks of a decomposition all start PENDING without a result. */
  lemma DecomposedTasksPending(data: Option<Json>, k: nat)
    requires k < |Classify(data).tasks|
    ensures Classify(data).tasks[k].status == Pending && Classify(data).tasks[k].result == None
  {
    var items := data.value.items;
    assert TaskFromJson(items[k]) == Some(Classify(data).tasks[k]);
  }

  /** `decompose_query_with_llm` on the model's reply (`None` when the reply
      has no text, where `.strip()` raises), with `parse` standing for
      `json.loads`. */
  method DecomposeQueryWithLlm(reply: Option<string>, parse: string -> Option<Json>) returns (d: Decomposition)
    ensures reply.None? ==> d == Decomposition([], None)
    ensures reply.Some? ==> d == Classify(parse(StripFences(reply.value)))
  {
    if reply.None? {
      return Decomposition([], None);
    }
    var cleaned := StripFences(reply.value);
    var data := parse(cleaned);
    match data {
      case Some(JArr(items)) =>
        if items == [] {
          d := Decomposition([], None);
        } else {
          var tasks := BuildSubtasks(items);
          d := if tasks.Some? then Decomposition(tasks.value, None) else Decomposition([], None);
        }
      case _ =>
        d := Classify(data);
    }
  }

  /** The texts the model contributes to one supervisor step. The
      generators fall back to fixed texts on errors, so each is just some
      string here; `finalPrompt` depends on the casual-turn count. */
  datatype DraftReplies = DraftReplies(
    decomposition: Option<string>,
    welcome: string,
    helpful: string,
    finalPrompt: nat -> string,
    routing: string,
    closing: string)

  const NotConfigured := "Error: System not properly configured."

  /** The reply to a casual turn: the model's own message when it sent a
      truthy one, otherwise the text for this turn: welcome on the first,
      a more helpful prompt on the second, the final prompt from the third
      on. A message that is not text cannot become an AIMessage (`None`). */
  function CasualReply(message: Option<Json>, turn: nat, replies: DraftReplies): (r: Option<string>)
    requires turn >= 1
    ensures message.Some? && Truthy(message.value) ==>
      (r.Some? <==> message.value.JStr?) && (r.Some? ==> r.value == message.value.s)
    ensures !(message.Some? && Truthy(message.value)) ==>
      r == Some(if turn == 1 then replies.welcome else if turn == 2 then replies.helpful else replies.finalPrompt(turn))
  {
    if message.Some? && Truthy(message.value) then
      (if message.value.JStr? then Some(message.value.s) else None)
    else if turn == 1 then Some(replies.welcome)
    else if turn == 2 then Some(replies.helpful)
    else Some(replies.finalPrompt(turn))
  }

  /** How the draft supervisor step ended. */
  datatype DraftStep =
    | NoClient         // no model configured
    | Casual           // nothing to do: a casual reply was posted
    | Scheduled        // the plan exists; a task was handed out or the run finished
    | BadMessage       // the model's message could not be posted

  /** The casual branch: one more casual turn, the reply posted, and the
      run finished with that reply while waiting for a real query. */
  method CasualTurn(s: AgentState, message: Option<Json>, replies: DraftReplies) returns (ok: bool)
    modifies s`casualTurnCount, s`messages, s`allTasksCompleted, s`nextAgent, s`finalResponse, s`awaitingRealQuery
    ensures s.casualTurnCount == old(s.casualTurnCount) + 1
    ensures ok <==> CasualReply(message, s.casualTurnCount, replies).Some?
    ensures ok ==>
      var reply := CasualReply(message, s.casualTurnCount, replies).value;
      s.messages == old(s.messages) + [AIMessage(reply)]
      && s.allTasksCompleted && s.nextAgent == "finish" && s.finalResponse == Some(reply) && s.awaitingRealQuery
    ensures !ok ==>
      s.messages == old(s.messages) && s.allTasksCompleted == old(s.allTasksCompleted)
      && s.nextAgent == old(s.nextAgent) && s.finalResponse == old(s.finalResponse)
      && s.awaitingRealQuery == old(s.awaitingRealQuery)
  {
    s.casualTurnCount := s.casualTurnCount + 1;
    var reply := CasualReply(message, s.casualTurnCount, replies);
    if reply.None? {
      return false;
    }
    s.messages := s.messages + [AIMessage(reply.value)];
    s.allTasksCompleted := true;
    s.nextAgent := "finish";
    s.finalResponse := reply;
    s.awaitingRealQuery := true;
    ok := true;
  }

  /** The subtasks the draft step schedules from: its current list, or the
      model's plan when that list is empty. */
  function DraftPlan(subtasks: seq<SubTask>, replies: DraftReplies, parse: string -> Option<Json>): seq<SubTask> {
    if subtasks != [] then subtasks else DraftDecomposition(replies, parse).tasks
  }

  /** The decomposition the draft step makes when its list is empty. */
  function DraftDecomposition(replies: DraftReplies, parse: string -> Option<Json>): Decomposition {
    if replies.decomposition.None? then Decomposition([], None)
    else Classify(parse(StripFences(replies.decomposition.value)))
  }

  /** The scheduling half of the draft step, on a non-empty list. */
  method DraftSchedule(s: AgentState, replies: DraftReplies)
    requires s.Valid()
    modifies s`subtasks, s`currentTask, s`nextAgent, s`messages, s`allTasksCompleted, s`finalResponse
    ensures s.Valid()
    ensures match NextReady(old(s.subtasks))
      case None =>
        s.subtasks == old(s.subtasks) && s.allTasksCompleted && s.nextAgent == "finish"
        && s.finalResponse == Some(replies.closing)
        && s.currentTask == old(s.currentTask) && s.messages == old(s.messages)
      case Some(i) =>
        s.subtasks == SetStatusById(old(s.subtasks), old(s.subtasks)[i].taskId, InProgress)
        && s.currentTask == Some(i) && s.nextAgent == old(s.subtasks)[i].agent
        && s.messages == old(s.messages) + [AIMessage(replies.routing)]
        && s.allTasksCompleted == old(s.allTasksCompleted) && s.finalResponse == old(s.finalResponse)
  {
    var next := GetNextTask(s.subtasks);
    if next == None {
      FinishRun(s, replies.closing);
    } else {
      HandOff(s, next.value, replies.routing);
    }
  }

  /** The planning branch of the draft step, taken while there are no
      subtasks: a non-empty plan replaces the empty list and resets the
      casual state; an empty one makes this a casual turn. */
  method PlanOrChat(s: AgentState, replies: DraftReplies, parse: string -> Option<Json>) returns (planned: bool, ok: bool)
    requires s.Valid() && s.subtasks == []
    modifies s`subtasks, s`casualTurnCount, s`awaitingRealQuery,
      s`messages, s`allTasksCompleted, s`nextAgent, s`finalResponse
    ensures planned <==> DraftDecomposition(replies, parse).tasks != []
    ensures planned ==>
      s.subtasks == DraftDecomposition(replies, parse).tasks
      && s.casualTurnCount == 0 && !s.awaitingRealQuery && s.messages == old(s.messages)
      && s.allTasksCompleted == old(s.allTasksCompleted) && s.nextAgent == old(s.nextAgent)
      && s.finalResponse == old(s.finalResponse)
    ensures !planned ==> s.subtasks == [] && s.casualTurnCount == old(s.casualTurnCount) + 1
    ensures !planned ==> (ok <==> CasualReply(DraftDecomposition(replies, parse).message, s.casualTurnCount, replies).Some?)
    ensures !planned && !ok ==>
      s.messages == old(s.messages) && s.allTasksCompleted == old(s.allTasksCompleted)
      && s.nextAgent == old(s.nextAgent) && s.finalResponse == old(s.finalResponse)
      && s.awaitingRealQuery == old(s.awaitingRealQuery)
    ensures !planned && ok ==>
      var reply := CasualReply(DraftDecomposition(replies, parse).message, s.casualTurnCount, replies).value;
      s.messages == old(s.messages) + [AIMessage(reply)]
      && s.allTasksCompleted && s.nextAgent == "finish" && s.finalResponse == Some(reply) && s.awaitingRealQuery
  {
    var d := DecomposeQueryWithLlm(replies.decomposition, parse);
    if d.tasks == [] {
      ok := CasualTurn(s, d.message, replies);
      return false, ok;
    }
    s.casualTurnCount := 0;
    s.awaitingRealQuery := false;
    s.subtasks := d.tasks;
    planned, ok := true, true;
  }

  /** `supervisor_node` of xyz.py once a model client is configured. With
      no subtasks yet the model plans: an empty plan is a casual turn, a
      non-empty one resets the casual state and becomes the subtask list.
      Then, as in the keyword supervisor, the next ready task is handed out
      or the run finishes. */
  method DraftWithClient(s: AgentState, replies: DraftReplies, parse: string -> Option<Json>) returns (step: DraftStep)
    requires s.Valid() && s.hasLlmClient
    modifies s`subtasks, s`currentTask, s`nextAgent, s`messages, s`allTasksCompleted, s`finalResponse,
      s`casualTurnCount, s`awaitingRealQuery
    ensures s.Valid() && step != NoClient
    ensures step != Scheduled <==> old(s.subtasks) == [] && DraftDecomposition(replies, parse).tasks == []
    ensures step != Scheduled ==>
      s.casualTurnCount == old(s.casualTurnCount) + 1 && s.subtasks == [] && s.currentTask == old(s.currentTask)
      && (step == Casual <==> CasualReply(DraftDecomposition(replies, parse).message, s.casualTurnCount, replies).Some?)
    ensures step == Casual ==>
      var reply := CasualReply(DraftDecomposition(replies, parse).message, s.casualTurnCount, replies).value;
      s.messages == old(s.messages) + [AIMessage(reply)]
      && s.allTasksCompleted && s.nextAgent == "finish" && s.finalResponse == Some(reply) && s.awaitingRealQuery
    ensures step == BadMessage ==>
      s.messages == old(s.messages) && s.allTasksCompleted == old(s.allTasksCompleted)
      && s.nextAgent == old(s.nextAgent) && s.finalResponse == old(s.finalResponse)
      && s.awaitingRealQuery == old(s.awaitingRealQuery)
    ensures step == Scheduled ==>
      if old(s.subtasks) == [] then s.casualTurnCount == 0 && !s.awaitingRealQuery
      else s.casualTurnCount == old(s.casualTurnCount) && s.awaitingRealQuery == old(s.awaitingRealQuery)
    ensures step == Scheduled ==>
      var plan := DraftPlan(old(s.subtasks), replies, parse);
      match NextReady(plan)
      case None =>
        s.subtasks == plan && s.allTasksCompleted && s.nextAgent == "finish"
        && s.finalResponse == Some(replies.closing) && s.messages == old(s.messages)
        && s.currentTask == old(s.currentTask)
      case Some(i) =>
        s.subtasks == SetStatusById(plan, plan[i].taskId, InProgress)
        && s.currentTask == Some(i) && s.nextAgent == plan[i].agent
        && s.messages == old(s.messages) + [AIMessage(replies.routing)]
        && s.allTasksCompleted == old(s.allTasksCompleted) && s.finalResponse == old(s.finalResponse)
  {
    if s.subtasks == [] {
      var planned, ok := PlanOrChat(s, replies, parse);
      if !planned {
        return if ok then Casual else BadMessage;
      }
    }
    DraftSchedule(s, replies);
    step := Scheduled;
  }

  /** `supervisor_node` of xyz.py: without a model client the run finishes
      at once with a fixed error; otherwise the step above. */
  method DraftSupervisorNode(s: AgentState, replies: DraftReplies, parse: string -> Option<Json>) returns (step: DraftStep)
    requires s.Valid()
    modifies s`subtasks, s`currentTask, s`nextAgent, s`messages, s`allTasksCompleted, s`finalResponse,
      s`casualTurnCount, s`awaitingRealQuery
    ensures s.Valid()
    ensures step == NoClient <==> !s.hasLlmClient
    ensures step == NoClient ==>
      s.allTasksCompleted && s.nextAgent == "finish" && s.finalResponse == Some(NotConfigured)
      && s.subtasks == old(s.subtasks) && s.messages == old(s.messages) && s.currentTask == old(s.currentTask)
      && s.casualTurnCount == old(s.casualTurnCount) && s.awaitingRealQuery == old(s.awaitingRealQuery)
    ensures step != NoClient && step != Scheduled ==>
      old(s.subtasks) == [] && DraftDecomposition(replies, parse).tasks == []
      && s.casualTurnCount == old(s.casualTurnCount) + 1 && s.subtasks == [] && s.currentTask == old(s.currentTask)
      && (step == Casual <==> CasualReply(DraftDecomposition(replies, parse).message, s.casualTurnCount, replies).Some?)
    ensures step == Casual ==>
      var reply := CasualReply(DraftDecomposition(replies, parse).message, s.casualTurnCount, replies).value;
      s.messages == old(s.messages) + [AIMessage(reply)]
      && s.allTasksCompleted && s.nextAgent == "finish" && s.finalResponse == Some(reply) && s.awaitingRealQuery
    ensures step == BadMessage ==>
      s.messages == old(s.messages) && s.allTasksCompleted == old(s.allTasksCompleted)
      && s.nextAgent == old(s.nextAgent) && s.finalResponse == old(s.finalResponse)
      && s.awaitingRealQuery == old(s.awaitingRealQuery)
    ensures step == Scheduled ==>
      var plan := DraftPlan(old(s.subtasks), replies, parse);
      match NextReady(plan)
      case None =>
        s.subtasks == plan && s.allTasksCompleted && s.nextAgent == "finish"
        && s.finalResponse == Some(replies.closing) && s.messages == old(s.messages)
        && s.currentTask == old(s.currentTask)
      case Some(i) =>
        s.subtasks == SetStatusById(plan, plan[i].taskId, InProgress)
        && s.currentTask == Some(i) && s.nextAgent == plan[i].agent
        && s.messages == old(s.messages) + [AIMessage(replies.routing)]
        && s.allTasksCompleted == old(s.allTasksCompleted) && s.finalResponse == old(s.finalResponse)
  {
    if !s.hasLlmClient {
      FinishRun(s, NotConfigured);
      return NoClient;
    }
    step := DraftWithClient(s, replies, parse);
  }
}
