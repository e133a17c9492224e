/** The four stub workers (agents/billing/billing_agent.py,
    agents/warranty/warranty_agent.py, agents/returns/return_agent.py,
    agents/troubleshoot/troubleshoot_agent.py). Each completes every subtask
    that carries the current task's id with a fixed answer, posts that answer,
    hands control back to the supervisor and clears `current_task`. */
module StubWorkers {
  import opened Wrappers
  import opened Json
  import opened PyText
  import opened States

  const BillingAnswer := "I've reviewed your billing. Your last payment of $99.99 was processed on Oct 15. No outstanding balance."
  const WarrantyAnswer := "Your product is under warranty until Dec 2025. It covers manufacturing defects."
  const ReplacementNote := " Since troubleshooting didn't resolve the issue, you may be eligible for a replacement."
  const ReturnsAnswer := "I can help you with a return. You have 30 days from purchase. I'll email you a return label."
  const TroubleshootAnswer := "I've analyzed the issue. Try these steps: 1) Restart the device, 2) Check connections, 3) Update firmware."
  const ModelQuestion := "What is the model number of your product?"

  /** The subtasks after a stub's update loop: every task with the current
      task's id is COMPLETED with `answer`. With no current task the loop
      only runs (and so only raises) when there are subtasks. */
  function CompletedCurrent(tasks: seq<SubTask>, current: Option<nat>, answer: string): seq<SubTask>
    requires current.Some? ==> current.value < |tasks|
  {
    if current.Some? then CompleteById(tasks, tasks[current.value].taskId, answer) else tasks
  }

  /** `for task in state["subtasks"]: if task["task_id"] == current_task["task_id"]: ...`.
      `raised` reports the TypeError of `None["task_id"]`, which happens on
      the first iteration when there is no current task. */
  method CompleteCurrent(s: AgentState, answer: string) returns (raised: bool)
    requires s.Valid()
    modifies s`subtasks
    ensures s.Valid()
    ensures raised <==> s.currentTask.None? && old(s.subtasks) != []
    ensures raised ==> s.subtasks == old(s.subtasks)
    ensures !raised ==> s.subtasks == CompletedCurrent(old(s.subtasks), s.currentTask, answer)
  {
    if s.currentTask.None? {
      return s.subtasks != [];
    }
    raised := false;
    s.CompleteWhere(s.subtasks[s.currentTask.value].taskId, answer);
  }

  /** The tail every stub shares: post the answer, route back to the
      supervisor (`AgentType.SUPERVISOR` is the string "supervisor") and
      clear `current_task`. */
  method ReportBack(s: AgentState, answer: string)
    modifies s`messages, s`nextAgent, s`currentTask
    ensures s.messages == old(s.messages) + [AIMessage(answer)]
    ensures s.nextAgent == "supervisor" && s.currentTask == None
  {
    s.messages := s.messages + [AIMessage(answer)];
    s.nextAgent := SupervisorAgent.Name();
    s.currentTask := None;
  }

  /** A stub that always answers `answer`: `billing_agent` and `returns_agent`. */
  method AnswerAndReturn(s: AgentState, answer: string) returns (raised: bool)
    requires s.Valid()
    modifies s`subtasks, s`messages, s`nextAgent, s`currentTask
    ensures s.Valid()
    ensures raised <==> old(s.currentTask).None? && old(s.subtasks) != []
    ensures raised ==>
      s.subtasks == old(s.subtasks) && s.messages == old(s.messages)
      && s.nextAgent == old(s.nextAgent) && s.currentTask == old(s.currentTask)
    ensures !raised ==>
      s.subtasks == CompletedCurrent(old(s.subtasks), old(s.currentTask), answer)
      && s.messages == old(s.messages) + [AIMessage(answer)]
      && s.nextAgent == "supervisor" && s.currentTask == None
  {
    raised := CompleteCurrent(s, answer);
    if !raised {
      ReportBack(s, answer);
    }
  }

  /** `billing_agent`. */
  method BillingAgent(s: AgentState) returns (raised: bool)
    requires s.Valid()
    modifies s`subtasks, s`messages, s`nextAgent, s`currentTask
    ensures s.Valid()
    ensures raised <==> old(s.currentTask).None? && old(s.subtasks) != []
    ensures raised ==>
      s.subtasks == old(s.subtasks) && s.messages == old(s.messages)
      && s.nextAgent == old(s.nextAgent) && s.currentTask == old(s.currentTask)
    ensures !raised ==>
      s.subtasks == CompletedCurrent(old(s.subtasks), old(s.currentTask), BillingAnswer)
      && s.messages == old(s.messages) + [AIMessage(BillingAnswer)]
      && s.nextAgent == "supervisor" && s.currentTask == None
  {
    raised := AnswerAndReturn(s, BillingAnswer);
  }

  /** `returns_agent`. */
  method ReturnsAgent(s: AgentState) returns (raised: bool)
    requires s.Valid()
    modifies s`subtasks, s`messages, s`nextAgent, s`currentTask
    ensures s.Valid()
    ensures raised <==> old(s.currentTask).None? && old(s.subtasks) != []
    ensures raised ==>
      s.subtasks == old(s.subtasks) && s.messages == old(s.messages)
      && s.nextAgent == old(s.nextAgent) && s.currentTask == old(s.currentTask)
    ensures !raised ==>
      s.subtasks == CompletedCurrent(old(s.subtasks), old(s.currentTask), ReturnsAnswer)
      && s.messages == old(s.messages) + [AIMessage(ReturnsAnswer)]
      && s.nextAgent == "supervisor" && s.currentTask == None
  {
    raised := AnswerAndReturn(s, ReturnsAnswer);
  }

  /** Python's `v == False`: also true of the numbers 0 and 0.0. */
  predicate EqualsFalse(v: Json) {
    v == JBool(false) || v == JInt(0) || v == JFloat(0.0)
  }

  /** `agent_context.get("issue_resolved") == False`; a missing key reads as
      `None`, which is not equal to False. */
  predicate IssueUnresolved(ctx: map<string, Json>) {
    "issue_resolved" in ctx && EqualsFalse(ctx["issue_resolved"])
  }

  /** The warranty answer: it starts with the fixed coverage statement and
      carries the replacement note exactly when troubleshooting recorded
      that the issue is unresolved. */
  function WarrantyResult(ctx: map<string, Json>): (r: string)
    ensures StartsWith(r, WarrantyAnswer)
    ensures EndsWith(r, ReplacementNote) <==> IssueUnresolved(ctx)
  {
    assert |WarrantyAnswer| < |ReplacementNote|;
    WarrantyAnswer + (if IssueUnresolved(ctx) then ReplacementNote else "")
  }

  /** `warranty_agent`. The context lookup comes first, so a context that is
      retrieved text rather than a dict (no `.get`) raises before anything
      changes. `agent_context` itself is only read. */
  method WarrantyAgent(s: AgentState) returns (raised: bool)
    requires s.Valid()
    modifies s`subtasks, s`messages, s`nextAgent, s`currentTask
    ensures s.Valid()
    ensures raised <==> old(s.agentContext).Retrieved? || (old(s.currentTask).None? && old(s.subtasks) != [])
    ensures raised ==>
      s.subtasks == old(s.subtasks) && s.messages == old(s.messages)
      && s.nextAgent == old(s.nextAgent) && s.currentTask == old(s.currentTask)
    ensures !raised ==>
      var answer := WarrantyResult(s.agentContext.values);
      s.subtasks == CompletedCurrent(old(s.subtasks), old(s.currentTask), answer)
      && s.messages == old(s.messages) + [AIMessage(answer)]
      && s.nextAgent == "supervisor" && s.currentTask == None
  {
    if s.agentContext.Retrieved? {
      return true;
    }
    var answer := WarrantyResult(s.agentContext.values);
    raised := AnswerAndReturn(s, answer);
  }

  /** `"product_model" not in state["agent_context"]`: a key test on a dict,
      a substring test on retrieved text. */
  predicate HasProductModel(ctx: Context) {
    match ctx
    case Entries(m) => "product_model" in m
    case Retrieved(t) => Contains(t, "product_model")
  }

  /** What troubleshooting records for the agents after it. */
  function TroubleshootNotes(ctx: map<string, Json>): (r: map<string, Json>)
    ensures r.Keys == ctx.Keys + {"troubleshoot_completed", "issue_resolved"}
    ensures IssueUnresolved(r) && r["troubleshoot_completed"] == JBool(true)
    ensures forall k :: k in ctx && k != "troubleshoot_completed" && k != "issue_resolved" ==> r[k] == ctx[k]
  {
    ctx["troubleshoot_completed" := JBool(true)]["issue_resolved" := JBool(false)]
  }

  /** How `troubleshoot_agent` ends. */
  datatype Troubleshoot =
    | AskedForModel   // needs the product model from the user
    | Solved          // task completed and notes recorded
    | Raised          // an exception left the step

  /** `troubleshoot_agent`. Without a product model it only asks the user
      for it. Otherwise it completes the current task, records its notes in
      the context (which raises on retrieved text, after the tasks are
      already completed), posts its answer and returns to the supervisor. */
  method TroubleshootAgent(s: AgentState) returns (outcome: Troubleshoot)
    requires s.Valid()
    modifies s`subtasks, s`messages, s`nextAgent, s`currentTask, s`agentContext, s`needsHumanInput, s`humanInputPrompt
    ensures s.Valid()
    ensures outcome == AskedForModel <==> !HasProductModel(old(s.agentContext))
    ensures outcome == Raised <==>
      (HasProductModel(old(s.agentContext))
       && (old(s.agentContext).Retrieved? || (old(s.currentTask).None? && old(s.subtasks) != [])))
    ensures outcome == AskedForModel ==>
      s.needsHumanInput && s.humanInputPrompt == Some(ModelQuestion)
      && s.subtasks == old(s.subtasks) && s.messages == old(s.messages)
      && s.currentTask == old(s.currentTask) && s.agentContext == old(s.agentContext)
      && s.nextAgent == old(s.nextAgent)
    ensures outcome != AskedForModel ==>
      s.needsHumanInput == old(s.needsHumanInput) && s.humanInputPrompt == old(s.humanInputPrompt)
    ensures outcome == Raised ==>
      s.messages == old(s.messages) && s.nextAgent == old(s.nextAgent)
      && s.currentTask == old(s.currentTask) && s.agentContext == old(s.agentContext)
      && s.subtasks == (if old(s.currentTask).None? && old(s.subtasks) != [] then old(s.subtasks)
                        else CompletedCurrent(old(s.subtasks), old(s.currentTask), TroubleshootAnswer))
    ensures outcome == Solved ==>
      old(s.agentContext).Entries?
      && s.subtasks == CompletedCurrent(old(s.subtasks), old(s.currentTask), TroubleshootAnswer)
      && s.agentContext == Entries(TroubleshootNotes(old(s.agentContext).values))
      && s.messages == old(s.messages) + [AIMessage(TroubleshootAnswer)]
      && s.nextAgent == "supervisor" && s.currentTask == None
  {
    if !HasProductModel(s.agentContext) {
      s.needsHumanInput := true;
      s.humanInputPrompt := Some(ModelQuestion);
      return AskedForModel;
    }
    var raised := CompleteCurrent(s, TroubleshootAnswer);
    if raised || s.agentContext.Retrieved? {
      return Raised;
    }
    s.agentContext := Entries(TroubleshootNotes(s.agentContext.values));
    ReportBack(s, TroubleshootAnswer);
    outcome := Solved;
  }

  /** Once troubleshooting has run, the warranty answer offers a replacement. */
  lemma TroubleshootLeadsToReplacement(ctx: map<string, Json>)
    ensures EndsWith(WarrantyResult(TroubleshootNotes(ctx)), ReplacementNote)
  {
  }
}
