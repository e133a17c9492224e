/** The resume step of ai_processing/human_input_node.py: the question that
    suspended the run, then the user's reply, go into the history, the
    request is cleared, and the suspended task is back IN_PROGRESS. The reply
    is a parameter; the terminal prompt and `input()` are not modelled. */
module HumanInput {
  import opened Wrappers
  import opened States
  import opened AgentsGraph

  /** How the node ends: normally, or with the exception Python raises. */
  datatype Resume =
    | Resumed
    | PromptMissing    // `"..." + None` when building the terminal prompt
    | NoCurrentTask    // `None["status"] = ...` at the last step

  /** `human_input_node`. When the prompt is `None` the terminal prompt
      cannot be built (the `.get` default never applies, since the key is
      always present) and only the truthiness test has run, so nothing has
      changed. Otherwise the prompt, if non-empty, and then the reply are
      appended, the request is cleared, and the task `current_task` refers
      to becomes IN_PROGRESS; with no current task the last write raises
      after everything else is done. */
  method ResumeHumanInput(s: AgentState, reply: string) returns (outcome: Resume)
    requires s.Valid()
    modifies s`messages, s`needsHumanInput, s`humanInputPrompt, s`subtasks
    ensures s.Valid()
    ensures outcome == PromptMissing <==> old(s.humanInputPrompt).None?
    ensures outcome == NoCurrentTask <==> old(s.humanInputPrompt).Some? && s.currentTask.None?
    ensures outcome == PromptMissing ==>
      s.messages == old(s.messages) && s.needsHumanInput == old(s.needsHumanInput)
      && s.humanInputPrompt == old(s.humanInputPrompt) && s.subtasks == old(s.subtasks)
    ensures outcome != PromptMissing ==>
      s.messages == old(s.messages)
        + (if old(s.humanInputPrompt.value) != "" then [AIMessage(old(s.humanInputPrompt.value))] else [])
        + [HumanMessage(reply)]
      && !s.needsHumanInput && s.humanInputPrompt == None
    ensures outcome == NoCurrentTask ==> s.subtasks == old(s.subtasks)
    ensures outcome == Resumed ==>
      s.subtasks == old(s.subtasks)[s.currentTask.value := old(s.subtasks)[s.currentTask.value].(status := InProgress)]
  {
    HumanInputNode(s);
    if s.humanInputPrompt.None? {
      return PromptMissing;
    }
    s.messages := s.messages + [HumanMessage(reply)];
    s.needsHumanInput := false;
    s.humanInputPrompt := None;
    if s.currentTask.None? {
      return NoCurrentTask;
    }
    var i := s.currentTask.value;
    s.subtasks := s.subtasks[i := s.subtasks[i].(status := InProgress)];
    outcome := Resumed;
  }
}
