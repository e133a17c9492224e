/** The graph of agents/graph.py: the supervisor routes to a worker or ends
    the run, every worker goes back to the supervisor unconditionally, and a
    `human_input` node posts the pending question. */
module AgentsGraph {
  import opened Wrappers
  import opened States
  import opened SupportGraph

  /** `route_to_agent`: "finish" when the supervisor said so or every task is
      done; otherwise the worker named by `next_agent`, and "finish" for any
      other name. */
  function RouteToAgent(nextAgent: string, allTasksCompleted: bool): (route: string)
    ensures nextAgent == "finish" || allTasksCompleted ==> route == "finish"
    ensures IsWorkerName(route) <==> !allTasksCompleted && IsWorkerName(nextAgent)
    ensures IsWorkerName(route) ==> route == nextAgent
    ensures !IsWorkerName(route) ==> route == "finish"
  {
    if nextAgent == "finish" || allTasksCompleted then "finish"
    else if IsWorkerName(nextAgent) then nextAgent
    else "finish"
  }

  /** The nodes this `create_support_graph` adds. */
  predicate IsAgentsNode(name: string) {
    name == "supervisor" || IsWorkerName(name) || name == "human_input"
  }

  /** The supervisor's conditional-edge table; `None` for a label it lacks. */
  function SupervisorEdge(route: string): Option<Node> {
    if IsWorkerName(route) then Some(At(route))
    else if route == "finish" then Some(End)
    else None
  }

  /** The node that runs after `from`. Workers and `human_input` have a
      plain edge back to the supervisor; the supervisor ends the run exactly
      when its router says "finish". No edge leads to `human_input`, so that
      node never runs. */
  function AgentsNext(from: string, nextAgent: string, allTasksCompleted: bool): (next: Option<Node>)
    requires IsAgentsNode(from)
    ensures next.Some?
    ensures from != "supervisor" ==> next == Some(At("supervisor"))
    ensures from == "supervisor" ==>
      (next == Some(End) <==> allTasksCompleted || !IsWorkerName(nextAgent))
    ensures next.value.At? ==> IsAgentsNode(next.value.name) && next.value.name != "human_input"
  {
    if from == "supervisor" then SupervisorEdge(RouteToAgent(nextAgent, allTasksCompleted))
    else Some(At("supervisor"))
  }

  /** Whether Python's `if state.get("human_input_prompt"):` holds. */
  predicate PromptPending(prompt: Option<string>) {
    prompt.Some? && prompt.value != ""
  }

  /** `human_input_node`: post the pending question as an assistant message
      when there is one; nothing else changes. */
  method HumanInputNode(s: AgentState)
    modifies s`messages
    ensures PromptPending(s.humanInputPrompt) ==> s.messages == old(s.messages) + [AIMessage(s.humanInputPrompt.value)]
    ensures !PromptPending(s.humanInputPrompt) ==> s.messages == old(s.messages)
  {
    if s.humanInputPrompt.Some? && s.humanInputPrompt.value != "" {
      s.messages := s.messages + [AIMessage(s.humanInputPrompt.value)];
    }
  }
}
