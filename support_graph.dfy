/** The graph of ai_processing/graph.py: the supervisor routes to one of the
    four workers or ends the run, and every worker either suspends the run
    (it needs the user) or goes back to the supervisor. Only the routing
    functions and the edge table are modelled; building and compiling the
    langgraph object is not. */
module SupportGraph {
  import opened Wrappers
  import opened States

  /** A node of a graph: a named node, or langgraph's `END`. */
  datatype Node = At(name: string) | End

  /** `route_to_human_input`, the router after every worker. */
  function RouteToHumanInput(needsHumanInput: bool): (route: string)
    ensures route == "human_input" <==> needsHumanInput
    ensures route == "continue" <==> !needsHumanInput
  {
    if needsHumanInput then "human_input" else "continue"
  }

  /** `route_from_supervisor`: a pending request for the user wins over any
      `next_agent`; a worker name routes to that worker; anything else
      finishes. */
  function RouteFromSupervisor(needsHumanInput: bool, nextAgent: string): (route: string)
    ensures needsHumanInput ==> route == "human_input"
    ensures IsWorkerName(route) <==> !needsHumanInput && IsWorkerName(nextAgent)
    ensures IsWorkerName(route) ==> route == nextAgent
    ensures !needsHumanInput && !IsWorkerName(nextAgent) ==> route == "finish"
  {
    if needsHumanInput then "human_input"
    else if IsWorkerName(nextAgent) then nextAgent
    else "finish"
  }

  /** The nodes `create_support_graph` adds. */
  predicate IsSupportNode(name: string) {
    name == "supervisor" || IsWorkerName(name)
  }

  /** The conditional-edge table of `create_support_graph`; `None` for a
      route the table has no entry for. */
  function SupportEdge(from: string, route: string): Option<Node> {
    if from == "supervisor" then
      if route == "human_input" || route == "finish" then Some(End)
      else if IsWorkerName(route) then Some(At(route))
      else None
    else if IsWorkerName(from) then
      if route == "human_input" then Some(End)
      else if route == "continue" then Some(At("supervisor"))
      else None
    else None
  }

  /** The node that runs after `from`, given the state its router reads.
      The routers only ever return labels the table has, so the run never
      gets stuck; it ends exactly when the user is needed or the supervisor
      names no worker; a worker that does not need the user always goes
      back to the supervisor. */
  function SupportNext(from: string, needsHumanInput: bool, nextAgent: string): (next: Option<Node>)
    requires IsSupportNode(from)
    ensures next.Some?
    ensures next == Some(End) <==> needsHumanInput || (from == "supervisor" && !IsWorkerName(nextAgent))
    ensures from == "supervisor" && !needsHumanInput && IsWorkerName(nextAgent) ==> next == Some(At(nextAgent))
    ensures IsWorkerName(from) && !needsHumanInput ==> next == Some(At("supervisor"))
    ensures next.value.At? ==> IsSupportNode(next.value.name)
  {
    if from == "supervisor" then SupportEdge(from, RouteFromSupervisor(needsHumanInput, nextAgent))
    else SupportEdge(from, RouteToHumanInput(needsHumanInput))
  }
}
