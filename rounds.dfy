/** A whole run of the graph in agents/graph.py with the stub workers: the
    supervisor step, then the worker it routes to, then back to the
    supervisor, until the supervisor's router says "finish". Each round
    takes one PENDING task out of the plan, so a run always ends. */
module Rounds {
  import opened Wrappers
  import opened PyText
  import opened States
  import opened Scheduler
  import opened Supervisor
  import opened StubWorkers
  import opened AgentsGraph

  /** How a worker step ended. */
  datatype WorkerEnd =
    | Answered(answer: string)   // the current task was completed with `answer`
    | Asked                      // troubleshooting asked the user for the model
    | Crashed                    // the worker raised

  /** The node `name` of agents/graph.py runs on the state. */
  method RunWorker(s: AgentState, name: string) returns (end: WorkerEnd)
    requires s.Valid() && IsWorkerName(name)
    modifies s`subtasks, s`messages, s`nextAgent, s`currentTask, s`agentContext, s`needsHumanInput, s`humanInputPrompt
    ensures s.Valid()
    ensures old(s.currentTask).Some? && old(s.agentContext).Entries? ==> !end.Crashed?
    ensures end.Asked? ==> !HasProductModel(old(s.agentContext)) && s.subtasks == old(s.subtasks)
    ensures end.Answered? ==> s.subtasks == CompletedCurrent(old(s.subtasks), old(s.currentTask), end.answer)
    ensures old(s.agentContext).Entries? ==> s.agentContext.Entries?
    ensures HasProductModel(old(s.agentContext)) && old(s.agentContext).Entries? ==> HasProductModel(s.agentContext)
  {
    if name == "billing" {
      var raised := BillingAgent(s);
      end := if raised then Crashed else Answered(BillingAnswer);
    } else if name == "returns" {
      var raised := ReturnsAgent(s);
      end := if raised then Crashed else Answered(ReturnsAnswer);
    } else if name == "warranty" {
      var answer := if s.agentContext.Entries? then WarrantyResult(s.agentContext.values) else "";
      var raised := WarrantyAgent(s);
      end := if raised then Crashed else Answered(answer);
    } else {
      var outcome := TroubleshootAgent(s);
      end := match outcome
        case AskedForModel => Asked
        case Solved => Answered(TroubleshootAnswer)
        case Raised => Crashed;
    }
  }

  /** Tasks that keep the plan's ids, agents, dependencies and priorities. */
  predicate Planned(tasks: seq<SubTask>, plan: seq<SubTask>) {
    |tasks| == |plan|
    && forall k :: 0 <= k < |tasks| ==>
      tasks[k].taskId == plan[k].taskId && tasks[k].agent == plan[k].agent
      && tasks[k].dependencies == plan[k].dependencies && tasks[k].priority == plan[k].priority
  }

  /** Status changes keep the plan's shape. */
  lemma PlannedAfterStatus(tasks: seq<SubTask>, plan: seq<SubTask>, id: string, st: TaskStatus)
    requires Planned(tasks, plan)
    ensures Planned(SetStatusById(tasks, id, st), plan)
  {
  }

  lemma PlannedAfterComplete(tasks: seq<SubTask>, plan: seq<SubTask>, id: string, answer: string)
    requires Planned(tasks, plan)
    ensures Planned(CompleteById(tasks, id, answer), plan)
  {
  }

  /** One supervisor-and-worker round on task `i` leaves a plan whose tasks
      are PENDING or COMPLETED in that state. */
  lemma RoundKeepsProgress(tasks: seq<SubTask>, plan: seq<SubTask>, i: nat, answer: string)
    requires Progressed(tasks, plan) && i < |tasks|
    ensures Progressed(CompleteById(SetStatusById(tasks, tasks[i].taskId, InProgress), tasks[i].taskId, answer), plan)
  {
  }

  /** Across a supervisor-to-worker round at most one task is IN_PROGRESS:
      the hand-out makes exactly one, and the worker's completion leaves
      none. */
  lemma OneInProgressPerRound(query: string, tasks: seq<SubTask>, i: nat, answer: string)
    requires Progressed(tasks, KeywordPlan(query)) && i < |tasks|
    ensures CountStatus(SetStatusById(tasks, tasks[i].taskId, InProgress), InProgress) == 1
    ensures CountStatus(CompleteById(SetStatusById(tasks, tasks[i].taskId, InProgress), tasks[i].taskId, answer), InProgress) == 0
  {
    var plan := KeywordPlan(query);
    PlanIdsUnique(query);
    assert UniqueIds(tasks) by {
      forall a, b | 0 <= a < b < |tasks|
        ensures tasks[a].taskId != tasks[b].taskId
      {
        assert tasks[a].taskId == plan[a].taskId && tasks[b].taskId == plan[b].taskId;
      }
    }
    SetStatusOneInProgress(tasks, i);
    var after := CompleteById(SetStatusById(tasks, tasks[i].taskId, InProgress), tasks[i].taskId, answer);
    RoundKeepsProgress(tasks, plan, i, answer);
    NoInProgress(after);
  }

  /** The condition of `OneInProgressPerRound` is needed. A worker that
      asks the user (`RunWorker` ending in `Asked`, as troubleshooting does
      without a product model) leaves the subtasks as they were, so its task
      stays IN_PROGRESS, and the supervisor then hands out the next ready
      task as well. For a plan of two independent tasks, such as
      troubleshooting (priority 1) and billing (priority 2), this leaves two
      tasks IN_PROGRESS. */
  lemma AskedTaskStaysInProgress(a: SubTask, b: SubTask)
    requires a.taskId != b.taskId && a.status == Pending && b.status == Pending
    requires a.dependencies == [] && b.dependencies == [] && a.priority < b.priority
    ensures NextReady([a, b]) == Some(0)
    ensures NextReady(SetStatusById([a, b], a.taskId, InProgress)) == Some(1)
    ensures CountStatus(SetStatusById(SetStatusById([a, b], a.taskId, InProgress), b.taskId, InProgress), InProgress) == 2
  {
    var first := SetStatusById([a, b], a.taskId, InProgress);
    FirstHandOut(a, b);
    SecondHandOut(first);
    var second := SetStatusById(first, b.taskId, InProgress);
    CountBothInProgress(second);
  }

  /** Of two ready tasks without dependencies, the one with the smaller
      priority number is handed out first. */
  lemma FirstHandOut(a: SubTask, b: SubTask)
    requires a.status == Pending && b.status == Pending
    requires a.dependencies == [] && b.dependencies == [] && a.priority < b.priority
    ensures NextReady([a, b]) == Some(0)
  {
    assert IsReady([a, b], 0) && IsReady([a, b], 1);
    NextReadyExactly([a, b], 0);
  }

  /** With the first of two tasks IN_PROGRESS and the second PENDING without
      dependencies, the second is handed out. */
  lemma SecondHandOut(tasks: seq<SubTask>)
    requires |tasks| == 2 && tasks[0].status == InProgress && tasks[1].status == Pending && tasks[1].dependencies == []
    ensures NextReady(tasks) == Some(1)
  {
    assert !IsReady(tasks, 0) && IsReady(tasks, 1);
    NextReadyExactly(tasks, 1);
  }

  /** A list of two tasks, both IN_PROGRESS, counts two. */
  lemma CountBothInProgress(tasks: seq<SubTask>)
    requires |tasks| == 2 && tasks[0].status == InProgress && tasks[1].status == InProgress
    ensures CountStatus(tasks, InProgress) == 2
  {
    assert tasks[1..][1..] == [];
    assert CountStatus(tasks[1..][1..], InProgress) == 0;
    assert CountStatus(tasks[1..], InProgress) == 1;
  }

  /** A list of PENDING and COMPLETED tasks has none IN_PROGRESS. */
  lemma {:induction false} NoInProgress(tasks: seq<SubTask>)
    requires forall k :: 0 <= k < |tasks| ==> tasks[k].status != InProgress
    ensures CountStatus(tasks, InProgress) == 0
  {
    if tasks != [] {
      NoInProgress(tasks[1..]);
    }
  }

  /** When a run over a plan with its tasks PENDING or COMPLETED ends because
      nothing is ready, every task of the plan is COMPLETED. */
  lemma NothingReadyMeansDone(query: string, tasks: seq<SubTask>)
    requires Progressed(tasks, KeywordPlan(query)) && NextReady(tasks).None?
    ensures forall k :: 0 <= k < |tasks| ==> tasks[k].status == Completed
  {
    forall k | 0 <= k < |tasks|
      ensures tasks[k].status == Completed
    {
      if tasks[k].status == Pending {
        PlanNeverStalls(query, tasks, k);
      }
    }
  }

  /** Every task of the plan is for one of the four workers. */
  lemma PlanAgentIsWorker(query: string, tasks: seq<SubTask>, k: nat)
    requires tasks == KeywordPlan(query) || Planned(tasks, KeywordPlan(query))
    requires k < |tasks|
    ensures IsWorkerName(tasks[k].agent)
  {
    PlanShape(query);
  }

  /** A fresh plan is PENDING throughout. */
  lemma FreshPlanProgressed(query: string)
    ensures Progressed(KeywordPlan(query), KeywordPlan(query))
  {
    PlanShape(query);
  }

  /** What holds between two rounds of a run that started with no subtasks,
      a dict as context and `all_tasks_completed` unset (`atStart`), and
      whose context named the product model (`known`): the subtasks are the
      keyword plan with only statuses and results changed, and with the
      model known they are all PENDING or COMPLETED. */
  ghost predicate Between(s: AgentState, atStart: bool, known: bool)
    reads s
  {
    s.Valid()
    && (atStart ==>
         s.agentContext.Entries? && !s.allTasksCompleted
         && (s.subtasks == [] || Planned(s.subtasks, KeywordPlan(s.originalQuery))))
    && (atStart && known ==>
         HasProductModel(s.agentContext)
         && (s.subtasks == [] || Progressed(s.subtasks, KeywordPlan(s.originalQuery))))
  }

  /** The supervisor's half of a round: its step, then its router. When the
      router does not say "finish", it names a worker, and the task handed
      to that worker was a PENDING task of the plan now IN_PROGRESS. */
  method Dispatch(s: AgentState, ghost atStart: bool, ghost known: bool)
      returns (route: string, ghost current: seq<SubTask>, ghost i: nat)
    requires Between(s, atStart, known)
    modifies s`subtasks, s`currentTask, s`nextAgent, s`messages, s`allTasksCompleted, s`finalResponse
    ensures s.Valid() && route == RouteToAgent(s.nextAgent, s.allTasksCompleted)
    ensures current == if old(s.subtasks) == [] then KeywordPlan(s.originalQuery) else old(s.subtasks)
    ensures route == "finish" && atStart ==>
      s.allTasksCompleted && s.nextAgent == "finish"
      && NextReady(s.subtasks).None? && s.finalResponse == Some(CompileFinalResponse(s.subtasks))
    ensures route == "finish" && atStart && known ==> forall k :: 0 <= k < |s.subtasks| ==> s.subtasks[k].status == Completed
    ensures route != "finish" ==>
      IsWorkerName(route) && i < |current| && s.currentTask == Some(i)
      && s.subtasks == SetStatusById(current, current[i].taskId, InProgress)
      && (old(s.subtasks) == [] || CountStatus(s.subtasks, Pending) < CountStatus(old(s.subtasks), Pending))
    ensures route != "finish" && atStart ==>
      !s.allTasksCompleted && Planned(s.subtasks, KeywordPlan(s.originalQuery))
    ensures route != "finish" && atStart && known ==> Progressed(current, KeywordPlan(s.originalQuery))
  {
    ghost var query := s.originalQuery;
    ghost var plan := KeywordPlan(query);
    current := if s.subtasks == [] then plan else s.subtasks;
    i := 0;
    if atStart && known && s.subtasks == [] {
      FreshPlanProgressed(query);
    }
    SupervisorNode(s);
    route := RouteToAgent(s.nextAgent, s.allTasksCompleted);
    match NextReady(current) {
      case None =>
        if atStart && known && s.subtasks != [] {
          NothingReadyMeansDone(query, s.subtasks);
        }
      case Some(j) =>
        i := j;
        if atStart {
          PlanAgentIsWorker(query, current, j);
        }
        NextReadyIsNextChoice(current);
        var id := current[j].taskId;
        SetStatusShrinksPending(current, id, InProgress, j);
        if atStart {
          PlannedAfterStatus(current, plan, id, InProgress);
        }
    }
  }

  /** One round: the supervisor's half, then, unless the router says
      "finish", the worker it names. A round that does not end the run
      leaves subtasks behind and either made the plan or took one more
      PENDING task out of it. */
  method Round(s: AgentState, ghost atStart: bool, ghost known: bool) returns (finished: bool, crashed: bool)
    requires Between(s, atStart, known)
    modifies s`subtasks, s`currentTask, s`nextAgent, s`messages, s`allTasksCompleted, s`finalResponse,
      s`agentContext, s`needsHumanInput, s`humanInputPrompt
    ensures s.Valid()
    ensures finished ==> !crashed && RouteToAgent(s.nextAgent, s.allTasksCompleted) == "finish"
    ensures finished && atStart ==>
      s.allTasksCompleted && s.nextAgent == "finish"
      && NextReady(s.subtasks).None? && s.finalResponse == Some(CompileFinalResponse(s.subtasks))
    ensures finished && atStart && known ==> forall k :: 0 <= k < |s.subtasks| ==> s.subtasks[k].status == Completed
    ensures atStart ==> !crashed
    ensures !finished && !crashed ==>
      Between(s, atStart, known) && s.subtasks != []
      && (old(s.subtasks) == [] || CountStatus(s.subtasks, Pending) < CountStatus(old(s.subtasks), Pending))
  {
    ghost var plan := KeywordPlan(s.originalQuery);
    var route, current, i := Dispatch(s, atStart, known);
    if route == "finish" {
      return true, false;
    }
    finished := false;
    var id := current[i].taskId;
    ghost var handed := s.subtasks;
    var w := RunWorker(s, route);
    crashed := w.Crashed?;
    if w.Answered? {
      assert handed[i].taskId == id;
      CompleteKeepsPendingBound(handed, id, w.answer);
      if atStart {
        PlannedAfterComplete(handed, plan, id, w.answer);
      }
      if atStart && known {
        RoundKeepsProgress(current, plan, i, w.answer);
      }
    }
  }

  /** How a run of the graph ended. */
  datatype RunEnd = Finished | WorkerRaised

  /** The graph of agents/graph.py driven to its end: the supervisor runs,
      then the worker the router names, which always returns to the
      supervisor; the run ends when the router says "finish" or a worker
      raises. A run that starts with no subtasks, a dict as context and
      `all_tasks_completed` unset always finishes, with the summary of what
      was done and nothing left ready; when the context already names the
      product model, every task is COMPLETED by then. */
  method RunAgentsGraph(s: AgentState) returns (end: RunEnd)
    requires s.Valid()
    modifies s
    ensures s.Valid()
    ensures end == Finished ==> RouteToAgent(s.nextAgent, s.allTasksCompleted) == "finish"
    ensures old(s.subtasks) == [] && old(s.agentContext).Entries? && !old(s.allTasksCompleted) ==>
      end == Finished && s.allTasksCompleted && s.nextAgent == "finish"
      && NextReady(s.subtasks).None? && s.finalResponse == Some(CompileFinalResponse(s.subtasks))
    ensures old(s.subtasks) == [] && old(s.agentContext).Entries? && !old(s.allTasksCompleted)
            && HasProductModel(old(s.agentContext)) ==>
      forall k :: 0 <= k < |s.subtasks| ==> s.subtasks[k].status == Completed
  {
    ghost var atStart := s.subtasks == [] && s.agentContext.Entries? && !s.allTasksCompleted;
    ghost var known := HasProductModel(s.agentContext);
    while true
      invariant Between(s, atStart, known)
      decreases (if s.subtasks == [] then 1 else 0), CountStatus(s.subtasks, Pending)
    {
      var finished, crashed := Round(s, atStart, known);
      if finished {
        return Finished;
      }
      if crashed {
        return WorkerRaised;
      }
    }
  }
}
