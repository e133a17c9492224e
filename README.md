# Customer-support multi-agent system, modelled in Dafny

The system answers a customer's query by splitting it into subtasks and
routing each subtask to a worker agent: troubleshooting, billing, warranty or
returns. A supervisor node owns the task list. It decomposes the query once,
picks the next ready task, marks it IN_PROGRESS and names its worker. The
worker does the task, records the result and hands control back. When nothing
is ready the supervisor writes the closing summary. Everything lives in one
in-place graph state (`AgentState`) that every node mutates.

The model covers the following parts.

- **Task records and the graph state.** `States`: the status enum, the subtask record and the message kinds. `AgentState` is a class whose fields the nodes update in place. `current_task` is a reference to one of the subtasks, so it is modelled as the position of that subtask.
- **Keyword supervisor.** `Supervisor`: the keyword decomposition `decompose_query`, the supervisor step and the closing summary. `Scheduler`: `get_next_task`, the same function in the keyword supervisor and in the draft file xyz.py.
- **Draft supervisor in xyz.py.** `DraftSupervisor` covers:
  - the casual-turn counter;
  - the code-fence stripping of the model's reply;
  - classifying the parsed reply as a task list, as empty, or as a message.
- **Stub workers.** `StubWorkers` covers the four stubs under agents/. `DraftWorkers` covers the stubs in xyz.py.
- **Tool-using worker.** `BaseAgent` covers:
  - the worker's step and its closed action dispatch;
  - the tool executor;
  - the tool-call/re-ask recursion;
  - the response parser with its quote repair.
- **Worker tools.** `BillingTools` and `TroubleshootTools` model the tools these workers call by name.
- **Routers and graphs.**
  - `SupportGraph` covers ai_processing/graph.py and `AgentsGraph` covers agents/graph.py: their routers and edge tables as a transition function.
  - `HumanInput` is the resume step that brings a BLOCKED task back to IN_PROGRESS.
  - `Rounds` drives the agents/graph.py graph with the stub workers to its end. It proves that a fresh run always terminates with the summary.
- **History and messages.** `Compaction` and `BillingCompaction` are the two history compactors. `ChatStore` is the thread store with its read-time compaction. `ConversationHelper` maps message objects to API dicts.

Every call into a language model is an oracle:
- A text the model returns is a parameter.
- A sequence of replies drives the tool loop.
- A function stands for the summariser and for the retriever.

`json.loads` is a parameter `parse: string -> Option<Json>`. Python's `str()` of containers and floats, `json.dumps`, the `:.2f` format, `float()` and exception texts are opaque functions bundled in `Json.Py`. An exception the source lets escape is modelled as a `raised` out-parameter, or as a `Failure(fault)` naming its kind.

xyz.py's `route_to_agent` (xyz.py:785-802), `human_input_node` (xyz.py:763-778) and `compile_final_response` (xyz.py:634-645) are the same code as their counterparts in agents/graph.py and agents/supervisor/supervisor_agent.py. Their rows below stand for both.

## Model

| member | source | states |
|---|---|---|
| States.SetStatusById | agents/supervisor/supervisor_agent.py:31-33 | every task with the given id gets the new status; all other fields and all other tasks are kept |
| States.CompleteById | agents/billing/billing_agent.py:15-18 | every task with the given id becomes COMPLETED with the result; other tasks keep status and result; ids, agents, dependencies and priorities never change |
| States.AgentState.constructor | xyz.py:873-885 | the state a run starts from: the query as the only message, no subtasks, no current task, next agent "supervisor", empty context, nothing completed |
| States.AgentState.SetStatusWhere | agents/supervisor/supervisor_agent.py:31-33 | the in-place status loop leaves exactly `SetStatusById` of the old list |
| States.AgentState.CompleteWhere | agents/billing/billing_agent.py:15-18 | the stubs' in-place completion loop leaves exactly `CompleteById` of the old list |
| Scheduler.FindById | agents/supervisor/supervisor_agent.py:136 | the first task with the id, or none when no task has it |
| Scheduler.ReadyBelow | agents/supervisor/supervisor_agent.py:126-142 | the ready positions below n, in list order: each is PENDING with every dependency that names a task COMPLETED, and every such position is listed |
| Scheduler.FirstMinimumPos | agents/supervisor/supervisor_agent.py:145-146 | the chosen candidate has the least priority number, and every earlier candidate a strictly greater one (the stable sort's first) |
| Scheduler.NextReadyIsNextChoice | agents/supervisor/supervisor_agent.py:118-148 | the task returned is ready and first-least by priority among ready tasks; none is returned exactly when no task is ready |
| Scheduler.NextReady | agents/supervisor/supervisor_agent.py:118-148 | the specification of `get_next_task`; `NextReadyIsNextChoice`, `NextReadyExactly`, `ReadyMeansSome` and `NextChoiceUnique` state that it is the ready, first-least choice and none exactly when nothing is ready |
| Scheduler.ReadyMeansSome | agents/supervisor/supervisor_agent.py:141-148 | a ready task means the scheduler returns a task |
| Scheduler.NextChoiceUnique | agents/supervisor/supervisor_agent.py:144-146 | at most one task is the ready, first-least choice |
| Scheduler.NextReadyExactly | agents/supervisor/supervisor_agent.py:118-148 | the scheduler returns position i if and only if i is the ready, first-least choice |
| Scheduler.AllDependenciesMet | agents/supervisor/supervisor_agent.py:133-139 | the dependency loop with its early break answers true exactly when every dependency naming an existing task names a COMPLETED one (dangling ids count as met) |
| Scheduler.LeastPriorityPos | agents/supervisor/supervisor_agent.py:145-146 | the scan for the least priority returns the stable sort's first element |
| Scheduler.GetNextTask | agents/supervisor/supervisor_agent.py:118-148 | the filtering loop returns exactly the specified next ready task (same code as xyz.py:601-631) |
| Scheduler.SetStatusShrinksPending | agents/supervisor/supervisor_agent.py:31-33 | moving a PENDING task to another status lowers the count of PENDING tasks |
| Scheduler.SetStatusKeepsPendingBound | agents/supervisor/supervisor_agent.py:31-33 | a status update to a non-PENDING status never raises the PENDING count |
| Scheduler.CompleteKeepsPendingBound | agents/billing/billing_agent.py:15-18 | completing tasks never raises the PENDING count |
| Scheduler.SetStatusOneInProgress | agents/supervisor/supervisor_agent.py:31-33 | marking a task with a unique id IN_PROGRESS in a list with none IN_PROGRESS leaves exactly one |
| Supervisor.PlanAdvance | agents/supervisor/supervisor_agent.py:60-116 | after each category test, the tasks made so far plus the plan for the remaining categories are the whole plan |
| Supervisor.AddIfMentioned | agents/supervisor/supervisor_agent.py:64-75 | a category's task is appended, numbered by the counter, exactly when one of its words occurs; the counter stays one past the task count |
| Supervisor.DecomposeQuery | agents/supervisor/supervisor_agent.py:45-116 | the step-by-step list building returns the keyword plan of the query |
| Supervisor.PlanPick | agents/supervisor/supervisor_agent.py:60-116 | every task in a plan was made for a category whose words occur, numbered after the tasks before it |
| Supervisor.PlanHas | agents/supervisor/supervisor_agent.py:60-116 | every category whose words occur has its task in the plan |
| Supervisor.PlanLength | agents/supervisor/supervisor_agent.py:60-116 | a plan has at most one task per category |
| Supervisor.PlanFirstLeast | agents/supervisor/supervisor_agent.py:60-116 | no later task without dependencies has a smaller priority number than the first task |
| Supervisor.CategoriesFacts | agents/supervisor/supervisor_agent.py:65-113 | four categories tested in the order troubleshoot, warranty, billing, returns, for four distinct workers, with priorities 1 to 3 in order |
| Supervisor.PlanFrom | agents/supervisor/supervisor_agent.py:60-116 | the category-by-category plan; `PlanAdvance`, `PlanPick`, `PlanHas` and `PlanLength` state which tasks it makes and in what order |
| Supervisor.KeywordPlan | agents/supervisor/supervisor_agent.py:45-116 | the plan of `decompose_query`; `PlanCoversCategory`, `PlanShape`, `PlanIdsUnique` and `PlanFirstLeast` state its tasks, ids and priorities, and `DecomposeQuery` is proved to return it |
| Supervisor.PlanShape | agents/supervisor/supervisor_agent.py:60-116 | every plan has ids task_1..task_n, is PENDING without results, names workers, and has only dependencies on task_1 and never from task_1 |
| Supervisor.PlanCoversCategory | agents/supervisor/supervisor_agent.py:61-114 | the plan has a task for an agent if and only if the lower-cased query contains one of that agent's words |
| Supervisor.PlanIdsUnique | agents/supervisor/supervisor_agent.py:60-116 | the ids of a plan are pairwise distinct |
| Supervisor.WellPlannedIdsUnique | agents/supervisor/supervisor_agent.py:67-106 | numbering the tasks task_1..task_n makes their ids distinct |
| Supervisor.PlanStartsWithFirst | agents/supervisor/supervisor_agent.py:15-22 | on a fresh non-empty plan the scheduler picks the first task |
| Supervisor.WellPlannedStartsWithFirst | agents/supervisor/supervisor_agent.py:118-148 | a well-planned list whose first task has the least priority among dependency-free tasks starts with that task |
| Supervisor.PlanNeverStalls | agents/supervisor/supervisor_agent.py:126-148 | while a plan's tasks are only PENDING or COMPLETED, a PENDING task means the scheduler has a ready one |
| Supervisor.WellPlannedNeverStalls | agents/supervisor/supervisor_agent.py:126-148 | the same for every well-planned list |
| Supervisor.BulletsCover | agents/supervisor/supervisor_agent.py:156-158 | every task COMPLETED with a non-empty result has its line |
| Supervisor.FinalResponseStarts | agents/supervisor/supervisor_agent.py:154-162 | the summary opens with the header line |
| Supervisor.FinalResponseEnds | agents/supervisor/supervisor_agent.py:160-162 | the summary closes with the follow-up question |
| Supervisor.FinalResponseReports | agents/supervisor/supervisor_agent.py:156-162 | the summary contains the capitalised line of every task completed with a result |
| Supervisor.EmptySummary | agents/supervisor/supervisor_agent.py:151-162 | with nothing reportable, the summary is the header and the question alone |
| Supervisor.CompileFinalResponse | agents/supervisor/supervisor_agent.py:151-162 | the closing summary; `FinalResponseStarts`, `FinalResponseEnds`, `FinalResponseReports`, `BulletsCover`, `EmptySummary` and `NoBullets` state its header, its question and its per-task lines |
| Supervisor.NoBullets | agents/supervisor/supervisor_agent.py:156-158 | with nothing reportable, there are no lines |
| Supervisor.HandOff | agents/supervisor/supervisor_agent.py:30-41 | only tasks with the chosen id change, and they become IN_PROGRESS; current task and next agent come from it; one message is appended |
| Supervisor.HandOffMessage | agents/supervisor/supervisor_agent.py:39-41 | the routing message; `HandOff` and `SupervisorNode` state that exactly this message is appended on a hand-out |
| Supervisor.FinishRun | agents/supervisor/supervisor_agent.py:24-28 | all tasks completed, next agent "finish", the closing text as final response |
| Supervisor.SupervisorNode | agents/supervisor/supervisor_agent.py:5-43 | plans only when the list is empty; then hands the next ready task out, or finishes with the summary when none is ready (whatever is still BLOCKED or IN_PROGRESS) |
| DraftSupervisor.StripFences | xyz.py:479-486 | the cleaned reply has no surrounding whitespace |
| DraftSupervisor.ClosingFence | xyz.py:484-486 | removing the closing fence and stripping gives back the body |
| DraftSupervisor.FencedJsonPayload | xyz.py:479-486 | a reply fenced as ```json ... ``` cleans to its body |
| DraftSupervisor.FencedPlainPayload | xyz.py:482-486 | a reply fenced as ``` ... ``` cleans to its body |
| DraftSupervisor.UnfencedPayload | xyz.py:479-486 | an already stripped reply without fences is unchanged |
| DraftSupervisor.DependencyIds | xyz.py:512 | a list of dependency ids is accepted exactly when every entry is a string, and is kept in order |
| DraftSupervisor.TaskFromJson | xyz.py:505-514 | an accepted entry gives a PENDING task without result, with its id, description and agent; missing dependencies default to [] and a missing priority to 1 |
| DraftSupervisor.TasksFromJson | xyz.py:503-518 | the list converts entry by entry, and fails exactly when some entry fails |
| DraftSupervisor.BuildSubtasks | xyz.py:503-518 | the building loop returns exactly the entry-by-entry conversion |
| DraftSupervisor.Classify | xyz.py:491-522 | a dict with "response" gives no tasks and its message; a non-empty list gives its tasks; anything else gives neither |
| DraftSupervisor.DecomposedTasksPending | xyz.py:506-514 | every decomposed task starts PENDING without result |
| DraftSupervisor.DecomposeQueryWithLlm | xyz.py:458-530 | no reply gives ([], None); otherwise the reply is fence-stripped, parsed and classified |
| DraftSupervisor.CasualReply | xyz.py:272-282 | the model's truthy message when it sent one, else welcome on turn 1, the helpful prompt on turn 2 and the final prompt from turn 3 on |
| DraftSupervisor.CasualTurn | xyz.py:268-289 | the turn counter rises by exactly one; when the reply is text, one message is appended, the run finishes with it and awaits a real query |
| DraftSupervisor.DraftSchedule | xyz.py:297-323 | hands out the next ready task with the routing message, or finishes with the closing text |
| DraftSupervisor.PlanOrChat | xyz.py:260-295 | a non-empty decomposition becomes the list and resets the counters; an empty one is a casual turn with the list left empty |
| DraftSupervisor.DraftDecomposition | xyz.py:260-264 | the decomposition the draft step uses on an empty list; `DecomposeQueryWithLlm` is proved to return it and `DecomposedTasksPending` states its tasks start PENDING |
| DraftSupervisor.DraftPlan | xyz.py:260-296 | the list the draft step schedules over, the existing one or the decomposition's; `DraftWithClient` and `DraftSupervisorNode` state their hand-out and finish in terms of it |
| DraftSupervisor.DraftWithClient | xyz.py:253-323 | with a client, a casual turn (or a failed one) only when no list exists and the decomposition is empty, keeping the current task; otherwise it schedules over the existing or new list: a hand-out keeps `all_tasks_completed` and `final_response`, and a finish keeps the current task |
| DraftSupervisor.DraftSupervisorNode | xyz.py:234-323 | without a client, finishes at once with the fixed configuration error and leaves subtasks, messages, current task and counters alone; otherwise the whole state change of `DraftWithClient`, frames included |
| DraftWorkers.PostAnswer | xyz.py:706-707 | one assistant message with the answer, and no current task |
| DraftWorkers.DraftAnswer | xyz.py:700-707 | raises exactly when there is no current task but there are subtasks; otherwise completes the current task's id with the answer and posts it |
| DraftWorkers.DraftBillingAgent | xyz.py:690-709 | the billing stub: completes the current task with the fixed billing answer and posts it; `next_agent` is untouched |
| DraftWorkers.DraftReturnsAgent | xyz.py:739-756 | the returns stub, likewise with the fixed returns answer |
| DraftWorkers.DraftWarrantyAgent | xyz.py:712-736 | the warranty stub: the answer carries the replacement note exactly when the issue is recorded unresolved |
| DraftWorkers.WithModel | xyz.py:663-666 | a missing product model is filled in as "Unknown"; other entries are kept |
| DraftWorkers.DraftTroubleshootAgent | xyz.py:652-687 | never asks the user: fills in the model, completes the task, records that the issue is unresolved and posts the answer |
| DraftWorkers.DraftTroubleshootNotes | xyz.py:663-679 | after the draft troubleshooter, the product model is known and the warranty answer offers a replacement |
| StubWorkers.CompleteCurrent | agents/billing/billing_agent.py:15-18 | the update loop raises exactly when there is no current task and the list is non-empty; otherwise every task with the current id is COMPLETED |
| StubWorkers.ReportBack | agents/billing/billing_agent.py:20-22 | one assistant message, next agent "supervisor", no current task |
| StubWorkers.AnswerAndReturn | agents/billing/billing_agent.py:9-24 | a stub that completes the current task with a fixed answer, posts it and returns to the supervisor, or raises and changes nothing |
| StubWorkers.BillingAgent | agents/billing/billing_agent.py:4-24 | the billing stub with its fixed answer |
| StubWorkers.ReturnsAgent | agents/returns/return_agent.py:5-23 | the returns stub with its fixed answer |
| StubWorkers.WarrantyResult | agents/warranty/warranty_agent.py:12-17 | the answer starts with the coverage statement and ends with the replacement note if and only if `issue_resolved` equals False |
| StubWorkers.WarrantyAgent | agents/warranty/warranty_agent.py:4-29 | completes the current task with that answer, posts it, returns to the supervisor and only reads the context |
| StubWorkers.IssueUnresolved | agents/warranty/warranty_agent.py:12-14 | whether `agent_context.get("issue_resolved") == False`; `WarrantyResult` states that the replacement note appears exactly when it holds, and `TroubleshootLeadsToReplacement` that troubleshooting makes it hold |
| StubWorkers.TroubleshootNotes | agents/troubleshoot/troubleshoot_agent.py:33-34 | the context gains `troubleshoot_completed` True and `issue_resolved` False; other entries are kept |
| StubWorkers.TroubleshootAgent | agents/troubleshoot/troubleshoot_agent.py:6-43 | without a product model it only asks for it; otherwise it completes the task, records its notes, posts the answer and returns to the supervisor |
| StubWorkers.TroubleshootLeadsToReplacement | agents/troubleshoot/troubleshoot_agent.py:33-34 | once troubleshooting ran, the warranty answer offers a replacement |
| HumanInput.ResumeHumanInput | ai_processing/human_input_node.py:7-24 | appends the non-empty prompt and then the reply; clears the request; the current task becomes IN_PROGRESS; raises without a prompt or without a current task |
| AgentsGraph.RouteToAgent | agents/graph.py:27-43 | "finish" when told so or all tasks are done; a worker name exactly for the four workers; "finish" otherwise |
| AgentsGraph.AgentsNext | agents/graph.py:54-82 | every node has a successor; workers and human_input go back to the supervisor; the supervisor ends the run exactly when its router says "finish"; no edge reaches human_input |
| AgentsGraph.HumanInputNode | agents/graph.py:13-25 | appends one assistant message with the prompt when it is non-empty; nothing else changes |
| SupportGraph.RouteToHumanInput | ai_processing/graph.py:17-23 | "human_input" if and only if the user is needed, else "continue" |
| SupportGraph.RouteFromSupervisor | ai_processing/graph.py:25-41 | a pending request for the user wins; then a worker name exactly for the four workers; else "finish" |
| SupportGraph.SupportNext | ai_processing/graph.py:51-80 | the run ends exactly when the user is needed or the supervisor names no worker; a worker goes back to the supervisor otherwise |
| Rounds.RunWorker | agents/graph.py:55-59 | a worker on a state with a current task and a dict context never raises; asking leaves the list unchanged; answering completes the current task |
| Rounds.PlannedAfterStatus | agents/supervisor/supervisor_agent.py:31-33 | status updates keep the plan's ids, agents, dependencies and priorities |
| Rounds.PlannedAfterComplete | agents/billing/billing_agent.py:15-18 | completion keeps the plan's ids, agents, dependencies and priorities |
| Rounds.RoundKeepsProgress | agents/supervisor/supervisor_agent.py:29-36 | a hand-out followed by completion leaves every task PENDING or COMPLETED |
| Rounds.OneInProgressPerRound | agents/supervisor/supervisor_agent.py:29-36 | when a round starts with every task PENDING or COMPLETED, exactly one task is IN_PROGRESS after the hand-out and none after the worker completes it |
| Rounds.AskedTaskStaysInProgress | agents/troubleshoot/troubleshoot_agent.py:18-21 | the condition above is needed: a worker that asks the user leaves its task IN_PROGRESS, the supervisor hands out the next independent task, and two tasks are IN_PROGRESS |
| Rounds.NothingReadyMeansDone | agents/supervisor/supervisor_agent.py:22-28 | over a keyword plan with tasks only PENDING or COMPLETED, "nothing ready" means every task is COMPLETED |
| Rounds.PlanAgentIsWorker | agents/supervisor/supervisor_agent.py:60-116 | every planned task names one of the four workers, so the router never ends a run on a planned task |
| Rounds.FreshPlanProgressed | agents/supervisor/supervisor_agent.py:60-116 | a fresh plan is PENDING throughout |
| Rounds.Dispatch | agents/graph.py:63-73 | the supervisor then its router: either the run finishes with the summary and nothing ready, or a worker gets a task that was PENDING, with one PENDING task fewer |
| Rounds.Round | agents/graph.py:63-79 | one supervisor-and-worker round: finishes, or makes the plan, or removes one PENDING task; a fresh run never raises |
| Rounds.RunAgentsGraph | agents/graph.py:45-85 | a fresh run terminates and finishes with the summary; when the product model is known, every task is COMPLETED by then |
| BaseAgent.CleanResponse | agents/base_agent.py:130-134 | the cleaned text has no surrounding whitespace |
| BaseAgent.InnerBlock | agents/base_agent.py:134 | removing the closing fence and stripping gives back the body |
| BaseAgent.FencedJsonReply | agents/base_agent.py:131-134 | a reply fenced as ```json ... ``` cleans to its body |
| BaseAgent.FencedPlainReply | agents/base_agent.py:131-134 | a reply fenced as ``` ... ``` cleans to its body |
| BaseAgent.RepairQuotes | agents/base_agent.py:141 | same length; every `'` not preceded by a backslash becomes `"`; every other character is kept |
| BaseAgent.RepairLeavesEscapedQuotes | agents/base_agent.py:141 | a `'` left after repair is preceded by a backslash |
| BaseAgent.RepairIdempotent | agents/base_agent.py:141 | repairing twice is repairing once |
| BaseAgent.ParseLlmResponse | agents/base_agent.py:128-142 | a missing text gives the "Empty response" error dict; a cleaned text that decodes gives its value; an empty cleaned text that does not gives the "Failed to parse JSON" error dict; any other is decoded once more after the quote repair, giving that value or the decode error |
| BaseAgent.FencedReplyDecodes | agents/base_agent.py:128-135 | a fenced reply whose body decodes yields that value |
| BaseAgent.ParseFailsExactly | agents/base_agent.py:128-142 | parsing raises if and only if the cleaned text is non-empty and neither it nor its repair decodes |
| BaseAgent.ToolReport | agents/base_agent.py:126 | the report starts with "Tool '<name>' result: " |
| BaseAgent.ToolMessages | agents/base_agent.py:104-105 | exactly one message per tool call |
| BaseAgent.ToolMessagesInOrder | agents/base_agent.py:100-105 | the k-th message is a developer message reporting the k-th call |
| BaseAgent.ToolResultCases | agents/base_agent.py:111-124 | undecodable arguments give "Error execution failed: ..."; an unknown name gives "Error: Unknown tool ..."; arguments that are not a dict, and a tool that refuses the keywords or raises, give "Error execution failed: " with the exception; a successful call gives the tool's result |
| BaseAgent.ToolResult | agents/base_agent.py:111-124 | what one tool call reports; `ToolResultCases`, `BillingCallsThroughExecutor` and `TroubleshootCallsThroughExecutor` state its outcomes |
| BaseAgent.NeedInfoIsRespond | agents/base_agent.py:50-64 | "need_info", "respond" and a missing action all ask the user with the message |
| BaseAgent.ErrorKeyFails | agents/base_agent.py:46-48 | an analysis with an "error" key takes the error path |
| BaseAgent.ActionOf | agents/base_agent.py:46-71 | the action the worker takes for an analysis; `NeedInfoIsRespond`, `ErrorKeyFails`, `StepOnError` and `StepRaisesExactly` state its cases and their effect |
| BaseAgent.CompleteFirst | agents/base_agent.py:145-149 | same length; each task is unchanged or completed with the result |
| BaseAgent.MarkCompleted | agents/base_agent.py:144-150 | raises exactly when there is no current task and the list is non-empty; otherwise tasks are only completed with the result |
| BaseAgent.MarkCompletedCurrent | agents/base_agent.py:144-150 | with distinct ids, exactly the current task is completed |
| BaseAgent.StepEffect | agents/base_agent.py:56-77 | the list keeps its length; a current task that is kept is the old one |
| BaseAgent.StepRaisesExactly | agents/base_agent.py:56-77 | the step raises if and only if there is no current task, the list is non-empty and the action is one of the known ones |
| BaseAgent.StepNeverFails | agents/base_agent.py:56-77 | no task ever becomes FAILED or goes back to PENDING |
| BaseAgent.StepOnCurrent | agents/base_agent.py:56-71 | with a current task, only it changes: asking blocks it and sets the prompt, completion or error completes it, an unknown action only sets the flag |
| BaseAgent.StepOnError | agents/base_agent.py:73-77 | an exception inside the dispatch ends in the error path with the flags already set |
| BaseAgent.FirstTextReply | agents/base_agent.py:99-109 | the first reply without tool calls, or none |
| BaseAgent.AnalysisFrom | agents/base_agent.py:81-109 | the analysis the re-ask recursion yields from a round on; `AnalysisIsFirstTextReply` states that it is the parse of the first reply without tool calls, and `AnalyzeRequest` is proved to return it |
| BaseAgent.AnalysisIsFirstTextReply | agents/base_agent.py:81-109 | the re-ask recursion yields the parse of the first reply without tool calls, or a recursion error when none comes |
| BaseAgent.BaseAgentNode.constructor | agents/base_agent.py:10-26 | the node keeps its name, client, tool map and chat store |
| BaseAgent.BaseAgentNode.HandleToolExecution | agents/base_agent.py:111-126 | one developer message with the report is appended to the thread; nothing else changes |
| BaseAgent.BaseAgentNode.ExecuteToolCalls | agents/base_agent.py:102-105 | the thread gains exactly the per-call reports, in call order |
| BaseAgent.BaseAgentNode.ExtractContext | agents/base_agent.py:84-88 | an empty context is replaced by the retriever's text for the first message; a non-empty one is kept |
| BaseAgent.BaseAgentNode.AskOnce | agents/base_agent.py:82-109 | one round: no thread raises; a reply without tool calls is parsed; otherwise its calls are executed |
| BaseAgent.BaseAgentNode.AnalyzeRequest | agents/base_agent.py:81-109 | the recursion's result is the specified analysis; only this thread changes |
| BaseAgent.BaseAgentNode.MarkTaskCompleted | agents/base_agent.py:144-150 | the loop with its break completes the first task with the current id and clears the current task, or raises |
| BaseAgent.BaseAgentNode.ApplyAnalysis | agents/base_agent.py:50-71 | logs the analysis, then applies the action, or reports the exception with the flags it had set |
| BaseAgent.BaseAgentNode.RecoverFromError | agents/base_agent.py:73-77 | logs the fixed error reply and completes the current task with it |
| BaseAgent.BaseAgentNode.HandleUsable | agents/base_agent.py:46-71 | an analysis without "error" has the step's effect and logs what the source logs |
| BaseAgent.BaseAgentNode.HandleAnalysis | agents/base_agent.py:44-77 | every analysis, failed or not, has exactly the step's effect |
| BaseAgent.BaseAgentNode.ProcessRequest | agents/base_agent.py:34-79 | without a client nothing changes; otherwise a missing thread makes the analysis the TypeError of `*None`, so the error path runs; an empty context becomes the retriever's text for the first history entry and a non-empty one is kept, the flags and tasks change as the step says, the log ends with the step's messages, and no other thread changes |
| BillingTools.GetBillsShape | agents/billing/_tools/billing_tools.py:88-126 | one customer record whose `ph_number` is the input as text, with bills B001 and B002 |
| BillingTools.GetBillsIgnoresInput | agents/billing/_tools/billing_tools.py:88-126 | apart from `ph_number`, the record is the same for every input |
| BillingTools.GetBills | agents/billing/_tools/billing_tools.py:88-126 | `get_bills`; `GetBillsShape` and `GetBillsIgnoresInput` state the one record it returns |
| BillingTools.FindBill | agents/billing/_tools/billing_tools.py:136-137 | the first bill whose id matches without regard to case, or none |
| BillingTools.BillById | agents/billing/_tools/billing_tools.py:128-144 | a non-text id raises; otherwise a case-insensitive match gives the customer's number and name with the bill, and no match gives None |
| BillingTools.BillByIdIgnoresCase | agents/billing/_tools/billing_tools.py:136-137 | ids differing only in case give the same answer |
| BillingTools.LowerFindBill | agents/billing/_tools/billing_tools.py:136-137 | the search depends only on the lower-cased id |
| BillingTools.GetBillById | agents/billing/_tools/billing_tools.py:128-144 | the search loop with its early return gives the specified answer |
| BillingTools.SendBill | agents/billing/_tools/billing_tools.py:146-152 | the confirmation names the bill, the number and the mode |
| BillingTools.RefundTicket | agents/billing/_tools/billing_tools.py:154-166 | a non-numeric text amount is invalid; None, zero or negative asks for the amount; a container amount raises; a positive amount raises the ticket |
| BillingTools.RefundMessage | agents/billing/_tools/billing_tools.py:166 | the ticket text; `RefundMessageNames` states that it names the bill, the number and the reason |
| BillingTools.RefundMessageNames | agents/billing/_tools/billing_tools.py:166 | the ticket names the bill, the number and the reason |
| BillingTools.CallBillingTool | agents/billing/_tools/billing_tools.py:168-173 | a call whose keywords are not the declared parameters fails to bind |
| BillingTools.BillingToolMap | agents/billing/_tools/billing_tools.py:168-173 | the map has exactly the four schema names, each bound to its tool |
| BillingTools.BillingSchemaCovers | agents/billing/_tools/billing_tools.py:1-86 | every tool in the map declares parameters in the schema |
| BillingTools.BillingCallsThroughExecutor | agents/base_agent.py:111-126 | through the executor, a badly keyworded billing call reports "Error execution failed", and a bound `send_bill` call reports its confirmation |
| TroubleshootTools.GetRobotStatus | agents/troubleshoot/_tools/troubleshoot_tools.py:72-96 | a one-element list whose `serial_number` is the input |
| TroubleshootTools.RobotStatusReport | agents/troubleshoot/_tools/troubleshoot_tools.py:72-96 | the report is the same for every serial; exactly the left wheel motor is not OK; the last error code heads the error history |
| TroubleshootTools.RunRemoteDiag | agents/troubleshoot/_tools/troubleshoot_tools.py:98-103 | the result names the robot and the faulty component |
| TroubleshootTools.ResetFirmware | agents/troubleshoot/_tools/troubleshoot_tools.py:105-110 | the notice names the robot and the new firmware |
| TroubleshootTools.ScheduleRepair | agents/troubleshoot/_tools/troubleshoot_tools.py:112-119 | an empty part or address gives the fixed error; otherwise the ticket names the robot, the address and the part |
| TroubleshootTools.CallTroubleshootTool | agents/troubleshoot/_tools/troubleshoot_tools.py:121-126 | a call binds exactly when its keywords are the declared parameters, and a bound call to a known tool succeeds |
| TroubleshootTools.TroubleshootToolMap | agents/troubleshoot/_tools/troubleshoot_tools.py:121-126 | the map has exactly the four schema names, each bound to its tool |
| TroubleshootTools.TroubleshootCallsThroughExecutor | agents/base_agent.py:111-126 | through the executor, a bound troubleshooting call reports the tool's output |
| Compaction.FormatDictMessages | ai_processing/compaction.py:48-57 | the accumulating loop produces "role: content\n" per message, in order |
| Compaction.DictLine | ai_processing/compaction.py:53-56 | one message's line; `DictLineOfText` states it is "role: content\n" for text fields |
| Compaction.DictLines | ai_processing/compaction.py:48-57 | the text `_format_dict_messages` builds; `DictLinesSnoc` and `DictLinesAppend` state that it is one line per message, in order, and `FormatDictMessages` is proved to return it |
| Compaction.DictLinesSnoc | ai_processing/compaction.py:53-56 | one more message adds its line at the end |
| Compaction.DictLinesAppend | ai_processing/compaction.py:48-57 | formatting distributes over concatenation |
| Compaction.DictLineOfText | ai_processing/compaction.py:54-56 | a role/content message formats as "role: content\n" |
| Compaction.SplitPoint | ai_processing/compaction.py:19-20 | the kept suffix is min(3, n) long |
| Compaction.SplitPartitions | ai_processing/compaction.py:14-20 | summarised then kept is the whole list; full mode summarises everything; otherwise the last min(3, n) are kept |
| Compaction.SummaryMessage | ai_processing/compaction.py:38-40 | a role/content message |
| Compaction.CompactHistory | ai_processing/compaction.py:6-46 | one developer summary of the summarised part, then the kept messages unchanged and in order; length 1 + min(3, n), or 1 in full mode |
| Compaction.CompactionBounded | ai_processing/compaction.py:12-46 | at most 4 messages result, fewer than the input when it has more than 4 |
| BillingCompaction.ItemLine | agents/billing/compaction.py:47-57 | an item fails exactly when it is a dict whose role is not text |
| BillingCompaction.HistoryText | agents/billing/compaction.py:44-58 | formatting only fails by a missing `capitalize` |
| BillingCompaction.HistoryTextFails | agents/billing/compaction.py:44-58 | formatting fails if and only if some item's role is not text |
| BillingCompaction.FormatMessagesToString | agents/billing/compaction.py:44-58 | the accumulating loop gives the specified text or failure |
| BillingCompaction.CompactConversation | agents/billing/compaction.py:8-42 | up to 10 messages come back unchanged; above that, one system summary of the first n-4 and the last 4 unchanged |
| BillingCompaction.CompactionIdempotent | agents/billing/compaction.py:14-21 | compacting a compacted list changes nothing |
| ChatStore.Sanitize | memory/chat_manager.py:129-140 | same length and order; each entry keeps only role and content, None when missing |
| ChatStore.SanitizeIdempotent | memory/chat_manager.py:129-140 | sanitising twice is sanitising once |
| ChatStore.StoredMessage | memory/chat_manager.py:44-48 | a stored entry has role, content and timestamp |
| ChatStore.ReadThread | memory/chat_manager.py:71-95 | none exactly when the thread is missing; otherwise role/content entries only |
| ChatStore.CompactedIsSanitized | memory/chat_manager.py:81-83 | the compacted history is already sanitised |
| ChatStore.ChatManager.constructor | memory/chat_manager.py:12-22 | the store is bound to one user and thread |
| ChatStore.ChatManager.CreateThread | memory/chat_manager.py:24-37 | inserts an empty history only when the thread is missing; an existing thread is untouched |
| ChatStore.ChatManager.AddMessage | memory/chat_manager.py:42-59 | creates the thread when missing, then appends exactly one entry at the end |
| ChatStore.ChatManager.UpdateHistory | memory/chat_manager.py:97-104 | replaces the whole history of an existing thread |
| ChatStore.ChatManager.ClearHistory | memory/chat_manager.py:110-121 | the thread exists afterwards with an empty history |
| ChatStore.ChatManager.GetThreadMessages | memory/chat_manager.py:66-95 | none for a missing thread; up to 10 entries come back sanitised with the store unchanged; above 10 the compacted 4 are stored and returned |
| ConversationHelper.ConvertMessageAsWritten | ai_processing/conversation_helper.py:5-26 | human, AI and tool messages map to their roles with content kept; other kinds give {}; a system message raises |
| ConversationHelper.SystemMessageFails | ai_processing/conversation_helper.py:23-24 | converting a system message fails with a missing `append` |
| ConversationHelper.ConvertMessage | ai_processing/conversation_helper.py:5-26 | each kind maps to its role with content kept, a system message to role "system"; only tool messages carry `tool_call_id`; other kinds give {} |
| ConversationHelper.ConvertMessageAgrees | ai_processing/conversation_helper.py:11-26 | the corrected mapping agrees with the code on every kind but the system message |
| ConversationHelper.ApiRole | ai_processing/conversation_helper.py:13-26 | the role of each message kind; `ConvertMessage` and `ConvertMessageAgrees` state the dict each kind becomes |

## Left out

- Language models are oracles and are not modelled. This covers:
  - the client classes (ai_processing/llm_client.py, ai_processing/get_response.py, `Get_response` in xyz.py);
  - the `generate_*` texts, `generate_routing_message` and `compile_final_response_with_llm` in xyz.py; each is a field of `DraftReplies`;
  - the summariser of both compactors.
- The call at agents/base_agent.py:97 uses keywords that `LLM_Client.invoke` does not accept. The model takes the client's replies as given.
- `generate_casual_response` (xyz.py:426-455) is deprecated and never called.
- `json.loads` and `json.dumps` are left opaque. So are `str()` of floats and containers, the `:.2f` format, `float()` on text and exception texts. The model checks only the branches around them.
- The decoder parameter `parse` is unconstrained, so it may accept the empty text, which `json.loads("")` never does. With Python's decoder an empty cleaned reply therefore always yields the "Failed to parse JSON" dict; `BaseAgent.ParseLlmResponse` states that outcome for every decoder that refuses the empty text.
- The retriever (memory/retriever.py) is a function from the first message's content to text.
- The vector store and ingestion are not part of this model.
- Prompt texts are not part of this model. agents/billing/compaction.py:1 imports a `SUMMARY_PROMPT` that agents/billing/prompt.py does not define, so that module cannot be imported. The summary prompt is left opaque.
- MongoDB is a map from (uid, tid) to a history. Left out:
  - client construction and the unique index;
  - `modified_count` logging;
  - the "Error creating thread" path, which needs a database failure.
- Timestamps are a parameter. All messages one worker step stores share one timestamp.
- memory/chat_manager.py:89-90 is unreachable: a compacted history of at most 4 messages is always shorter than the more than 10 it replaces. The model has no such branch.
- The terminal front end (main.py) is not part of this model. Neither are the `input()` and `print` in ai_processing/human_input_node.py:16-17 and the `print` in ai_processing/conversation_helper.py:10. The user's reply is a parameter.
- langgraph's graph construction and compilation are not modelled. Only the routers and edge tables are, as transition functions.
- ai_processing/graph.py:14-15 builds a client when the module is imported. ai_processing/graph.py:52-53 passes `llm_client=` to nodes that do not accept it. The model does not include these calls.
- agents/billing/factory.py, agents/troubleshoot/troubleshoot.py and utils/logger.py are not part of this model.
- Rounds.OneInProgressPerRound holds only for rounds that start with every task PENDING or COMPLETED. When troubleshooting asks for the product model (agents/troubleshoot/troubleshoot_agent.py:18-21), its task stays IN_PROGRESS. The supervisor ignores `needs_human_input` and hands out the next ready task too, as `Rounds.AskedTaskStaysInProgress` shows.
- The system has no stall detection, no cycle or dangling-id validation, and nothing sets FAILED. The model states this as behaviour: `Supervisor.SupervisorNode` finishes whenever nothing is ready, and `BaseAgent.StepNeverFails` proves no task becomes FAILED.
- In agents/graph.py no edge leads to `human_input`, so that node never runs there (`AgentsGraph.AgentsNext`).
- BaseAgent.BaseAgentNode.AnalyzeRequest: the tool-call recursion has no cap. The model runs it over a finite sequence of model replies. Running out of replies stands for Python's recursion limit (a `RecursionError`, caught by the worker).
- BaseAgent.ActionOf: a `message` value that is not text is stored as its `str()`. The model keeps `human_input_prompt` and results as text, while the source stores the object itself.
- BaseAgent.StepOnCurrent requires distinct task ids. `_mark_task_completed` completes the first task carrying the current task's id, which is a different task when ids repeat. `BaseAgent.MarkCompleted` states the general case.
- The worker's parser and the draft file's `StripFences` clean fences differently. The worker (`BaseAgent.CleanResponse`) applies the regular expression `^```(?:json)?`, removing one leading fence. The draft removes a leading "```json" and then a leading "```". So "```json```x```" cleans to "```x" in the worker and to "x" in the draft. Each is modelled as written.
- DraftSupervisor.TaskFromJson: the source copies whatever values an entry holds. The model accepts only entries with text id, description and agent, a list of text dependencies and an integer priority. Any other entry makes the whole decomposition `([], None)`, which in the source happens only through the exceptions a missing key raises.
- DraftSupervisor.CasualReply: a truthy model message that is not text would be posted as an object. The model treats it as a failed turn.
- PyText.Lower and PyText.Capitalize handle ASCII letters only.
- Floats are reals. The refund amount is compared without modelling NaN or infinities.

## Findings

| source | as written | input that shows it | evidently intended | confidence | as-written member | corrected member |
|---|---|---|---|---|---|---|
| ai_processing/conversation_helper.py:23-24 | the SystemMessage branch calls `append` on the dict `formatted_mssg`, which raises AttributeError | any `SystemMessage(content=c)` | return `{"role": "system", "content": c}` like the other branches | high; not executed | ConversationHelper.SystemMessageFails | ConversationHelper.ConvertMessage |
