/** The keyword supervisor (agents/supervisor/supervisor_agent.py): it splits
    the customer's query into subtasks by keyword, hands the next ready task
    to its agent, and writes the closing summary once nothing is left. */
module Supervisor {
  import opened Wrappers
  import opened PyText
  import opened States
  import opened Scheduler

  /** One of the four request kinds `decompose_query` recognises. */
  datatype Category = Category(
    words: seq<string>,
    description: string,
    agent: string,
    priority: int,
    afterFirst: bool)   // depends on "task_1" when another task precedes it

  const TroubleWords: seq<string> := ["not working", "broken", "issue", "problem", "error"]
  const WarrantyWords: seq<string> := ["warranty", "coverage", "guarantee"]
  const BillingWords: seq<string> := ["bill", "charge", "payment", "invoice", "refund"]
  const ReturnWords: seq<string> := ["return", "send back", "return policy"]

  const TroubleCategory := Category(TroubleWords, "troubleshoot the product issue", "troubleshoot", 1, false)
  const WarrantyCategory := Category(WarrantyWords, "check warranty status", "warranty", 2, true)
  const BillingCategory := Category(BillingWords, "handle billing inquiry", "billing", 2, false)
  const ReturnsCategory := Category(ReturnWords, "process return request", "returns", 3, true)

  /** The categories in the order `decompose_query` tests them. */
  const Categories: seq<Category> := [TroubleCategory, WarrantyCategory, BillingCategory, ReturnsCategory]

  /** The subtask created for category `c` when `k` tasks precede it. */
  function TaskFor(c: Category, k: nat): SubTask {
    SubTask("task_" + NatToDecimal(k + 1), c.description, c.agent, Pending, None,
            if c.afterFirst && k > 0 then ["task_1"] else [], c.priority)
  }

  /** The tasks for the categories `cats` whose words occur in `ql`, when `k`
      tasks were already created. */
  function PlanFrom(ql: string, cats: seq<Category>, k: nat): seq<SubTask> {
    if cats == [] then []
    else if ContainsAny(ql, cats[0].words) then [TaskFor(cats[0], k)] + PlanFrom(ql, cats[1..], k + 1)
    else PlanFrom(ql, cats[1..], k)
  }

  /** The subtasks `decompose_query(query)` returns. */
  function KeywordPlan(query: string): seq<SubTask> {
    PlanFrom(Lower(query), Categories, 0)
  }

  /** One category further: the tasks made so far, followed by the plan for
      the categories still to test, always make up the whole plan. */
  lemma PlanAdvance(done: seq<SubTask>, ql: string, cats: seq<Category>, whole: seq<SubTask>)
    requires cats != [] && done + PlanFrom(ql, cats, |done|) == whole
    ensures var next := if ContainsAny(ql, cats[0].words) then done + [TaskFor(cats[0], |done|)] else done;
      next + PlanFrom(ql, cats[1..], |next|) == whole
  {
    if ContainsAny(ql, cats[0].words) {
      var t := TaskFor(cats[0], |done|);
      assert done + ([t] + PlanFrom(ql, cats[1..], |done| + 1)) == (done + [t]) + PlanFrom(ql, cats[1..], |done| + 1);
    }
  }

  /** One `if` block of `decompose_query`: when one of the category's words
      occurs, append its task, numbered by the running counter, and advance
      the counter. */
  method AddIfMentioned(tasks: seq<SubTask>, taskCounter: nat, ql: string, c: Category)
    returns (tasks': seq<SubTask>, taskCounter': nat)
    requires taskCounter == |tasks| + 1
    ensures tasks' == if ContainsAny(ql, c.words) then tasks + [TaskFor(c, |tasks|)] else tasks
    ensures taskCounter' == |tasks'| + 1
  {
    tasks', taskCounter' := tasks, taskCounter;
    if ContainsAny(ql, c.words) {
      tasks' := tasks + [SubTask("task_" + NatToDecimal(taskCounter), c.description, c.agent, Pending, None,
                                 if c.afterFirst && tasks != [] then ["task_1"] else [], c.priority)];
      taskCounter' := taskCounter + 1;
    }
  }

  /** `decompose_query`: the four category tests in order, numbering the
      tasks with a running counter. */
  method DecomposeQuery(query: string) returns (tasks: seq<SubTask>)
    ensures tasks == KeywordPlan(query)
  {
    tasks := [];
    var ql := Lower(query);
    var taskCounter: nat := 1;
    ghost var whole := KeywordPlan(query);

    assert Categories[0] == TroubleCategory && Categories[1..][0] == WarrantyCategory;
    assert Categories[2..][0] == BillingCategory && Categories[3..][0] == ReturnsCategory;
    assert Categories[1..][1..] == Categories[2..] && Categories[2..][1..] == Categories[3..];
    assert Categories[3..][1..] == [];

    PlanAdvance(tasks, ql, Categories, whole);
    tasks, taskCounter := AddIfMentioned(tasks, taskCounter, ql, TroubleCategory);
    PlanAdvance(tasks, ql, Categories[1..], whole);
    tasks, taskCounter := AddIfMentioned(tasks, taskCounter, ql, WarrantyCategory);
    PlanAdvance(tasks, ql, Categories[2..], whole);
    tasks, taskCounter := AddIfMentioned(tasks, taskCounter, ql, BillingCategory);
    PlanAdvance(tasks, ql, Categories[3..], whole);
    tasks, taskCounter := AddIfMentioned(tasks, taskCounter, ql, ReturnsCategory);
    assert tasks + [] == tasks;
  }

  /** The task at position `k` of a plan was made for a category whose
      words occur in the query, numbered after the `n` earlier tasks. */
  lemma {:induction false} PlanPick(ql: string, cats: seq<Category>, n: nat, k: nat) returns (m: nat)
    requires k < |PlanFrom(ql, cats, n)|
    ensures m < |cats| && ContainsAny(ql, cats[m].words)
    ensures PlanFrom(ql, cats, n)[k] == TaskFor(cats[m], n + k)
  {
    assert cats != [];
    if ContainsAny(ql, cats[0].words) && k == 0 {
      m := 0;
    } else {
      var d := if ContainsAny(ql, cats[0].words) then 1 else 0;
      var tail := PlanFrom(ql, cats[1..], n + d);
      assert PlanFrom(ql, cats, n) == (if d == 1 then [TaskFor(cats[0], n)] else []) + tail;
      assert PlanFrom(ql, cats, n)[k] == tail[k - d];
      var m1 := PlanPick(ql, cats[1..], n + d, k - d);
      assert cats[1..][m1] == cats[m1 + 1];
      m := m1 + 1;
    }
  }

  /** A category whose words occur in the query has its task in the plan. */
  lemma {:induction false} PlanHas(ql: string, cats: seq<Category>, n: nat, m: nat) returns (k: nat)
    requires m < |cats| && ContainsAny(ql, cats[m].words)
    ensures k < |PlanFrom(ql, cats, n)| && PlanFrom(ql, cats, n)[k] == TaskFor(cats[m], n + k)
  {
    var d := if ContainsAny(ql, cats[0].words) then 1 else 0;
    if m == 0 {
      k := 0;
    } else {
      var tail := PlanFrom(ql, cats[1..], n + d);
      assert PlanFrom(ql, cats, n) == (if d == 1 then [TaskFor(cats[0], n)] else []) + tail;
      assert cats[1..][m - 1] == cats[m];
      var k1 := PlanHas(ql, cats[1..], n + d, m - 1);
      assert PlanFrom(ql, cats, n)[k1 + d] == tail[k1];
      k := k1 + d;
    }
  }

  /** A plan has at most one task per category. */
  lemma {:induction false} PlanLength(ql: string, cats: seq<Category>, n: nat)
    ensures |PlanFrom(ql, cats, n)| <= |cats|
  {
    if cats != [] {
      PlanLength(ql, cats[1..], n);
      PlanLength(ql, cats[1..], n + 1);
    }
  }

  /** Every category that does not wait for the first task has a priority
      number no smaller than those of the categories tested before it. */
  predicate PrioritiesOrdered(cats: seq<Category>) {
    forall a, b :: 0 <= a < b < |cats| && !cats[b].afterFirst ==> cats[a].priority <= cats[b].priority
  }

  /** In a plan, a later task without dependencies never has a smaller
      priority number than the first task. */
  lemma {:induction false} PlanFirstLeast(ql: string, cats: seq<Category>, n: nat)
    requires PrioritiesOrdered(cats)
    ensures forall j :: 0 < j < |PlanFrom(ql, cats, n)| && PlanFrom(ql, cats, n)[j].dependencies == [] ==>
      PlanFrom(ql, cats, n)[0].priority <= PlanFrom(ql, cats, n)[j].priority
  {
    if cats != [] {
      var plan := PlanFrom(ql, cats, n);
      if ContainsAny(ql, cats[0].words) {
        var tail := PlanFrom(ql, cats[1..], n + 1);
        assert plan == [TaskFor(cats[0], n)] + tail;
        forall j | 0 < j < |plan| && plan[j].dependencies == []
          ensures plan[0].priority <= plan[j].priority
        {
          var m := PlanPick(ql, cats[1..], n + 1, j - 1);
          assert plan[j] == tail[j - 1];
          assert cats[1..][m] == cats[m + 1];
        }
      } else {
        assert forall a, b :: 0 <= a < b < |cats[1..]| ==> cats[1..][a] == cats[a + 1] && cats[1..][b] == cats[b + 1];
        PlanFirstLeast(ql, cats[1..], n);
      }
    }
  }

  /** The facts about the four categories the plan lemmas rely on. */
  lemma CategoriesFacts()
    ensures |Categories| == 4 && PrioritiesOrdered(Categories)
    ensures forall m :: 0 <= m < 4 ==> IsWorkerName(Categories[m].agent) && 1 <= Categories[m].priority <= 3
    ensures forall a, b :: 0 <= a < b < 4 ==> Categories[a].agent != Categories[b].agent
  {
  }

  /** What every plan looks like: at most four tasks numbered "task_1",
      "task_2", ... in order, all PENDING without a result, each for one of
      the four worker agents, and the only dependency any of them has is on
      the first task, never from the first task itself. */
  predicate WellPlanned(plan: seq<SubTask>) {
    |plan| <= 4
    && forall k :: 0 <= k < |plan| ==>
      plan[k].taskId == "task_" + [DigitChar(k + 1)] && plan[k].status == Pending && plan[k].result == None
      && IsWorkerName(plan[k].agent) && 1 <= plan[k].priority <= 3
      && (plan[k].dependencies == [] || (k > 0 && plan[k].dependencies == ["task_1"]))
  }

  /** Every keyword plan has that shape. */
  lemma PlanShape(query: string)
    ensures WellPlanned(KeywordPlan(query))
  {
    var ql := Lower(query);
    var plan := KeywordPlan(query);
    PlanLength(ql, Categories, 0);
    CategoriesFacts();
    forall k | 0 <= k < |plan|
      ensures plan[k].taskId == "task_" + [DigitChar(k + 1)] && plan[k].status == Pending && plan[k].result == None
      ensures IsWorkerName(plan[k].agent) && 1 <= plan[k].priority <= 3
      ensures plan[k].dependencies == [] || (k > 0 && plan[k].dependencies == ["task_1"])
    {
      var m := PlanPick(ql, Categories, 0, k);
    }
  }

  /** The plan has a task for an agent exactly when the query (lower-cased)
      contains one of that agent's words. */
  lemma PlanCoversCategory(query: string, m: nat)
    requires m < |Categories|
    ensures (exists k :: 0 <= k < |KeywordPlan(query)| && KeywordPlan(query)[k].agent == Categories[m].agent)
        <==> ContainsAny(Lower(query), Categories[m].words)
  {
    var ql := Lower(query);
    var plan := KeywordPlan(query);
    CategoriesFacts();
    if ContainsAny(ql, Categories[m].words) {
      var k := PlanHas(ql, Categories, 0, m);
      assert plan[k].agent == Categories[m].agent;
    }
    if exists k :: 0 <= k < |plan| && plan[k].agent == Categories[m].agent {
      var k :| 0 <= k < |plan| && plan[k].agent == Categories[m].agent;
      var m1 := PlanPick(ql, Categories, 0, k);
      assert m1 == m;
    }
  }

  /** The task ids of a plan are pairwise distinct. */
  lemma PlanIdsUnique(query: string)
    ensures UniqueIds(KeywordPlan(query))
  {
    PlanShape(query);
    WellPlannedIdsUnique(KeywordPlan(query));
  }

  lemma WellPlannedIdsUnique(plan: seq<SubTask>)
    requires WellPlanned(plan)
    ensures UniqueIds(plan)
  {
    forall a, b | 0 <= a < b < |plan|
      ensures plan[a].taskId != plan[b].taskId
    {
      assert plan[a].taskId[5] == DigitChar(a + 1);
      assert plan[b].taskId[5] == DigitChar(b + 1);
    }
  }

  /** A fresh plan always starts with its first task: nothing else is ready
      with a smaller priority number, whatever the query. */
  lemma PlanStartsWithFirst(query: string)
    requires KeywordPlan(query) != []
    ensures NextReady(KeywordPlan(query)) == Some(0)
  {
    PlanShape(query);
    CategoriesFacts();
    PlanFirstLeast(Lower(query), Categories, 0);
    WellPlannedStartsWithFirst(KeywordPlan(query));
  }

  lemma WellPlannedStartsWithFirst(plan: seq<SubTask>)
    requires WellPlanned(plan) && plan != []
    requires forall j :: 0 < j < |plan| && plan[j].dependencies == [] ==> plan[0].priority <= plan[j].priority
    ensures NextReady(plan) == Some(0)
  {
    assert plan[0].taskId == "task_1";
    assert FindById(plan, "task_1") == Some(0);
    forall j | 0 < j < |plan| && plan[j].dependencies != []
      ensures !IsReady(plan, j)
    {
      assert plan[j].dependencies[0] == "task_1";
      assert !DependencyMet(plan, "task_1");
    }
    NextReadyExactly(plan, 0);
  }

  /** A plan whose tasks have moved only between PENDING and COMPLETED:
      same ids, agents, dependencies and priorities as the plan. */
  predicate Progressed(tasks: seq<SubTask>, plan: seq<SubTask>) {
    |tasks| == |plan|
    && forall k :: 0 <= k < |tasks| ==>
      tasks[k].taskId == plan[k].taskId && tasks[k].agent == plan[k].agent
      && tasks[k].dependencies == plan[k].dependencies && tasks[k].priority == plan[k].priority
      && (tasks[k].status == Pending || tasks[k].status == Completed)
  }

  /** A keyword plan never stalls: while a task is still PENDING and none is
      in progress, the scheduler has one to hand out. */
  lemma PlanNeverStalls(query: string, tasks: seq<SubTask>, p: nat)
    requires Progressed(tasks, KeywordPlan(query))
    requires p < |tasks| && tasks[p].status == Pending
    ensures NextReady(tasks).Some?
  {
    PlanShape(query);
    WellPlannedNeverStalls(KeywordPlan(query), tasks, p);
  }

  lemma WellPlannedNeverStalls(plan: seq<SubTask>, tasks: seq<SubTask>, p: nat)
    requires WellPlanned(plan) && Progressed(tasks, plan)
    requires p < |tasks| && tasks[p].status == Pending
    ensures NextReady(tasks).Some?
  {
    assert tasks[0].taskId == plan[0].taskId == "task_1";
    assert FindById(tasks, "task_1") == Some(0);
    if tasks[0].status == Pending {
      assert tasks[0].dependencies == plan[0].dependencies == [];
      assert IsReady(tasks, 0);
      ReadyMeansSome(tasks, 0);
    } else {
      assert DependencyMet(tasks, "task_1");
      assert tasks[p].dependencies == plan[p].dependencies;
      assert tasks[p].dependencies == [] || tasks[p].dependencies == ["task_1"];
      assert IsReady(tasks, p);
      ReadyMeansSome(tasks, p);
    }
  }

  /** A task appears in the summary when it is COMPLETED with a non-empty
      result. */
  predicate Reported(t: SubTask) {
    t.status == Completed && t.result.Some? && t.result.value != ""
  }

  function Bullet(t: SubTask): string
    requires t.result.Some?
  {
    "- " + Capitalize(t.description) + ": " + t.result.value
  }

  function Bullets(tasks: seq<SubTask>): seq<string> {
    if tasks == [] then []
    else (if Reported(tasks[0]) then [Bullet(tasks[0])] else []) + Bullets(tasks[1..])
  }

  const SummaryHeader := "Here's a summary of what we've addressed:\n"
  const SummaryFooter := "\nIs there anything else I can help you with?"

  /** `compile_final_response`. */
  function CompileFinalResponse(tasks: seq<SubTask>): string {
    Join([SummaryHeader] + Bullets(tasks) + [SummaryFooter], "\n")
  }

  lemma {:induction false} BulletsCover(tasks: seq<SubTask>, i: nat)
    requires i < |tasks| && Reported(tasks[i])
    ensures Bullet(tasks[i]) in Bullets(tasks)
  {
    if i > 0 {
      BulletsCover(tasks[1..], i - 1);
    }
  }

  /** The summary opens with the header line. */
  lemma FinalResponseStarts(tasks: seq<SubTask>)
    ensures StartsWith(CompileFinalResponse(tasks), SummaryHeader + "\n")
  {
    assert [SummaryHeader] + Bullets(tasks) + [SummaryFooter] == [SummaryHeader] + (Bullets(tasks) + [SummaryFooter]);
    JoinStarts(SummaryHeader, Bullets(tasks) + [SummaryFooter], "\n");
  }

  /** The summary closes with the question. */
  lemma FinalResponseEnds(tasks: seq<SubTask>)
    ensures EndsWith(CompileFinalResponse(tasks), "\n" + SummaryFooter)
  {
    JoinEnds([SummaryHeader] + Bullets(tasks), SummaryFooter, "\n");
  }

  /** The summary carries a line for every task completed with a result. */
  lemma FinalResponseReports(tasks: seq<SubTask>, i: nat)
    requires i < |tasks| && Reported(tasks[i])
    ensures Contains(CompileFinalResponse(tasks), Bullet(tasks[i]))
  {
    var parts := [SummaryHeader] + Bullets(tasks) + [SummaryFooter];
    BulletsCover(tasks, i);
    var k :| 0 <= k < |Bullets(tasks)| && Bullets(tasks)[k] == Bullet(tasks[i]);
    assert parts[k + 1] == Bullet(tasks[i]);
    JoinContainsPart(parts, "\n", k + 1);
  }

  /** With nothing completed the summary is the header and the question
      alone. */
  lemma EmptySummary(tasks: seq<SubTask>)
    requires forall i :: 0 <= i < |tasks| ==> !Reported(tasks[i])
    ensures CompileFinalResponse(tasks)
      == SummaryHeader + "\n" + SummaryFooter
  {
    NoBullets(tasks);
    assert [SummaryHeader] + Bullets(tasks) + [SummaryFooter] == [SummaryHeader, SummaryFooter];
    assert [SummaryHeader, SummaryFooter][1..] == [SummaryFooter];
    assert Join([SummaryFooter], "\n") == SummaryFooter;
    assert CompileFinalResponse(tasks) == SummaryHeader + "\n" + SummaryFooter;
  }

  lemma {:induction false} NoBullets(tasks: seq<SubTask>)
    requires forall i :: 0 <= i < |tasks| ==> !Reported(tasks[i])
    ensures Bullets(tasks) == []
  {
    if tasks != [] {
      assert !Reported(tasks[0]);
      NoBullets(tasks[1..]);
    }
  }

  /** The message the supervisor posts when it hands out a task. */
  function HandOffMessage(description: string): string {
    "Let me help you with that. First, I'll " + description + "."
  }

  /** The dispatch branch of `supervisor_node`: every task with the chosen
      task's id becomes IN_PROGRESS, `current_task` refers to the chosen
      task, the next agent is its agent, and the supervisor posts `note`
      about what it is about to do. */
  method HandOff(s: AgentState, i: nat, note: string)
    requires i < |s.subtasks|
    modifies s`subtasks, s`currentTask, s`nextAgent, s`messages
    ensures s.subtasks == SetStatusById(old(s.subtasks), old(s.subtasks)[i].taskId, InProgress)
    ensures s.subtasks[i].status == InProgress && s.Valid()
    ensures s.currentTask == Some(i) && s.nextAgent == old(s.subtasks)[i].agent
    ensures s.messages == old(s.messages) + [AIMessage(note)]
  {
    var task := s.subtasks[i];
    s.SetStatusWhere(task.taskId, InProgress);
    s.currentTask := Some(i);
    s.nextAgent := task.agent;
    s.messages := s.messages + [AIMessage(note)];
  }

  /** The closing branch of `supervisor_node`: nothing is left to run, and
      `closing` becomes the final response. */
  method FinishRun(s: AgentState, closing: string)
    modifies s`allTasksCompleted, s`nextAgent, s`finalResponse
    ensures s.allTasksCompleted && s.nextAgent == "finish"
    ensures s.finalResponse == Some(closing)
  {
    s.allTasksCompleted := true;
    s.nextAgent := "finish";
    s.finalResponse := Some(closing);
  }

  /** `supervisor_node`: plan on the first visit (when there are no
      subtasks), then either hand the next ready task to its agent or, when
      none is ready, finish with the summary. */
  method SupervisorNode(s: AgentState)
    requires s.Valid()
    modifies s`subtasks, s`currentTask, s`nextAgent, s`messages, s`allTasksCompleted, s`finalResponse
    ensures s.Valid()
    ensures var plan := if old(s.subtasks) == [] then KeywordPlan(old(s.originalQuery)) else old(s.subtasks);
      match NextReady(plan)
      case None =>
        s.subtasks == plan && s.allTasksCompleted && s.nextAgent == "finish"
        && s.finalResponse == Some(CompileFinalResponse(plan))
        && s.currentTask == old(s.currentTask) && s.messages == old(s.messages)
      case Some(i) =>
        s.subtasks == SetStatusById(plan, plan[i].taskId, InProgress)
        && s.subtasks[i].status == InProgress
        && s.currentTask == Some(i) && s.nextAgent == plan[i].agent
        && s.messages == old(s.messages) + [AIMessage(HandOffMessage(plan[i].description))]
        && s.allTasksCompleted == old(s.allTasksCompleted) && s.finalResponse == old(s.finalResponse)
  {
    if s.subtasks == [] {
      var tasks := DecomposeQuery(s.originalQuery);
      s.subtasks := tasks;
    }
    var next := GetNextTask(s.subtasks);
    if next == None {
      FinishRun(s, CompileFinalResponse(s.subtasks));
    } else {
      HandOff(s, next.value, HandOffMessage(s.subtasks[next.value].description));
    }
  }
}
