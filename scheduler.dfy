/** The task scheduler, `get_next_task` (agents/supervisor/supervisor_agent.py,
    identical in xyz.py): the PENDING tasks whose dependencies are met, the
    one with the lowest priority number among them, earliest in the list on
    ties (Python's `sorted` is stable). */
module Scheduler {
  import opened Wrappers
  import opened States

  /** `next((t for t in subtasks if t["task_id"] == id), None)`: the position
      of the first task with that id. */
  function FindById(tasks: seq<SubTask>, id: string): (r: Option<nat>)
    ensures r.Some? ==> r.value < |tasks| && tasks[r.value].taskId == id
    ensures r.Some? ==> forall k :: 0 <= k < r.value ==> tasks[k].taskId != id
    ensures r.None? ==> forall k :: 0 <= k < |tasks| ==> tasks[k].taskId != id
  {
    if tasks == [] then None
    else if tasks[0].taskId == id then Some(0)
    else match FindById(tasks[1..], id)
      case None => None
      case Some(k) => Some(k + 1)
  }

  /** A dependency holds back a task only when the first task with that id
      exists and is not COMPLETED; an id naming no task counts as met. */
  predicate DependencyMet(tasks: seq<SubTask>, dep: string) {
    match FindById(tasks, dep)
    case None => true
    case Some(k) => tasks[k].status == Completed
  }

  /** Task `i` may run now: it is PENDING and all its dependencies are met. */
  predicate IsReady(tasks: seq<SubTask>, i: nat)
    requires i < |tasks|
  {
    tasks[i].status == Pending
    && forall d :: d in tasks[i].dependencies ==> DependencyMet(tasks, d)
  }

  /** Task `i` is the one `sorted(available, key=priority)[0]` yields: ready,
      no ready task has a lower priority number, and every ready task before
      it has a strictly higher one. */
  predicate IsNextChoice(tasks: seq<SubTask>, i: nat) {
    i < |tasks| && IsReady(tasks, i)
    && (forall j :: 0 <= j < |tasks| && IsReady(tasks, j) ==> tasks[i].priority <= tasks[j].priority)
    && (forall j :: 0 <= j < i && IsReady(tasks, j) ==> tasks[i].priority < tasks[j].priority)
  }

  /** The ready positions below `n`, in list order: `available_tasks` after
      the first `n` iterations. */
  function ReadyBelow(tasks: seq<SubTask>, n: nat): (r: seq<nat>)
    requires n <= |tasks|
    ensures forall k :: 0 <= k < |r| ==> r[k] < n && IsReady(tasks, r[k])
    ensures forall j :: 0 <= j < n && IsReady(tasks, j) ==> j in r
    ensures forall a, b :: 0 <= a < b < |r| ==> r[a] < r[b]
  {
    if n == 0 then []
    else ReadyBelow(tasks, n - 1) + (if IsReady(tasks, n - 1) then [n - 1] else [])
  }

  /** Position in `avail` of the first entry with the least priority. */
  function FirstMinimumPos(tasks: seq<SubTask>, avail: seq<nat>): (p: nat)
    requires avail != [] && forall k :: 0 <= k < |avail| ==> avail[k] < |tasks|
    ensures p < |avail|
    ensures forall k :: 0 <= k < |avail| ==> tasks[avail[p]].priority <= tasks[avail[k]].priority
    ensures forall k :: 0 <= k < p ==> tasks[avail[p]].priority < tasks[avail[k]].priority
  {
    if |avail| == 1 then 0
    else
      var p := FirstMinimumPos(tasks, avail[..|avail| - 1]);
      if tasks[avail[|avail| - 1]].priority < tasks[avail[p]].priority then |avail| - 1 else p
  }

  /** The task `get_next_task` returns, as a position in `tasks`. */
  function NextReady(tasks: seq<SubTask>): Option<nat> {
    var avail := ReadyBelow(tasks, |tasks|);
    if avail == [] then None else Some(avail[FirstMinimumPos(tasks, avail)])
  }

  /** The scheduler's result is exactly the choice the source promises, and
      it reports "nothing to run" exactly when no task is ready. */
  lemma NextReadyIsNextChoice(tasks: seq<SubTask>)
    ensures NextReady(tasks).Some? ==> IsNextChoice(tasks, NextReady(tasks).value)
    ensures NextReady(tasks).None? <==> forall i :: 0 <= i < |tasks| ==> !IsReady(tasks, i)
  {
    var avail := ReadyBelow(tasks, |tasks|);
    if avail != [] {
      var p := FirstMinimumPos(tasks, avail);
      var i := avail[p];
      forall j | 0 <= j < |tasks| && IsReady(tasks, j)
        ensures tasks[i].priority <= tasks[j].priority
        ensures j < i ==> tasks[i].priority < tasks[j].priority
      {
        var k :| 0 <= k < |avail| && avail[k] == j;
        if j < i {
          assert k < p;
        }
      }
    }
  }

  /** While some task is ready, the scheduler returns a task. */
  lemma ReadyMeansSome(tasks: seq<SubTask>, j: nat)
    requires j < |tasks| && IsReady(tasks, j)
    ensures NextReady(tasks).Some?
  {
    assert j in ReadyBelow(tasks, |tasks|);
  }

  /** At most one position satisfies the selection rule, so "the next task"
      is well defined. */
  lemma NextChoiceUnique(tasks: seq<SubTask>, i: nat, j: nat)
    requires IsNextChoice(tasks, i) && IsNextChoice(tasks, j)
    ensures i == j
  {
  }

  /** Both directions: `NextReady` returns `i` exactly when `i` is the task
      the selection rule names. */
  lemma NextReadyExactly(tasks: seq<SubTask>, i: nat)
    ensures NextReady(tasks) == Some(i) <==> IsNextChoice(tasks, i)
  {
    NextReadyIsNextChoice(tasks);
    if IsNextChoice(tasks, i) {
      assert NextReady(tasks).Some?;
      NextChoiceUnique(tasks, i, NextReady(tasks).value);
    }
  }

  /** The inner loop of `get_next_task`: whether every dependency in `deps`
      is met, stopping at the first that is not. */
  method AllDependenciesMet(tasks: seq<SubTask>, deps: seq<string>) returns (met: bool)
    ensures met <==> forall d :: d in deps ==> DependencyMet(tasks, d)
  {
    met := true;
    var d := 0;
    while d < |deps|
      invariant d <= |deps|
      invariant forall e :: 0 <= e < d ==> DependencyMet(tasks, deps[e])
    {
      var dep := FindById(tasks, deps[d]);
      if dep.Some? && tasks[dep.value].status != Completed {
        assert !DependencyMet(tasks, deps[d]) && deps[d] in deps;
        met := false;
        return;
      }
      d := d + 1;
    }
  }

  /** `sorted(available, key=priority)[0]`, as one pass that keeps the
      first entry of least priority seen so far. */
  method LeastPriorityPos(tasks: seq<SubTask>, avail: seq<nat>) returns (best: nat)
    requires avail != [] && forall k :: 0 <= k < |avail| ==> avail[k] < |tasks|
    ensures best == FirstMinimumPos(tasks, avail)
  {
    best := 0;
    var k := 1;
    while k < |avail|
      invariant 1 <= k <= |avail|
      invariant best == FirstMinimumPos(tasks, avail[..k])
    {
      var prefix := avail[..k + 1];
      assert prefix[..|prefix| - 1] == avail[..k];
      if tasks[avail[k]].priority < tasks[avail[best]].priority {
        best := k;
      }
      k := k + 1;
    }
    assert avail[..k] == avail;
  }

  /** `get_next_task`: collect the ready tasks in list order, then take the
      first one of least priority (what `sorted(...)[0]` returns). */
  method GetNextTask(tasks: seq<SubTask>) returns (next: Option<nat>)
    ensures next == NextReady(tasks)
  {
    var available: seq<nat> := [];
    var i := 0;
    while i < |tasks|
      invariant i <= |tasks|
      invariant available == ReadyBelow(tasks, i)
    {
      if tasks[i].status == Pending {
        var met := AllDependenciesMet(tasks, tasks[i].dependencies);
        if met {
          available := available + [i];
        }
      }
      i := i + 1;
    }
    if available == [] {
      next := None;
    } else {
      var best := LeastPriorityPos(tasks, available);
      next := Some(available[best]);
    }
  }

  /** How many tasks have status `st`. */
  function CountStatus(tasks: seq<SubTask>, st: TaskStatus): nat {
    if tasks == [] then 0
    else (if tasks[0].status == st then 1 else 0) + CountStatus(tasks[1..], st)
  }

  /** No two tasks share an id. */
  predicate UniqueIds(tasks: seq<SubTask>) {
    forall a, b :: 0 <= a < b < |tasks| ==> tasks[a].taskId != tasks[b].taskId
  }

  /** Setting a status other than PENDING never adds a PENDING task, and it
      removes at least one when a PENDING task carries that id. */
  lemma {:induction false} SetStatusShrinksPending(tasks: seq<SubTask>, id: string, st: TaskStatus, i: nat)
    requires st != Pending && i < |tasks| && tasks[i].taskId == id && tasks[i].status == Pending
    ensures CountStatus(SetStatusById(tasks, id, st), Pending) < CountStatus(tasks, Pending)
  {
    var r := SetStatusById(tasks, id, st);
    assert r[1..] == SetStatusById(tasks[1..], id, st);
    if i == 0 {
      SetStatusKeepsPendingBound(tasks[1..], id, st);
    } else {
      SetStatusShrinksPending(tasks[1..], id, st, i - 1);
    }
  }

  lemma {:induction false} SetStatusKeepsPendingBound(tasks: seq<SubTask>, id: string, st: TaskStatus)
    requires st != Pending
    ensures CountStatus(SetStatusById(tasks, id, st), Pending) <= CountStatus(tasks, Pending)
  {
    if tasks != [] {
      assert SetStatusById(tasks, id, st)[1..] == SetStatusById(tasks[1..], id, st);
      SetStatusKeepsPendingBound(tasks[1..], id, st);
    }
  }

  /** Completing tasks never adds a PENDING task. */
  lemma {:induction false} CompleteKeepsPendingBound(tasks: seq<SubTask>, id: string, result: string)
    ensures CountStatus(CompleteById(tasks, id, result), Pending) <= CountStatus(tasks, Pending)
  {
    if tasks != [] {
      assert CompleteById(tasks, id, result)[1..] == CompleteById(tasks[1..], id, result);
      CompleteKeepsPendingBound(tasks[1..], id, result);
    }
  }
  /** Marking the task with a unique id IN_PROGRESS, in a list where no task
      was IN_PROGRESS, leaves exactly one task IN_PROGRESS. */
  lemma {:induction false} SetStatusOneInProgress(tasks: seq<SubTask>, i: nat)
    requires UniqueIds(tasks) && i < |tasks|
    requires forall k :: 0 <= k < |tasks| ==> tasks[k].status != InProgress
    ensures CountStatus(SetStatusById(tasks, tasks[i].taskId, InProgress), InProgress) == 1
  {
    var id := tasks[i].taskId;
    var r := SetStatusById(tasks, id, InProgress);
    assert r[1..] == SetStatusById(tasks[1..], id, InProgress);
    if i == 0 {
      NoneInProgressWithoutId(tasks[1..], id);
    } else {
      assert tasks[0].taskId != id;
      SetStatusOneInProgress(tasks[1..], i - 1);
    }
  }

  /** Marking an id that no task carries adds no IN_PROGRESS task to a list
      that has none. */
  lemma {:induction false} NoneInProgressWithoutId(tasks: seq<SubTask>, id: string)
    requires forall k :: 0 <= k < |tasks| ==> tasks[k].taskId != id && tasks[k].status != InProgress
    ensures CountStatus(SetStatusById(tasks, id, InProgress), InProgress) == 0
  {
    if tasks != [] {
      assert SetStatusById(tasks, id, InProgress)[1..] == SetStatusById(tasks[1..], id, InProgress);
      NoneInProgressWithoutId(tasks[1..], id);
    }
  }
}
