/** ClaimNext: which queued task gets the next run (run.go, service.go). */
module Scheduler {
  import opened Model
  import opened Tables
  import opened RunSteps
  import opened Invariant
  import opened Evolution
  import opened MessageProofs
  import opened RunProofs
  import opened RunEffects
  import opened Store

  /** The order of sortRunnable: priority first, then age, then ID. */
  predicate Before(a: Task, b: Task) {
    if a.origin.priority != b.origin.priority then a.origin.priority > b.origin.priority
    else if a.origin.createdAt != b.origin.createdAt then a.origin.createdAt < b.origin.createdAt
    else a.id < b.id
  }

  predicate Runnable(s: Ledger, id: TaskId, project: Option<ProjectId>) {
    && id in s.tasks && s.tasks[id].status == TaskQueued && s.tasks[id].currentRun.None?
    && (project.Some? ==> s.tasks[id].origin.project == project.value)
  }

  /** The RunnableTasks query. */
  function RunnableBelow(s: Ledger, project: Option<ProjectId>, n: nat): (ids: seq<TaskId>)
    ensures forall k: TaskId :: k in ids <==> k < n && Runnable(s, k, project)
  {
    if n == 0 then []
    else RunnableBelow(s, project, n - 1) + (if Runnable(s, n - 1, project) then [n - 1] else [])
  }

  ghost predicate InOrder(s: Ledger, ids: seq<TaskId>) {
    && (forall k :: k in ids ==> k in s.tasks)
    && (forall i, j :: 0 <= i < j < |ids| ==> ids[i] == ids[j] || Before(s.tasks[ids[i]], s.tasks[ids[j]]))
  }

  function Insert(s: Ledger, id: TaskId, ids: seq<TaskId>): (sorted: seq<TaskId>)
    requires id in s.tasks && forall k :: k in ids ==> k in s.tasks
    ensures forall k :: k in sorted <==> k == id || k in ids
  {
    if ids == [] || Before(s.tasks[id], s.tasks[ids[0]]) then [id] + ids
    else
      var rest := Insert(s, id, ids[1..]);
      assert ids == [ids[0]] + ids[1..];
      [ids[0]] + rest
  }

  /** sortRunnable */
  function SortRunnable(s: Ledger, ids: seq<TaskId>): (sorted: seq<TaskId>)
    requires forall k :: k in ids ==> k in s.tasks
    ensures forall k :: k in sorted <==> k in ids
  {
    if ids == [] then []
    else
      assert ids == [ids[0]] + ids[1..];
      Insert(s, ids[0], SortRunnable(s, ids[1..]))
  }

  lemma {:induction false} InsertInOrder(s: Ledger, id: TaskId, ids: seq<TaskId>)
    requires forall k :: k in s.tasks ==> s.tasks[k].id == k
    requires id in s.tasks && InOrder(s, ids)
    ensures InOrder(s, Insert(s, id, ids))
  {
    if ids != [] && !Before(s.tasks[id], s.tasks[ids[0]]) {
      assert ids == [ids[0]] + ids[1..];
      InsertInOrder(s, id, ids[1..]);
      var rest := Insert(s, id, ids[1..]);
      forall k | k in rest
        ensures ids[0] == k || Before(s.tasks[ids[0]], s.tasks[k])
      {
      }
    }
  }

  lemma {:induction false} SortInOrder(s: Ledger, ids: seq<TaskId>)
    requires forall k :: k in s.tasks ==> s.tasks[k].id == k
    requires forall k :: k in ids ==> k in s.tasks
    ensures InOrder(s, SortRunnable(s, ids))
  {
    if ids != [] {
      SortInOrder(s, ids[1..]);
      InsertInOrder(s, ids[0], SortRunnable(s, ids[1..]));
    }
  }

  /** No task that could be claimed instead comes before `id`. */
  ghost predicate ComesFirst(s: Ledger, id: TaskId, project: Option<ProjectId>, now: Time) {
    id in s.tasks
    && forall k :: Runnable(s, k, project) && Claimable(s, k, now) ==> k == id || Before(s.tasks[id], s.tasks[k])
  }

  function Candidates(s: Ledger, project: Option<ProjectId>): (ids: seq<TaskId>) {
    SortRunnable(s, RunnableBelow(s, project, s.nextId))
  }

  lemma CandidatesAreAll(s: Ledger, project: Option<ProjectId>)
    requires Schema(s)
    ensures InOrder(s, Candidates(s, project))
    ensures forall k: TaskId :: k in Candidates(s, project) <==> Runnable(s, k, project)
  {
    SortInOrder(s, RunnableBelow(s, project, s.nextId));
  }

  lemma FirstComesFirst(s: Ledger, project: Option<ProjectId>, i: nat, now: Time)
    requires Schema(s) && i < |Candidates(s, project)|
    requires forall j :: 0 <= j < i ==> !Claimable(s, Candidates(s, project)[j], now)
    ensures ComesFirst(s, Candidates(s, project)[i], project, now)
  {
    hide Schema, Before, Claimable, Candidates;
    CandidatesAreAll(s, project);
  }

  method CanClaim(tx: Transaction, task: Task, now: Time) returns (ok: bool)
    requires tx.Valid() && task.id in tx.tasks && tx.tasks[task.id] == task
    requires task.status == TaskQueued && task.currentRun.None?
    ensures ok <==> Claimable(tx.Rows(), task.id, now)
    ensures ok <==> MayRun(tx.Rows(), task.id, now)
  {
    ClaimableMeansMayRun(tx.Rows(), task.id, now);
    hide InvExcept, Occupancy, LiveRuns, MayRun;
    NamedRowsExist(tx.Rows(), {}, task.id);
    if task.nextRunAt > now || tx.projects[task.origin.project].status != ProjectActive || task.origin.assignee.None?
       || tx.agents[task.origin.assignee.value] != AgentActive
    {
      return false;
    }
    return Occupancy(tx.Rows(), task.origin.assignee.value) == 0 && |LiveRuns(tx.Rows())| < tx.maxRuns;
  }

  method WriteClaim(tx: Transaction, task: Task)
    requires Schema(tx.Rows()) && task.id in tx.tasks && tx.tasks[task.id] == task
    requires task.status == TaskQueued && task.origin.assignee.Some?
    modifies tx`tasks, tx`runs, tx`nextId
    ensures tx.Rows() == WithClaim(old(tx.Rows()), task)
  {
    SchemaKeys(tx.Rows());
    hide Schema;
    var runId := tx.NewId();
    var operation := tx.NewId();
    var generation := task.generation + 1;
    tx.InsertRun(Run(runId, RunOrigin(task.origin.project, task.id, task.origin.assignee.value, generation, operation),
                     RunStarting, LaunchIntent, None, None, false, None, None, None,
                     TerminalFact(None, "", "", ""), "", CleanupNotNeeded, None, 1));
    tx.UpdateTask(task.(generation := generation, currentRun := Some(runId), version := task.version + 1),
                  task.version, TaskQueued);
  }

  ghost predicate InProject(s: Ledger, id: TaskId, project: Option<ProjectId>)
    requires id in s.tasks
  {
    project == None || project == Some(s.tasks[id].origin.project)
  }

  /** Of all the tasks that may run, this one has the greatest priority, then the earliest creation, then
    the smallest ID. */
  ghost predicate Foremost(s: Ledger, id: TaskId, project: Option<ProjectId>, now: Time)
    requires id in s.tasks
  {
    var best := s.tasks[id].origin;
    forall k :: MayRun(s, k, now) && InProject(s, k, project) ==>
      var other := s.tasks[k].origin;
      && other.priority <= best.priority
      && (other.priority == best.priority ==> best.createdAt <= other.createdAt)
      && (other.priority == best.priority && other.createdAt == best.createdAt ==> id <= k)
  }

  lemma FirstIsForemost(s: Ledger, id: TaskId, project: Option<ProjectId>, now: Time)
    requires Schema(s) && ComesFirst(s, id, project, now)
    ensures Foremost(s, id, project, now)
  {
    SchemaKeys(s);
    forall k | MayRun(s, k, now) && InProject(s, k, project)
      ensures Runnable(s, k, project) && Claimable(s, k, now)
    {
      ClaimableMeansMayRun(s, k, now);
      hide Claimable, AgentIsFree, RoomForRun;
    }
    hide Schema, MayRun, Claimable;
  }

  lemma NoneMayRun(s: Ledger, project: Option<ProjectId>, now: Time)
    requires forall k :: Runnable(s, k, project) ==> !Claimable(s, k, now)
    ensures forall k :: MayRun(s, k, now) ==> !InProject(s, k, project)
  {
    forall k | MayRun(s, k, now) && InProject(s, k, project)
      ensures false
    {
      ClaimableMeansMayRun(s, k, now);
      hide Claimable, AgentIsFree, RoomForRun;
    }
  }

  /** ClaimNext claims the first claimable task in order, or finds that there is none. */
  method ClaimNext(tx: Transaction, project: Option<ProjectId>, now: Time) returns (claimed: Option<TaskId>)
    requires tx.Valid()
    modifies tx`tasks, tx`runs, tx`nextId
    ensures tx.Valid()
    ensures claimed.None? ==>
              tx.Rows() == old(tx.Rows())
              && forall k :: Runnable(old(tx.Rows()), k, project) ==> !Claimable(old(tx.Rows()), k, now)
    ensures claimed.Some? ==>
              && Runnable(old(tx.Rows()), claimed.value, project)
              && ComesFirst(old(tx.Rows()), claimed.value, project, now)
              && Claim(old(tx.Rows()), claimed.value, now) == Committed(tx.Rows())
    ensures claimed.Some? ==>
              && MayRun(old(tx.Rows()), claimed.value, now) && InProject(old(tx.Rows()), claimed.value, project)
              && Foremost(old(tx.Rows()), claimed.value, project, now)
    ensures claimed.None? ==> forall k :: MayRun(old(tx.Rows()), k, now) ==> !InProject(old(tx.Rows()), k, project)
  {
    hide Inv, Before, Candidates, Claimable, ComesFirst, Schema, WithClaim, Evolves, MayRun, Foremost;
    ghost var before := tx.Rows();
    SchemaHolds(before);
    SchemaKeys(before);
    CandidatesAreAll(before, project);
    var candidates := Candidates(tx.Rows(), project);
    for i := 0 to |candidates|
      invariant tx.Rows() == before
      invariant forall j :: 0 <= j < i ==> !Claimable(before, candidates[j], now)
    {
      assert candidates[i] in candidates;
      var task := tx.tasks[candidates[i]];
      var ok := CanClaim(tx, task, now);
      if ok {
        FirstComesFirst(before, project, i, now);
        FirstIsForemost(before, task.id, project, now);
        ClaimableIsClaimed(before, task, now);
        WriteClaim(tx, task);
        ClaimKeeps(before, task.id, now);
        return Some(task.id);
      }
    }
    NoneMayRun(before, project, now);
    return None;
  }

  lemma ClaimableIsClaimed(s: Ledger, task: Task, now: Time)
    requires Claimable(s, task.id, now) && s.tasks[task.id] == task
    ensures task.status == TaskQueued && task.origin.assignee.Some?
    ensures Claim(s, task.id, now) == Committed(WithClaim(s, task))
  {
    hide Occupancy, LiveRuns;
  }
}
