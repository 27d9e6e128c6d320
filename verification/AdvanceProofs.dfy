/** A reported advance of the canonical ref: completing a result, or starting its integration. */
module AdvanceProofs {
  import opened Commits
  import opened Model
  import opened Tables
  import opened MessageSteps
  import opened RunSteps
  import opened TaskSteps
  import opened GitSteps
  import opened Invariant
  import opened RowChanges
  import opened Evolution
  import opened MessageProofs
  import opened RunProofs
  import opened TaskProofs
  import opened GitProofs
  import opened Disposal

  // ---- success ----

  /** The canonical ref of the task's project is known to contain its result. */
  ghost predicate Contained(s: Ledger, task: Task, actual: Commit) {
    && task.result.Some? && IsAncestor(task.result.value.head, actual)
    && task.origin.project in s.canonical && IsAncestor(actual, s.canonical[task.origin.project])
  }

  lemma AdvanceContains(s: Ledger, task: Task, fact: GitFact)
    requires Advances(s, task, fact) && FactOk(s, fact) && fact.AdvanceFact? && fact.outcome != AdvanceStale
    ensures Contained(s, task, fact.actual)
  {
    hide IsAncestor, TaskOk, CapturedAncestry;
  }

  lemma ActualIsPast(s: Ledger, task: Task, fact: GitFact)
    requires Advances(s, task, fact) && FactOk(s, fact) && fact.AdvanceFact?
    ensures task.origin.project in s.canonical && IsAncestor(fact.actual, s.canonical[task.origin.project])
  {
    hide IsAncestor, TaskOk, CapturedAncestry;
  }

  lemma CompletionFits(s: Ledger, e: set<TaskId>, task: Task, actual: Commit)
    requires task.id in s.tasks && s.tasks[task.id] == task && TaskOk(s, e, task) && Contained(s, task, actual)
    requires task.status == TaskSubmitted && task.pending.Some? && e <= {task.id}
    requires task.origin.kind == TaskIntegration ==>
               task.origin.source.Some? && task.origin.source.value.task in s.tasks
               && s.tasks[task.origin.source.value.task].status != TaskSubmitted
    ensures var row := CompletedRow(task, actual).(pending := None);
            TaskMayBecome(s, e, {task.id}, None, row) && PairFits(PutTask(s, row), {}, row) && TaskEvolves(task, row)
  {
    hide IsAncestor, CapturedAncestry;
  }

  lemma SourceCompletionFits(s: Ledger, source: Task, integration: Task, actual: Commit)
    requires integration.id in s.tasks && s.tasks[integration.id] == integration && TaskOk(s, {}, integration)
    requires integration.origin.kind == TaskIntegration && integration.Open()
    requires integration.origin.source.Some? && source.id == integration.origin.source.value.task
    requires source.id in s.tasks && s.tasks[source.id] == source && TaskOk(s, {}, source)
    requires Contained(s, source, actual)
    ensures IntegrationSourceFence(source, integration) && source.id != integration.id
    ensures var row := CompletedRow(source, actual); var e := {source.id, integration.id};
            TaskMayBecome(s, {}, e, None, row) && PairFits(PutTask(s, row), {integration.id}, row) && TaskEvolves(source, row)
  {
    hide IsAncestor, CapturedAncestry;
  }

  /** What an integration's head contains, its source's head is part of. */
  lemma SourceContained(s: Ledger, integration: Task, actual: Commit)
    requires integration.id in s.tasks && s.tasks[integration.id] == integration && TaskOk(s, {}, integration)
    requires integration.origin.kind == TaskIntegration && integration.Open() && Contained(s, integration, actual)
    requires integration.origin.source.Some? && integration.origin.source.value.task in s.tasks
    ensures Contained(s, s.tasks[integration.origin.source.value.task], actual)
  {
    AncestorTransitive(integration.origin.source.value.result.head, integration.result.value.head, actual);
    hide IsAncestor;
  }

  /** Completing the source inside the integration's transaction never conflicts. */
  lemma CompleteSourceKeeps(s: Ledger, task: Task, actual: Commit, now: Time)
    requires Inv(s) && task.id in s.tasks && s.tasks[task.id] == task && task.status == TaskSubmitted
    requires Contained(s, task, actual)
    ensures CompleteSource(s, task, actual, now).Committed?
    ensures var s1 := CompleteSource(s, task, actual, now).ledger;
            InvExcept(s1, {task.id}) && Evolves(s, s1) && task.id in s1.tasks && s1.tasks[task.id] == task
            && s1.canonical == s.canonical
            && (task.origin.kind == TaskIntegration ==>
                  task.origin.source.Some? && task.origin.source.value.task in s1.tasks
                  && s1.tasks[task.origin.source.value.task].status == TaskCompleted
                  && s1.tasks[task.origin.source.value.task].finalCanonical == Some(actual)
                  && task.origin.source.value.task in s.tasks
                  && var row := CompletedRow(s.tasks[task.origin.source.value.task], actual);
                     row.id == task.origin.source.value.task && Concluded(PutTask(s, row), row, now, s1))
  {
    hide Concluded;
    hide InvExcept, Evolves, TaskMayBecome, Conclude, Contained, PairFits, Concludes, IntegrationSourceFence, CapturedAncestry;
    TaskAt(s, {}, task.id);
    if task.origin.kind != TaskIntegration {
      EvolvesReflexive(s);
      MoreExempt(s, task.id);
    } else {
      var source := s.tasks[task.origin.source.value.task];
      TaskAt(s, {}, task.origin.source.value.task);
      SourceContained(s, task, actual);
      SourceCompletionFits(s, source, task, actual);
      var row := CompletedRow(source, actual);
      hide TaskOk;
      LeaveSourceAndConclude(s, row, task, now);
    }
  }

  lemma LeaveSourceAndConclude(s: Ledger, row: Task, task: Task, now: Time)
    requires Inv(s) && row.id in s.tasks && row.id != task.id && task.id in s.tasks && s.tasks[task.id] == task
    requires TaskMayBecome(s, {}, {row.id, task.id}, None, row) && PairFits(PutTask(s, row), {task.id}, row)
    requires TaskEvolves(s.tasks[row.id], row) && !row.AcceptsDelivery() && task.status == TaskSubmitted
    ensures var s0 := PutTask(s, row);
            Conclude(s0, row, now).Committed?
            && var s1 := Conclude(s0, row, now).ledger;
            InvExcept(s1, {task.id}) && Evolves(s, s1) && task.id in s1.tasks && s1.tasks[task.id] == task
            && s1.canonical == s.canonical && row.id in s1.tasks && s1.tasks[row.id] == row
            && Concluded(s0, row, now, s1)
  {
    hide InvExcept, Evolves, PairFits, Concludes, Conclude, Concluded;
    var e := {row.id, task.id};
    RowChange(s, {}, e, None, row);
    RowsEvolve(s, None, row, s.nextId);
    hide TaskMayBecome;
    var s0 := PutTask(s, row);
    assert e - {row.id} == {task.id};
    ConcludeKeeps(s0, e, row, now);
    ConcludeConcludes(s0, e, row, now);
    var s1 := Conclude(s0, row, now).ledger;
    ConcludesEvolves(s0, s1);
    ConcludesKeys(s0, s1);
    EvolvesTransitive(s, s0, s1);
  }

  lemma FinishIntegrated(s: Ledger, task: Task, actual: Commit, now: Time)
    requires InvExcept(s, {task.id}) && task.id in s.tasks && s.tasks[task.id] == task
    requires Contained(s, task, actual) && task.status == TaskSubmitted && task.pending.Some?
    requires task.origin.kind == TaskIntegration ==>
               task.origin.source.Some? && task.origin.source.value.task in s.tasks
               && s.tasks[task.origin.source.value.task].status != TaskSubmitted
    ensures var row := CompletedRow(task, actual).(pending := None);
            Dispose(PutTask(s, row), row, now).Committed?
            && var s1 := Dispose(PutTask(s, row), row, now).ledger;
            Inv(s1) && Evolves(s, s1) && task.id in s1.tasks && s1.tasks[task.id] == row
            && (forall k :: k in s.tasks && k != task.id && !MayRequeue(s.tasks[k]) ==> k in s1.tasks && s1.tasks[k] == s.tasks[k])
            && MessagesSettled(PutTask(s, row), row, now, s1)
  {
    hide InvExcept, Evolves, TaskMayBecome, PairFits, Concludes, Dispose, TaskOk, Contained, MessagesSettled;
    TaskAt(s, {task.id}, task.id);
    CompletionFits(s, {task.id}, task, actual);
    var row := CompletedRow(task, actual).(pending := None);
    RowChange(s, {task.id}, {task.id}, None, row);
    RowsEvolve(s, None, row, s.nextId);
    var s0 := PutTask(s, row);
    assert {task.id} - {task.id} == {};
    DisposedAndSettled(s0, {task.id}, row, now);
    DisposeSettlesMessages(s0, {task.id}, row, now);
    var s1 := Dispose(s0, row, now).ledger;
    ConcludesEvolves(s0, s1);
    ConcludesKeys(s0, s1);
    EvolvesTransitive(s, s0, s1);
  }

  /** A contained result is always projected: the source fence cannot fail in the middle. */
  lemma FinalizeSuccessCommits(s: Ledger, fact: GitFact, now: Time)
    requires Inv(s) && fact in s.facts && fact.AdvanceFact? && fact.outcome != AdvanceStale && fact.intent.id in s.tasks
    requires SameAdvanceFence(s.tasks[fact.intent.id], fact.intent)
    requires ProjectIsActive(s, s.tasks[fact.intent.id].origin.project)
    ensures FinalizeSuccess(s, fact, now).Committed? && Kept(s, FinalizeSuccess(s, fact, now).ledger)
    ensures var s1 := FinalizeSuccess(s, fact, now).ledger; var task := s.tasks[fact.intent.id];
            task.id in s1.tasks && s1.tasks[task.id] == CompletedRow(task, fact.actual).(pending := None)
            && (task.origin.kind == TaskIntegration ==>
                  task.origin.source.Some? && task.origin.source.value.task in s1.tasks
                  && s1.tasks[task.origin.source.value.task].status == TaskCompleted
                  && s1.tasks[task.origin.source.value.task].finalCanonical == Some(fact.actual))
  {
    hide InvExcept, Evolves, TaskOk, FactOk, Contained, CacheCanonical, CompleteSource, Dispose, NotifyParent, Concludes;
    var task := s.tasks[fact.intent.id];
    AdvancesFact(s, fact);
    AdvanceContains(s, task, fact);
    var s1 := CacheCanonical(s, task.origin.project, fact.actual);
    ActualIsPast(s, task, fact);
    CacheKeeps(s, {}, task.origin.project, fact.actual);
    ContainedStays(s, s1, task, fact.actual);
    CompleteSourceKeeps(s1, task, fact.actual, now);
    var s2 := CompleteSource(s1, task, fact.actual, now).ledger;
    ContainedStays(s1, s2, task, fact.actual);
    FinishIntegrated(s2, task, fact.actual, now);
    var row := CompletedRow(task, fact.actual).(pending := None);
    var s3 := Dispose(PutTask(s2, row), row, now).ledger;
    ThreeSteps(s, s1, s2, s3);
    NotifyParentKeeps(s3, {}, row, now);
    var s4 := NotifyParent(s3, row, now).ledger;
    ConcludesEvolves(s3, s4);
    ConcludesKeys(s3, s4);
    EvolvesTransitive(s, s3, s4);
  }

  lemma ContainedStays(s: Ledger, s1: Ledger, task: Task, actual: Commit)
    requires Contained(s, task, actual) && s1.canonical == s.canonical
    ensures Contained(s1, task, actual)
  {
  }

  lemma ThreeSteps(s: Ledger, s1: Ledger, s2: Ledger, s3: Ledger)
    requires Evolves(s, s1) && Evolves(s1, s2) && Evolves(s2, s3)
    ensures Evolves(s, s3)
  {
    hide Evolves;
    EvolvesTransitive(s, s1, s2);
    EvolvesTransitive(s, s2, s3);
  }

  lemma FinalizeSuccessKeeps(s: Ledger, fact: GitFact, now: Time)
    requires Inv(s) && FinalizeSuccess(s, fact, now).Committed?
    ensures Kept(s, FinalizeSuccess(s, fact, now).ledger)
  {
    hide Inv, Evolves, SameAdvanceFence, CacheCanonical, CompleteSource, Dispose, NotifyParent;
    FinalizeSuccessCommits(s, fact, now);
  }

  // ---- stale ----

  lemma RequeueIntegrationFits(s: Ledger, task: Task, row: Task)
    requires task.id in s.tasks && s.tasks[task.id] == task && TaskOk(s, {}, task)
    requires task.status == TaskSubmitted && task.pending.Some? && task.origin.kind == TaskIntegration
    requires row == task.(status := TaskQueued, currentRun := None, nextRunAt := row.nextRunAt, pending := None,
                          version := task.version + 1)
    ensures TaskMayBecome(s, {}, {}, None, row)
    ensures task.origin.assignee.Some? && task.origin.source.Some? && task.origin.source.value.task in s.tasks
            && IntegrationSourceFence(s.tasks[task.origin.source.value.task], task)
  {
    hide IsAncestor, CapturedAncestry;
  }

  lemma RestartIntegrationKeeps(s: Ledger, task: Task, now: Time)
    requires Inv(s) && task.id in s.tasks && s.tasks[task.id] == task
    requires task.status == TaskSubmitted && task.pending.Some? && task.origin.kind == TaskIntegration
    ensures task.origin.assignee.Some? && task.origin.source.Some? && task.origin.source.value.task in s.tasks
            && IntegrationSourceFence(s.tasks[task.origin.source.value.task], task)
    ensures var row := task.(status := TaskQueued, currentRun := None, nextRunAt := now, pending := None,
                             version := task.version + 1);
            Kept(s, InsertMessage(PutTask(s, row), task.origin.project, task.id, ToAgent(task.origin.assignee.value), true, 3, now))
  {
    hide InvExcept, Evolves, TaskMayBecome, TaskOk, IntegrationSourceFence, Concludes;
    TaskAt(s, {}, task.id);
    var row := task.(status := TaskQueued, currentRun := None, nextRunAt := now, pending := None, version := task.version + 1);
    RequeueIntegrationFits(s, task, row);
    RowStep(s, None, row, s.nextId);
    var s1 := PutTask(s, row);
    FreshId(s1, {});
    InsertToAgentKeeps(s1, {}, task.id, true, 3, now);
    InsertConcludes(s1, task.origin.project, task.id, ToAgent(task.origin.assignee.value), true, 3, now);
    hide InsertMessage;
    var s2 := InsertMessage(s1, task.origin.project, task.id, ToAgent(task.origin.assignee.value), true, 3, now);
    ConcludesEvolves(s1, s2);
    EvolvesTransitive(s, s1, s2);
  }

  ghost predicate MayIntegrate(s: Ledger, task: Task) {
    && task.id in s.tasks && s.tasks[task.id] == task && TaskOk(s, {}, task)
    && task.status == TaskSubmitted && task.pending.Some? && task.pending.value.action == Advance
    && task.origin.kind != TaskIntegration
    && task.accepted.Some? && task.accepted.value in s.agents && s.agents[task.accepted.value] != AgentArchived
    && ProjectIsActive(s, task.origin.project) && task.result.Some?
  }

  lemma IntegrationFits(s: Ledger, task: Task, actual: Commit, now: Time)
    requires MayIntegrate(s, task) && s.nextId !in s.tasks
    ensures MayInsert(s, {}, {s.nextId}, IntegrationTask(s.nextId, LinkedRow(task, s.nextId), actual, now))
  {
    hide IsAncestor, CapturedAncestry, IntegrationSourceFence;
  }

  lemma LinkFits(s: Ledger, task: Task, actual: Commit, now: Time)
    requires MayIntegrate(s, task) && s.nextId !in s.tasks
    ensures var n := s.nextId; var integration := IntegrationTask(n, LinkedRow(task, n), actual, now);
            var s1 := InsertTask(s, integration);
            TaskMayBecome(s1, {n}, {n}, None, LinkedRow(task, n))
            && PairFits(PutTask(s1, LinkedRow(task, n)), {}, integration)
  {
    hide IsAncestor, CapturedAncestry;
  }

  lemma NothingWaits(s: Ledger, e: set<TaskId>, k: TaskId)
    requires InvExcept(s, e) && k !in s.tasks
    ensures NoUnresolved(s, k)
  {
    hide InvExcept;
    forall m | m in s.messages && s.messages[m].task == k
      ensures !s.messages[m].Unresolved()
    {
      MessageAt(s, e, m);
    }
  }

  /** A stale advance opens exactly one integration task, in step with its source. */
  lemma OpenIntegrationKeeps(s: Ledger, task: Task, actual: Commit, now: Time)
    requires Inv(s) && MayIntegrate(s, task)
    ensures var n := s.nextId; var integration := IntegrationTask(n, LinkedRow(task, n), actual, now);
            var s1 := PutTask(PutTask(s, LinkedRow(task, n)), integration).(nextId := n + 1);
            Kept(s, s1) && s1.tasks[n] == integration && n != task.id
  {
    hide InvExcept, Evolves, MayInsert, TaskMayBecome, PairFits, MayIntegrate, NoUnresolved;
    FreshId(s, {});
    TaskIsThere(s, task);
    var n := s.nextId;
    var integration := IntegrationTask(n, LinkedRow(task, n), actual, now);
    IntegrationFits(s, task, actual, now);
    LinkFits(s, task, actual, now);
    NothingWaits(s, {}, n);
    TaskInserted(s, {}, {n}, integration);
    InsertTaskEvolves(s, integration);
    var s1 := InsertTask(s, integration);
    RowChange(s1, {n}, {n}, None, LinkedRow(task, n));
    RowsEvolve(s1, None, LinkedRow(task, n), s1.nextId);
    var s2 := PutTask(s1, LinkedRow(task, n));
    SameMessages(s, s2, n);
    assert {n} - {n} == {};
    Settle(s2, {n}, n);
    EvolvesTransitive(s, s1, s2);
    assert s2.tasks == s.tasks[task.id := LinkedRow(task, n)][n := integration];
  }

  lemma TaskIsThere(s: Ledger, task: Task)
    requires MayIntegrate(s, task)
    ensures task.id in s.tasks && s.tasks[task.id] == task && task.status == TaskSubmitted && task.result.Some?
  {
  }

  lemma SameMessages(s: Ledger, s1: Ledger, k: TaskId)
    requires NoUnresolved(s, k) && s1.messages == s.messages
    ensures NoUnresolved(s1, k)
  {
  }

  lemma FinalizeStaleCommits(s: Ledger, fact: GitFact, now: Time)
    requires Inv(s) && fact in s.facts && fact.AdvanceFact? && fact.outcome == AdvanceStale && fact.intent.id in s.tasks
    requires SameAdvanceFence(s.tasks[fact.intent.id], fact.intent)
    requires ProjectIsActive(s, s.tasks[fact.intent.id].origin.project)
    ensures FinalizeStale(s, fact, now).Committed? && Kept(s, FinalizeStale(s, fact, now).ledger)
    ensures var s1 := FinalizeStale(s, fact, now).ledger; var task := s.tasks[fact.intent.id];
            && task.id in s1.tasks && task.version < s1.tasks[task.id].version && s1.tasks[task.id].pending.None?
            && (if task.origin.kind == TaskIntegration then s1.tasks[task.id].status == TaskQueued
                else
                  s1.tasks[task.id] == LinkedRow(task, s.nextId) && IsOpenIntegrationOf(s1, s.nextId, task.id)
                  && task.result.Some?
                  && s1.tasks[s.nextId] == IntegrationTask(s.nextId, LinkedRow(task, s.nextId), fact.actual, now))
  {
    hide InvExcept, Evolves, TaskOk, FactOk, CacheCanonical, MayIntegrate, IsAncestor;
    var task := s.tasks[fact.intent.id];
    AdvancesFact(s, fact);
    var s1 := CacheCanonical(s, task.origin.project, fact.actual);
    ActualIsPast(s, task, fact);
    CacheKeeps(s, {}, task.origin.project, fact.actual);
    if task.origin.kind == TaskIntegration {
      hide OpenIntegration, IntegrationSourceFence;
      RestartIntegrationKeeps(s1, task, now);
    } else {
      hide RestartIntegration;
      TaskAt(s1, {}, task.id);
      AcceptedAgentWorks(s1, task);
      StartIntegrationKeeps(s1, task, fact.actual, now);
    }
    EvolvesTransitive(s, s1, FinalizeStale(s, fact, now).ledger);
  }

  /** The accepted agent cannot have been archived while its acceptance is open. */
  lemma AcceptedAgentWorks(s: Ledger, task: Task)
    requires task.id in s.tasks && s.tasks[task.id] == task && TaskOk(s, {}, task)
    requires task.status == TaskSubmitted && task.pending.Some? && task.pending.value.action == Advance
    requires task.origin.kind != TaskIntegration && ProjectIsActive(s, task.origin.project)
    ensures MayIntegrate(s, task)
  {
    hide IsAncestor, CapturedAncestry;
  }

  lemma StartIntegrationKeeps(s: Ledger, task: Task, actual: Commit, now: Time)
    requires Inv(s) && MayIntegrate(s, task)
    ensures task.accepted.Some? && task.accepted.value in s.agents && task.result.Some?
            && s.agents[task.accepted.value] != AgentArchived
    ensures var n := s.nextId; var integration := IntegrationTask(n, LinkedRow(task, n), actual, now);
            var s1 := PutTask(PutTask(s, LinkedRow(task, n)), integration).(nextId := n + 1);
            Kept(s, InsertMessage(s1, task.origin.project, n, ToAgent(task.accepted.value), true, 3, now))
  {
    hide InvExcept, Evolves, Concludes, TaskOk;
    OpenIntegrationKeeps(s, task, actual, now);
    var n := s.nextId;
    var integration := IntegrationTask(n, LinkedRow(task, n), actual, now);
    var s1 := PutTask(PutTask(s, LinkedRow(task, n)), integration).(nextId := n + 1);
    FreshId(s1, {});
    InsertToAgentKeeps(s1, {}, n, true, 3, now);
    InsertConcludes(s1, task.origin.project, n, ToAgent(task.accepted.value), true, 3, now);
    hide InsertMessage;
    var s2 := InsertMessage(s1, task.origin.project, n, ToAgent(task.accepted.value), true, 3, now);
    ConcludesEvolves(s1, s2);
    EvolvesTransitive(s, s1, s2);
  }

  lemma FinalizeStaleKeeps(s: Ledger, fact: GitFact, now: Time)
    requires Inv(s) && FinalizeStale(s, fact, now).Committed?
    ensures Kept(s, FinalizeStale(s, fact, now).ledger)
  {
    hide Inv, Evolves, SameAdvanceFence, CacheCanonical, InsertMessage, IntegrationTask;
    FinalizeStaleCommits(s, fact, now);
  }
}
