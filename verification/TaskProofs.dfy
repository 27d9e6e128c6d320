/** Creating tasks and the operator's actions on them keep the invariant. */
module TaskProofs {
  import opened Commits
  import opened Model
  import opened Tables
  import opened MessageSteps
  import opened RunSteps
  import opened TaskSteps
  import opened GitSteps
  import opened Invariant
  import opened RowChanges
  import opened Evolution
  import opened MessageProofs
  import opened RunProofs

  // ---- creation ----

  lemma InsertTaskEvolves(s: Ledger, task: Task)
    requires task.id == s.nextId && s.nextId !in s.tasks
    ensures Evolves(s, InsertTask(s, task))
  {
  }

  lemma CreatedTaskFits(s: Ledger, task: Task)
    requires task.id == s.nextId && s.nextId !in s.tasks
    requires task.origin.kind == TaskWork && task.currentRun.None? && task.pending.None? && task.link.None?
    requires task.result.None? && task.accepted.None? && task.finalCanonical.None? && task.retryCount == 0
    requires task.status == if task.origin.assignee.Some? then TaskQueued else TaskWaiting
    requires task.origin.project in s.projects && s.projects[task.origin.project].status == ProjectActive
    requires task.origin.assignee.Some? ==>
               task.origin.assignee.value in s.agents && s.agents[task.origin.assignee.value] != AgentArchived
    requires task.origin.parent.Some? ==>
               task.origin.parent.value in s.tasks && s.tasks[task.origin.parent.value].origin.project == task.origin.project
    requires task.origin.source.Some? ==>
               task.origin.source.value.task in s.tasks
               && s.tasks[task.origin.source.value.task].origin.project == task.origin.project
               && OwnRef(task.origin.source.value.task, task.origin.source.value.result)
    requires !task.sourceReleased
    ensures MayInsert(s, {}, {}, task)
  {
    hide IsAncestor;
  }

  lemma ResultIsOwn(s: Ledger, k: TaskId)
    requires Inv(s) && k in s.tasks && s.tasks[k].result.Some?
    ensures OwnRef(k, s.tasks[k].result.value)
  {
    hide InvExcept, CurrentRunFits, NamesFit, PairFits, CapturedAncestry, IsAncestor;
    TaskAt(s, {}, k);
  }

  lemma CreateTaskKeeps(
    s: Ledger, creator: Creator, project: ProjectId, seenVersion: nat, assignee: Option<AgentId>, priority: int,
    maxRetries: nat, base: Commit, source: Option<TaskId>, sourceVersion: nat, now: Time
  )
    requires Inv(s)
    requires CreateTask(s, creator, project, seenVersion, assignee, priority, maxRetries, base, source, sourceVersion, now).Committed?
    ensures Kept(s, CreateTask(s, creator, project, seenVersion, assignee, priority, maxRetries, base, source, sourceVersion, now).ledger)
  {
    hide InvExcept, Evolves, MayInsert, RunFits;
    FreshId(s, {});
    var s1 := CreateTask(s, creator, project, seenVersion, assignee, priority, maxRetries, base, source, sourceVersion, now).ledger;
    var task := s1.tasks[s.nextId];
    if creator.ByRun? {
      RunAt(s, {}, creator.run);
    }
    if source.Some? {
      ResultIsOwn(s, source.value);
    }
    CreatedTaskFits(s, task);
    TaskInserted(s, {}, {}, task);
    InsertTaskEvolves(s, task);
    assert s1 == InsertTask(s, task);
  }

  // ---- wake, retry, rework ----

  lemma WakeTaskKeeps(s: Ledger, id: TaskId, now: Time)
    requires Inv(s) && WakeTask(s, id, now).Committed?
    ensures Kept(s, WakeTask(s, id, now).ledger)
  {
    hide InvExcept, Evolves, TaskOk;
    var task := s.tasks[id];
    TaskAt(s, {}, id);
    RequeueKeeps(s, {}, task, now);
    var s1 := PutTask(s, RequeuedRow(task, now));
    RowsEvolve(s, None, RequeuedRow(task, now), s.nextId);
    ReenabledKeeps(s1, id, now);
    var s2 := s1.(messages := Reenabled(s1.messages, id, now));
    MessagesAloneEvolve(s1, s2);
    hide MessagesEvolve, Reenabled;
    EvolvesTransitive(s, s1, s2);
  }

  lemma ReenabledKeeps(s: Ledger, id: TaskId, now: Time)
    requires Inv(s) && id in s.tasks && s.tasks[id].status != TaskWaiting
    ensures Inv(s.(messages := Reenabled(s.messages, id, now)))
    ensures MessagesEvolve(s, s.(messages := Reenabled(s.messages, id, now)))
  {
    hide InvExcept;
    var messages := Reenabled(s.messages, id, now);
    forall k | k in messages
      ensures messages[k].id == k && k < s.nextId && MessageOk(s, {}, messages[k])
    {
      MessageAt(s, {}, k);
    }
    MessagesChange(s, {}, messages);
  }

  lemma RetryFits(s: Ledger, task: Task, row: Task)
    requires task.id in s.tasks && s.tasks[task.id] == task && TaskOk(s, {}, task)
    requires task.ActionAvailable() && task.status == TaskFailed
    requires row == task.(status := TaskQueued, currentRun := None, generation := task.generation + 1,
                          nextRunAt := row.nextRunAt, pending := None, version := task.version + 1)
    ensures TaskMayBecome(s, {}, {}, None, row)
  {
    hide IsAncestor, CapturedAncestry;
  }

  lemma RetryTaskKeeps(s: Ledger, id: TaskId, now: Time)
    requires Inv(s) && RetryTask(s, id, now).Committed?
    ensures Kept(s, RetryTask(s, id, now).ledger)
  {
    hide InvExcept, Evolves, TaskOk, TaskMayBecome;
    var task := s.tasks[id];
    TaskAt(s, {}, id);
    var row := task.(status := TaskQueued, currentRun := None, generation := task.generation + 1,
                     nextRunAt := now, pending := None, version := task.version + 1);
    RetryFits(s, task, row);
    RowStep(s, None, row, s.nextId);
  }

  lemma ReworkFits(s: Ledger, task: Task, row: Task)
    requires task.id in s.tasks && s.tasks[task.id] == task && TaskOk(s, {}, task)
    requires task.ActionAvailable() && task.status == TaskSubmitted
    requires row == task.(status := TaskQueued, nextRunAt := row.nextRunAt, accepted := None, pending := None,
                          version := task.version + 1)
    ensures TaskMayBecome(s, {}, {}, None, row)
  {
    hide IsAncestor, CapturedAncestry;
  }

  lemma ReworkTaskKeeps(s: Ledger, id: TaskId, now: Time)
    requires Inv(s) && ReworkTask(s, id, now).Committed?
    ensures Kept(s, ReworkTask(s, id, now).ledger)
  {
    hide InvExcept, Evolves, TaskOk, TaskMayBecome;
    var task := s.tasks[id];
    TaskAt(s, {}, id);
    var row := task.(status := TaskQueued, nextRunAt := now, accepted := None, pending := None, version := task.version + 1);
    ReworkFits(s, task, row);
    RowStep(s, None, row, s.nextId);
  }

  // ---- closing without a captured result ----

  lemma CompleteFits(s: Ledger, task: Task, row: Task)
    requires task.id in s.tasks && s.tasks[task.id] == task && TaskOk(s, {}, task)
    requires task.origin.assignee.None? && task.status == TaskWaiting && task.pending.None?
    requires row == task.(status := TaskCompleted, result := None, version := task.version + 1)
    requires NoUnresolved(s, task.id)
    ensures TaskMayBecome(s, {}, {}, None, row)
  {
    hide IsAncestor, CapturedAncestry, NoUnresolved;
  }

  lemma CompleteTaskKeeps(s: Ledger, id: TaskId, now: Time)
    requires Inv(s) && CompleteTask(s, id, now).Committed?
    ensures Kept(s, CompleteTask(s, id, now).ledger)
  {
    hide InvExcept, Evolves, TaskOk, TaskMayBecome, Concludes, NotifyParent;
    var task := s.tasks[id];
    TaskAt(s, {}, id);
    assert NoUnresolved(s, id) by {
      forall m | m in s.messages && s.messages[m].task == id
        ensures !s.messages[m].Unresolved()
      {
        MessageAt(s, {}, m);
      }
    }
    var row := task.(status := TaskCompleted, result := None, version := task.version + 1);
    CompleteFits(s, task, row);
    hide NoUnresolved;
    RowStep(s, None, row, s.nextId);
    var s1 := PutTask(s, row);
    NotifyParentKeeps(s1, {}, row, now);
    ConcludesEvolves(s1, NotifyParent(s1, row, now).ledger);
    EvolvesTransitive(s, s1, NotifyParent(s1, row, now).ledger);
  }

  lemma ClosedMessagesKeeps(s: Ledger, id: TaskId)
    requires Inv(s)
    ensures var s1 := s.(messages := ClosedMessages(s.messages, id));
            Inv(s1) && NoUnresolved(s1, id) && MessagesEvolve(s, s1)
  {
    hide InvExcept;
    var messages := ClosedMessages(s.messages, id);
    forall k | k in messages
      ensures messages[k].id == k && k < s.nextId && MessageOk(s, {}, messages[k])
    {
      MessageAt(s, {}, k);
    }
    MessagesChange(s, {}, messages);
  }

  lemma CloseFits(s: Ledger, task: Task, row: Task)
    requires task.id in s.tasks && s.tasks[task.id] == task && TaskOk(s, {}, task)
    requires task.origin.kind == TaskConversation && task.status == TaskWaiting
    requires row == task.(status := TaskCompleted, version := task.version + 1)
    requires NoUnresolved(s, task.id)
    ensures TaskMayBecome(s, {}, {}, None, row)
  {
    hide IsAncestor, CapturedAncestry, NoUnresolved;
  }

  lemma CloseConversationKeeps(s: Ledger, id: TaskId)
    requires Inv(s) && CloseConversation(s, id).Committed?
    ensures Kept(s, CloseConversation(s, id).ledger)
  {
    hide InvExcept, Evolves, TaskOk, TaskMayBecome;
    var task := s.tasks[id];
    var s0 := s.(messages := ClosedMessages(s.messages, id));
    ClosedMessagesKeeps(s, id);
    MessagesAloneEvolve(s, s0);
    TaskAt(s0, {}, id);
    var row := task.(status := TaskCompleted, version := task.version + 1);
    CloseFits(s0, task, row);
    hide NoUnresolved, MessagesEvolve, ClosedMessages;
    RowStep(s0, None, row, s0.nextId);
    EvolvesTransitive(s, s0, PutTask(s0, row));
  }

  lemma ReleaseReferenceFits(s: Ledger, task: Task, row: Task)
    requires task.id in s.tasks && s.tasks[task.id] == task && TaskOk(s, {}, task)
    requires task.origin.source.Some? && !task.Open() && task.currentRun.None? && task.pending.None?
    requires row == task.(sourceReleased := true, version := task.version + 1)
    ensures TaskMayBecome(s, {}, {}, None, row)
  {
    hide IsAncestor, CapturedAncestry;
  }

  lemma ReleaseSourceReferenceKeeps(s: Ledger, id: TaskId)
    requires Inv(s) && ReleaseSourceReference(s, id).Committed?
    ensures Kept(s, ReleaseSourceReference(s, id).ledger)
  {
    hide InvExcept, Evolves, TaskOk, TaskMayBecome;
    TaskAt(s, {}, id);
    var task := s.tasks[id];
    if task.origin.source.None? || task.sourceReleased {
      EvolvesReflexive(s);
    } else {
      var row := task.(sourceReleased := true, version := task.version + 1);
      ReleaseReferenceFits(s, task, row);
      RowStep(s, None, row, s.nextId);
    }
  }

  // ---- cancel ----

  lemma ReleaseFits(s: Ledger, source: Task, integration: Task, row: Task)
    requires source.id in s.tasks && s.tasks[source.id] == source && TaskOk(s, {}, source)
    requires integration.id in s.tasks && s.tasks[integration.id] == integration && IntegrationSourceFence(source, integration)
    requires row == source.(link := None, accepted := None, version := source.version + 1)
    ensures TaskMayBecome(s, {}, {integration.id}, None, row)
  {
    hide IsAncestor, CapturedAncestry;
  }

  ghost predicate Detached(s: Ledger, task: Task) {
    task.origin.kind == TaskIntegration && task.origin.source.Some? && task.origin.source.value.task in s.tasks ==>
      s.tasks[task.origin.source.value.task].link != Some(task.id)
  }

  /** The release never conflicts: an open integration task is always in step with its source. */
  lemma ReleaseKeeps(s: Ledger, task: Task)
    requires Inv(s) && task.id in s.tasks && s.tasks[task.id] == task && task.Open()
    ensures ReleaseSource(s, task).Committed?
    ensures var s1 := ReleaseSource(s, task).ledger;
            InvExcept(s1, {task.id}) && Evolves(s, s1) && s1 == s.(tasks := s1.tasks)
            && task.id in s1.tasks && s1.tasks[task.id] == task && Detached(s1, task)
  {
    hide InvExcept, Evolves, TaskMayBecome, NamesFit, CurrentRunFits, ResultFits;
    TaskAt(s, {}, task.id);
    if task.origin.kind == TaskIntegration {
      var source := s.tasks[task.origin.source.value.task];
      TaskAt(s, {}, task.origin.source.value.task);
      var row := source.(link := None, accepted := None, version := source.version + 1);
      ReleaseFits(s, source, task, row);
      RowChange(s, {}, {task.id}, None, row);
      RowsEvolve(s, None, row, s.nextId);
    } else {
      EvolvesReflexive(s);
      MoreExempt(s, task.id);
    }
  }

  lemma MoreExempt(s: Ledger, k: TaskId)
    requires Inv(s)
    ensures InvExcept(s, {k})
  {
    RowsAreOk(s);
    OtherTablesChange(s, s, {}, {k});
  }

  lemma RowsAreOk(s: Ledger)
    requires Inv(s)
    ensures forall k :: k in s.tasks ==> NamesFit(s, s.tasks[k])
    ensures forall k, x: TaskId :: k in s.messages ==> MessageOk(s, {x}, s.messages[k])
  {
    hide InvExcept;
    forall k | k in s.tasks
      ensures NamesFit(s, s.tasks[k])
    {
      TaskAt(s, {}, k);
    }
    forall k, x: TaskId | k in s.messages
      ensures MessageOk(s, {x}, s.messages[k])
    {
      MessageAt(s, {}, k);
    }
  }

  /** A live run of the task knows that it has to stop, and has lost its token. */
  ghost predicate Stopped(s: Ledger, task: Task) {
    task.currentRun.Some? && task.currentRun.value in s.runs && s.runs[task.currentRun.value].Live() ==>
      s.runs[task.currentRun.value].stop.Some? && s.runs[task.currentRun.value].tokenRevoked
  }

  lemma StopKeeps(s: Ledger, task: Task, reason: string)
    requires InvExcept(s, {task.id}) && task.id in s.tasks && s.tasks[task.id] == task
    ensures StopCurrentRun(s, task, reason).Committed?
    ensures var s1 := StopCurrentRun(s, task, reason).ledger;
            InvExcept(s1, {task.id}) && Evolves(s, s1) && s1.tasks == s.tasks && Stopped(s1, task)
  {
    hide InvExcept, Evolves, TaskFits, NamesFit, PairFits;
    TaskAt(s, {task.id}, task.id);
    if task.currentRun.None? {
      EvolvesReflexive(s);
    } else {
      var run := s.runs[task.currentRun.value];
      RunAt(s, {task.id}, task.currentRun.value);
      if !run.Live() || (run.stop.Some? && run.tokenRevoked) {
        EvolvesReflexive(s);
      } else {
        var stop := if run.stop.Some? then run.stop else Some(Stop(reason, s.nextId));
        var stopped := run.(stop := stop, tokenRevoked := true, version := run.version + 1);
        var n := if run.stop.Some? then s.nextId else s.nextId + 1;
        RunChange(s, {task.id}, stopped);
        RunEvolvesAlone(s, stopped, n);
        NextIdGrows(PutRun(s, stopped), {task.id}, PutRun(s, stopped).(nextId := n));
      }
    }
  }

  lemma CancelFits(s: Ledger, task: Task)
    requires task.id in s.tasks && s.tasks[task.id] == task && TaskOk(s, {task.id}, task)
    requires task.ActionAvailable() && ValidTaskTransition(task.origin.kind, task.status, TaskCancelled)
    requires Detached(s, task) && Stopped(s, task)
    ensures TaskMayBecome(s, {task.id}, {task.id}, None, CancelledRow(s, task))
    ensures PairFits(PutTask(s, CancelledRow(s, task)), {}, CancelledRow(s, task))
  {
    hide IsAncestor, CapturedAncestry;
  }

  lemma CancelTaskKeeps(s: Ledger, id: TaskId, reason: string, now: Time)
    requires Inv(s) && CancelTask(s, id, reason, now).Committed?
    ensures Kept(s, CancelTask(s, id, reason, now).ledger)
  {
    CancelCommits(s, id, reason, now);
  }

  /** A task that may be cancelled always can be: neither the release of a source nor the
    disposal of messages gets in the way. */
  lemma CancelCommits(s: Ledger, id: TaskId, reason: string, now: Time)
    requires Inv(s) && id in s.tasks && s.tasks[id].ActionAvailable()
    requires ValidTaskTransition(s.tasks[id].origin.kind, s.tasks[id].status, TaskCancelled)
    ensures CancelTask(s, id, reason, now).Committed? && Kept(s, CancelTask(s, id, reason, now).ledger)
  {
    hide InvExcept, Evolves, TaskOk, PairFits, TaskMayBecome, ReleaseSource, StopCurrentRun, Conclude, Concludes, Detached;
    var task := s.tasks[id];
    TaskAt(s, {}, id);
    ReleaseKeeps(s, task);
    var s1 := ReleaseSource(s, task).ledger;
    StopKeeps(s1, task, reason);
    var s2 := StopCurrentRun(s1, task, reason).ledger;
    var row := CancelledRow(s2, task);
    DetachedStays(s1, s2, task);
    TaskAt(s2, {id}, id);
    CancelFits(s2, task);
    RowChange(s2, {id}, {id}, None, row);
    RowsEvolve(s2, None, row, s2.nextId);
    var s3 := PutTask(s2, row);
    assert {id} - {id} == {};
    ConcludeKeeps(s3, {id}, row, now);
    var s4 := Conclude(s3, row, now).ledger;
    ConcludesEvolves(s3, s4);
    FourSteps(s, s1, s2, s3, s4);
  }

  lemma DetachedStays(s: Ledger, s1: Ledger, task: Task)
    requires Detached(s, task) && s1.tasks == s.tasks
    ensures Detached(s1, task)
  {
  }

  lemma FourSteps(s: Ledger, s1: Ledger, s2: Ledger, s3: Ledger, s4: Ledger)
    requires Evolves(s, s1) && Evolves(s1, s2) && Evolves(s2, s3) && Evolves(s3, s4)
    ensures Evolves(s, s4)
  {
    hide Evolves;
    EvolvesTransitive(s, s1, s2);
    EvolvesTransitive(s, s2, s3);
    EvolvesTransitive(s, s3, s4);
  }
}
