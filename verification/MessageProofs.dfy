/** Handing messages on, sending, delivering, acknowledging and retrying keep the invariant. */
module MessageProofs {
  import opened Commits
  import opened Model
  import opened Tables
  import opened MessageSteps
  import opened RunSteps
  import opened TaskSteps
  import opened GitSteps
  import opened Invariant
  import opened RowChanges
  import opened Evolution

  // ---- requeueing ----

  predicate MayRequeue(task: Task) {
    (task.status == TaskWaiting || task.status == TaskQueued) && task.origin.assignee.Some?
  }

  lemma RequeueFits(s: Ledger, e: set<TaskId>, task: Task, at: Time)
    requires task.id in s.tasks && s.tasks[task.id] == task && TaskOk(s, e, task) && MayRequeue(task)
    ensures TaskMayBecome(s, e, e, None, RequeuedRow(task, at))
  {
    hide IsAncestor, CapturedAncestry;
  }

  /** A task with an agent may always be queued when it waits or is queued already. */
  lemma RequeueKeeps(s: Ledger, e: set<TaskId>, task: Task, at: Time)
    requires InvExcept(s, e) && task.id in s.tasks && s.tasks[task.id] == task && MayRequeue(task)
    ensures InvExcept(PutTask(s, RequeuedRow(task, at)), e)
  {
    hide InvExcept, TaskOk, TaskMayBecome;
    TaskAt(s, e, task.id);
    RequeueFits(s, e, task, at);
    RowChange(s, e, e, None, RequeuedRow(task, at));
  }

  // ---- handing messages on ----

  predicate Requeued(was: Task, now: Task) {
    now == was
    || (MayRequeue(was) && was.version < now.version && (was.status == TaskQueued ==> now.nextRunAt <= was.nextRunAt)
        && now == was.(status := TaskQueued, nextRunAt := now.nextRunAt, version := now.version))
  }

  /** A message keeps its recipient, its budget and its account; what changes is where it waits. */
  predicate HandedOn(task: TaskId, was: Message, now: Message) {
    now == was
    || (&& was.Unresolved() && was.task == task
        && (now.state == MessageCancelled || (now.state == MessagePending && now.task != task))
        && was.version < now.version
        && now == was.(task := now.task, state := now.state, deliveredRun := None, nextAt := now.nextAt,
                       version := now.version))
  }

  /** What handing messages on touches: conversations and messages, and nothing else. */
  ghost predicate HandsOn(s: Ledger, task: TaskId, s1: Ledger) {
    && s1 == s.(tasks := s1.tasks, messages := s1.messages)
    && s1.tasks.Keys == s.tasks.Keys && s1.messages.Keys == s.messages.Keys
    && (forall k :: k in s.tasks ==> Requeued(s.tasks[k], s1.tasks[k]))
    && (forall k :: k in s.messages ==> HandedOn(task, s.messages[k], s1.messages[k]))
  }

  lemma HandsOnTransitive(a: Ledger, task: TaskId, b: Ledger, c: Ledger)
    requires HandsOn(a, task, b) && HandsOn(b, task, c)
    ensures HandsOn(a, task, c)
  {
  }

  /** The task is past taking deliveries, so it is spared while its messages are handed on. */
  ghost predicate Leaving(s: Ledger, e: set<TaskId>, task: Task) {
    task.id in s.tasks && s.tasks[task.id] == task && task.id in e && !task.AcceptsDelivery()
  }

  lemma WakeConversationKeeps(s: Ledger, e: set<TaskId>, task: Task, agent: AgentId, m: Message, now: Time)
    requires InvExcept(s, e) && CanReroute(s, task, agent)
    ensures var c := Conversation(s, task.origin.project, agent).value;
            var s1 := WakeConversation(s, s.tasks[c], m, now);
            InvExcept(s1, e) && s1 == s.(tasks := s1.tasks) && s1.tasks.Keys == s.tasks.Keys
            && (forall k :: k in s.tasks ==> Requeued(s.tasks[k], s1.tasks[k]))
            && IsOpenConversation(s1.tasks[c], task.origin.project, agent) && s1.tasks[c].AcceptsDelivery()
            && (m.wake && !m.Exhausted() ==> s1.tasks[c].status != TaskWaiting)
  {
    hide InvExcept, TaskOk;
    var c := Conversation(s, task.origin.project, agent).value;
    TaskAt(s, e, c);
    if MayRequeue(s.tasks[c]) {
      RequeueKeeps(s, e, s.tasks[c], DeliveryAt(m, now));
    }
  }

  lemma NamedRowsExist(s: Ledger, e: set<TaskId>, k: TaskId)
    requires InvExcept(s, e) && k in s.tasks
    ensures s.tasks[k].origin.project in s.projects
    ensures s.tasks[k].origin.assignee.Some? ==> s.tasks[k].origin.assignee.value in s.agents
    ensures var parent := s.tasks[k].origin.parent;
            parent.Some? ==> parent.value in s.tasks && s.tasks[parent.value].origin.project == s.tasks[k].origin.project
  {
    hide InvExcept;
    TaskAt(s, e, k);
  }

  ghost predicate Unhandled(s: Ledger, task: Task, id: MessageId) {
    id in s.messages && s.messages[id].task == task.id && s.messages[id].Unresolved()
  }

  lemma RerouteKeeps(s: Ledger, e: set<TaskId>, task: Task, id: MessageId, now: Time)
    requires InvExcept(s, e) && Leaving(s, e, task) && Unhandled(s, task, id)
    requires CanReroute(s, task, s.messages[id].recipient.agent)
    ensures var m := s.messages[id];
            var c := Conversation(s, task.origin.project, m.recipient.agent).value;
            var s1 := PutMessage(WakeConversation(s, s.tasks[c], m, now), Rerouted(m, c, now));
            s.tasks[c].id == c
            && InvExcept(s1, e) && Leaving(s1, e, task) && HandsOn(s, task.id, s1) && !Unhandled(s1, task, id)
  {
    hide InvExcept, TaskOk, MessageOk;
    MessageAt(s, e, id);
    TaskAt(s, e, Conversation(s, task.origin.project, s.messages[id].recipient.agent).value);
    var m := s.messages[id];
    var c := Conversation(s, task.origin.project, m.recipient.agent).value;
    WakeConversationKeeps(s, e, task, m.recipient.agent, m, now);
    var s1 := WakeConversation(s, s.tasks[c], m, now);
    ReroutedFits(s, s1, e, task, m, now);
    MessageChange(s1, e, Rerouted(m, c, now));
    hide WakeConversation;
  }

  lemma ReroutedFits(s: Ledger, s1: Ledger, e: set<TaskId>, task: Task, m: Message, now: Time)
    requires InvExcept(s, e) && Unhandled(s, task, m.id) && s.messages[m.id] == m
    requires CanReroute(s, task, m.recipient.agent) && task.id in s.tasks && s.tasks[task.id] == task
    requires s1.messages == s.messages && s1.nextId == s.nextId
    requires var c := Conversation(s, task.origin.project, m.recipient.agent).value;
             c in s1.tasks && IsOpenConversation(s1.tasks[c], task.origin.project, m.recipient.agent)
             && s1.tasks[c].AcceptsDelivery() && (m.wake && !m.Exhausted() ==> s1.tasks[c].status != TaskWaiting)
    ensures MessageOk(s1, e, Rerouted(m, Conversation(s, task.origin.project, m.recipient.agent).value, now))
    ensures m.id < s.nextId
  {
    hide InvExcept, TaskOk, CanReroute;
    MessageAt(s, e, m.id);
  }

  lemma CancelMessageKeeps(s: Ledger, e: set<TaskId>, task: Task, id: MessageId)
    requires InvExcept(s, e) && Leaving(s, e, task) && Unhandled(s, task, id)
    ensures var s1 := PutMessage(s, CancelledMessage(s.messages[id]));
            InvExcept(s1, e) && Leaving(s1, e, task) && HandsOn(s, task.id, s1)
            && !Unhandled(s1, task, id)
  {
    hide InvExcept;
    MessageAt(s, e, id);
    MessageChange(s, e, CancelledMessage(s.messages[id]));
  }

  lemma RecipientExists(s: Ledger, e: set<TaskId>, task: Task, id: MessageId)
    requires InvExcept(s, e) && Leaving(s, e, task) && Unhandled(s, task, id)
    ensures s.messages[id].id == id && s.messages[id].recipient.agent in s.agents
  {
    hide InvExcept;
    MessageAt(s, e, id);
    NamedRowsExist(s, e, task.id);
  }

  lemma DisposeOneKeeps(s: Ledger, e: set<TaskId>, task: Task, id: MessageId, now: Time)
    requires InvExcept(s, e) && Leaving(s, e, task)
    ensures DisposeOne(s, task, id, now).Committed?
    ensures var s1 := DisposeOne(s, task, id, now).ledger;
            InvExcept(s1, e) && Leaving(s1, e, task) && HandsOn(s, task.id, s1) && !Unhandled(s1, task, id)
  {
    hide InvExcept, CanReroute, WakeConversation, MessageOk;
    if Unhandled(s, task, id) {
      RecipientExists(s, e, task, id);
      if CanReroute(s, task, s.messages[id].recipient.agent) {
        RerouteKeeps(s, e, task, id, now);
      } else {
        CancelMessageKeeps(s, e, task, id);
      }
    }
  }

  lemma {:induction false} DisposeAllKeeps(s: Ledger, e: set<TaskId>, task: Task, ids: seq<MessageId>, now: Time)
    requires InvExcept(s, e) && Leaving(s, e, task)
    ensures DisposeAll(s, task, ids, now).Committed?
    ensures var s1 := DisposeAll(s, task, ids, now).ledger;
            InvExcept(s1, e) && Leaving(s1, e, task) && HandsOn(s, task.id, s1)
            && (forall id :: id in ids ==> !Unhandled(s1, task, id))
    decreases |ids|
  {
    hide InvExcept;
    if ids != [] {
      DisposeOneKeeps(s, e, task, ids[0], now);
      var s1 := DisposeOne(s, task, ids[0], now).ledger;
      DisposeAllKeeps(s1, e, task, ids[1..], now);
      HandsOnTransitive(s, task.id, s1, DisposeAll(s1, task, ids[1..], now).ledger);
    }
  }

  /** disposeUnresolvedMessages never fails, and leaves nothing behind on the task. */
  lemma DisposeKeeps(s: Ledger, e: set<TaskId>, task: Task, now: Time)
    requires InvExcept(s, e) && Leaving(s, e, task)
    ensures Dispose(s, task, now).Committed?
    ensures var s1 := Dispose(s, task, now).ledger;
            InvExcept(s1, e) && Leaving(s1, e, task) && HandsOn(s, task.id, s1) && NoUnresolved(s1, task.id)
  {
    hide InvExcept, TaskOk;
    NamedRowsExist(s, e, task.id);
    DisposeAllKeeps(s, e, task, MessagesForTask(s, task.id), now);
    forall m | m in s.messages && s.messages[m].task == task.id
      ensures m in MessagesForTask(s, task.id)
    {
      MessageAt(s, e, m);
    }
  }

  /** A task without unresolved messages, in step with its source, needs no exemption. */
  lemma Settle(s: Ledger, e: set<TaskId>, k: TaskId)
    requires InvExcept(s, e) && NoUnresolved(s, k)
    requires k in s.tasks && PairFits(s, e - {k}, s.tasks[k])
    ensures InvExcept(s, e - {k})
  {
    hide OneConversation, OneGeneration, OneLiveRun, RunLimitOk, ProjectsOk, GitOk, RunsOk, TaskFits, CurrentRunFits, NamesFit,
         IntegrationSourceFence, Accounted, DeliveryFits;
    assert TasksOk(s, e - {k}) by {
      forall t | t in s.tasks
        ensures TaskOk(s, e - {k}, s.tasks[t])
      {
        assert TaskOk(s, e, s.tasks[t]);
      }
    }
    assert MessagesOk(s, e - {k}) by {
      forall m | m in s.messages
        ensures MessageOk(s, e - {k}, s.messages[m])
      {
        assert MessageOk(s, e, s.messages[m]);
      }
    }
  }

  // ---- telling the parent ----

  /** What concluding a task touches beside its own row. */
  ghost predicate Concludes(s: Ledger, s1: Ledger) {
    && s1 == s.(tasks := s1.tasks, messages := s1.messages, nextId := s1.nextId)
    && s.nextId <= s1.nextId
    && s1.tasks.Keys == s.tasks.Keys
    && (forall k :: k in s.tasks ==> Requeued(s.tasks[k], s1.tasks[k]))
    && MessagesEvolve(s, s1)
  }

  lemma ConcludesTransitive(a: Ledger, b: Ledger, c: Ledger)
    requires Concludes(a, b) && Concludes(b, c)
    ensures Concludes(a, c)
  {
  }

  lemma ConcludesEvolves(s: Ledger, s1: Ledger)
    requires Concludes(s, s1)
    ensures Evolves(s, s1)
  {
  }

  lemma ConcludesKeys(s: Ledger, s1: Ledger)
    requires Concludes(s, s1)
    ensures s1.tasks.Keys == s.tasks.Keys && s1.projects == s.projects && s1.agents == s.agents && s1.runs == s.runs
            && s1.facts == s.facts && s1.canonical == s.canonical
    ensures forall k :: k in s.tasks && !MayRequeue(s.tasks[k]) ==> s1.tasks[k] == s.tasks[k]
  {
    hide MessagesEvolve;
  }

  lemma HandsOnConcludes(s: Ledger, task: TaskId, s1: Ledger)
    requires HandsOn(s, task, s1)
    ensures Concludes(s, s1)
  {
  }

  /** Inserting a fresh message for the agent of a task that takes deliveries. */
  lemma InsertToAgentKeeps(s: Ledger, e: set<TaskId>, k: TaskId, wake: bool, max: nat, now: Time)
    requires InvExcept(s, e) && k in s.tasks && max > 0
    requires s.tasks[k].AcceptsDelivery() && s.tasks[k].origin.assignee.Some?
    requires wake ==> s.tasks[k].status != TaskWaiting
    ensures InvExcept(InsertMessage(s, s.tasks[k].origin.project, k, ToAgent(s.tasks[k].origin.assignee.value), wake, max, now), e)
  {
    hide InvExcept;
    var s0 := s.(nextId := s.nextId + 1);
    NextIdGrows(s, e, s0);
    MessageChange(s0, e, Message(s.nextId, s.tasks[k].origin.project, k, ToAgent(s.tasks[k].origin.assignee.value), wake,
                                 MessagePending, None, 0, max, Some(now), 1));
  }

  lemma InsertToBossKeeps(s: Ledger, e: set<TaskId>, project: ProjectId, k: TaskId, now: Time)
    requires InvExcept(s, e)
    ensures InvExcept(InsertMessage(s, project, k, ToBoss, false, 1, now), e)
  {
    hide InvExcept;
    var s0 := s.(nextId := s.nextId + 1);
    NextIdGrows(s, e, s0);
    MessageChange(s0, e, Message(s.nextId, project, k, ToBoss, false, MessagePending, None, 0, 1, Some(now), 1));
  }

  lemma NextIdGrows(s: Ledger, e: set<TaskId>, s1: Ledger)
    requires InvExcept(s, e) && s1 == s.(nextId := s1.nextId) && s.nextId <= s1.nextId
    ensures InvExcept(s1, e)
  {
    hide IsAncestor, CapturedAncestry, TaskFits, RunFits, Accounted, IntegrationSourceFence, InvExcept;
    NamesAndMessagesStay(s, e, s1);
    OtherTablesChange(s, s1, e, e);
  }

  lemma NamesAndMessagesStay(s: Ledger, e: set<TaskId>, s1: Ledger)
    requires InvExcept(s, e) && s1 == s.(nextId := s1.nextId) && s.nextId <= s1.nextId
    ensures IdsOk(s1) && ProjectsOk(s1) && GitOk(s1) && MessagesWithin(s, s1, e)
    ensures forall k :: k in s.tasks ==> NamesFit(s1, s.tasks[k])
  {
    hide IsAncestor, CapturedAncestry, TaskFits, RunFits, MessageOk, RunsOk, OneConversation, OneGeneration, OneLiveRun,
         RunLimitOk, ProjectsOk, CurrentRunFits, PairFits;
    ProjectsKept(s, s1);
    forall k | k in s.tasks
      ensures NamesFit(s1, s.tasks[k])
    {
      assert TaskOk(s, e, s.tasks[k]);
    }
  }

  lemma InsertConcludes(s: Ledger, project: ProjectId, k: TaskId, to: Recipient, wake: bool, max: nat, now: Time)
    requires s.nextId !in s.messages
    ensures Concludes(s, InsertMessage(s, project, k, to, wake, max, now))
  {
  }

  lemma RequeueConcludes(s: Ledger, k: TaskId, at: Time)
    requires k in s.tasks && s.tasks[k].id == k && s.tasks[k].origin.assignee.Some?
    ensures Concludes(s, RequeueWaiting(s, s.tasks[k], at))
  {
    ConcludesReflexive(s);
    if s.tasks[k].status == TaskWaiting {
      assert Requeued(s.tasks[k], RequeuedRow(s.tasks[k], at));
      hide Requeued, MessageEvolves, RequeuedRow;
    }
  }

  lemma TellAgentKeeps(s: Ledger, e: set<TaskId>, k: TaskId, at: Time, wake: bool, now: Time)
    requires InvExcept(s, e) && k in s.tasks && s.tasks[k].AcceptsDelivery() && s.tasks[k].origin.assignee.Some?
    ensures var s1 := if wake then RequeueWaiting(s, s.tasks[k], at) else s;
            var s2 := InsertMessage(s1, s.tasks[k].origin.project, k, ToAgent(s.tasks[k].origin.assignee.value), wake, 3, now);
            InvExcept(s2, e) && Concludes(s, s2)
  {
    hide InvExcept, TaskOk, Concludes;
    FreshId(s, e);
    TaskAt(s, e, k);
    RequeueConcludes(s, k, at);
    ConcludesReflexive(s);
    if wake && s.tasks[k].status == TaskWaiting {
      RequeueKeeps(s, e, s.tasks[k], at);
    }
    var s1 := if wake then RequeueWaiting(s, s.tasks[k], at) else s;
    InsertToAgentKeeps(s1, e, k, wake, 3, now);
    InsertConcludes(s1, s.tasks[k].origin.project, k, ToAgent(s.tasks[k].origin.assignee.value), wake, 3, now);
    hide InsertMessage;
    ConcludesTransitive(s, s1, InsertMessage(s1, s.tasks[k].origin.project, k, ToAgent(s.tasks[k].origin.assignee.value), wake, 3, now));
  }

  lemma TellBossKeeps(s: Ledger, e: set<TaskId>, project: ProjectId, k: TaskId, now: Time)
    requires InvExcept(s, e)
    ensures var s1 := InsertMessage(s, project, k, ToBoss, false, 1, now); InvExcept(s1, e) && Concludes(s, s1)
  {
    hide InvExcept;
    FreshId(s, e);
    InsertToBossKeeps(s, e, project, k, now);
  }

  lemma NotifyParentKeeps(s: Ledger, e: set<TaskId>, child: Task, now: Time)
    requires InvExcept(s, e) && child.id in s.tasks && s.tasks[child.id] == child
    ensures NotifyParent(s, child, now).Committed?
    ensures var s1 := NotifyParent(s, child, now).ledger;
            InvExcept(s1, e) && Concludes(s, s1)
  {
    hide InvExcept, Concludes, InsertMessage, RequeueWaiting;
    NamedRowsExist(s, e, child.id);
    if child.origin.parent.None? {
      ConcludesReflexive(s);
    } else {
      var parentId := child.origin.parent.value;
      TaskAt(s, e, parentId);
      NamedRowsExist(s, e, parentId);
      if ParentListens(s, child) && s.agents[s.tasks[parentId].origin.assignee.value] != AgentArchived {
        TellAgentKeeps(s, e, parentId, now, true, now);
      } else {
        TellBossKeeps(s, e, child.origin.project, parentId, now);
      }
    }
  }

  lemma ConcludesReflexive(s: Ledger)
    ensures Concludes(s, s)
  {
  }

  // ---- concluding a task ----

  lemma PairStays(s: Ledger, s1: Ledger, e: set<TaskId>, t: Task)
    requires PairFits(s, e, t) && Concludes(s, s1)
    ensures PairFits(s1, e, t)
  {
    hide MessagesEvolve;
  }

  lemma ConcludeKeeps(s: Ledger, e: set<TaskId>, task: Task, now: Time)
    requires InvExcept(s, e) && Leaving(s, e, task) && PairFits(s, e - {task.id}, task)
    ensures Dispose(s, task, now).Committed? && Conclude(s, task, now).Committed?
    ensures var s1 := Conclude(s, task, now).ledger;
            InvExcept(s1, e - {task.id}) && Concludes(s, s1) && s1.tasks[task.id] == task
  {
    hide InvExcept, PairFits;
    DisposedAndSettled(s, e, task, now);
    var s1 := Dispose(s, task, now).ledger;
    NotifyParentKeeps(s1, e - {task.id}, task, now);
    ConcludesTransitive(s, s1, NotifyParent(s1, task, now).ledger);
    hide Dispose, NotifyParent, MessagesEvolve;
  }

  lemma DisposedAndSettled(s: Ledger, e: set<TaskId>, task: Task, now: Time)
    requires InvExcept(s, e) && Leaving(s, e, task) && PairFits(s, e - {task.id}, task)
    ensures Dispose(s, task, now).Committed?
    ensures var s1 := Dispose(s, task, now).ledger;
            InvExcept(s1, e - {task.id}) && Concludes(s, s1) && task.id in s1.tasks && s1.tasks[task.id] == task
  {
    hide InvExcept, PairFits;
    DisposeKeeps(s, e, task, now);
    var s1 := Dispose(s, task, now).ledger;
    HandsOnConcludes(s, task.id, s1);
    PairStays(s, s1, e - {task.id}, task);
    Settle(s1, e, task.id);
  }
}
