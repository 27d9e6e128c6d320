/** Sending, delivering, acknowledging and retrying messages keep the invariant. */
module SendProofs {
  import opened Commits
  import opened Model
  import opened Tables
  import opened MessageSteps
  import opened RunSteps
  import opened TaskSteps
  import opened GitSteps
  import opened Invariant
  import opened RowChanges
  import opened Evolution
  import opened MessageProofs

  // ---- sending ----

  lemma TellKeeps(s: Ledger, k: TaskId, wake: bool, now: Time)
    requires Inv(s) && k in s.tasks && s.tasks[k].AcceptsDelivery() && s.tasks[k].origin.assignee.Some?
    ensures var t := s.tasks[k];
            Kept(s, InsertMessage(WakeDelivery(s, t, wake, now), t.origin.project, k, ToAgent(t.origin.assignee.value), wake, 3, now))
  {
    hide InvExcept, Concludes, Evolves, InsertMessage, RequeueWaiting;
    TellAgentKeeps(s, {}, k, now + CONVERSATION_WAKE_MERGE_WINDOW, wake, now);
    var t := s.tasks[k];
    ConcludesEvolves(s, InsertMessage(WakeDelivery(s, t, wake, now), t.origin.project, k,
                                      ToAgent(t.origin.assignee.value), wake, 3, now));
  }

  lemma NewConversationFits(s: Ledger, project: ProjectId, agent: AgentId, wake: bool, now: Time)
    requires project in s.projects && s.projects[project].status == ProjectActive
    requires agent in s.agents && s.agents[agent] != AgentArchived
    requires Conversation(s, project, agent).None?
    ensures MayInsert(s, {}, {}, NewConversation(s.nextId, project, agent, wake, now))
  {
    hide IsAncestor;
  }

  lemma StartConversationKeeps(s: Ledger, project: ProjectId, agent: AgentId, wake: bool, now: Time)
    requires Inv(s)
    requires project in s.projects && s.projects[project].status == ProjectActive
    requires agent in s.agents && s.agents[agent] != AgentArchived
    requires Conversation(s, project, agent).None?
    ensures var created := NewConversation(s.nextId, project, agent, wake, now);
            Kept(s, InsertMessage(InsertTask(s, created), project, created.id, ToAgent(agent), wake, 3, now))
  {
    hide InvExcept, Evolves, MayInsert;
    var created := NewConversation(s.nextId, project, agent, wake, now);
    FreshId(s, {});
    NewConversationFits(s, project, agent, wake, now);
    TaskInserted(s, {}, {}, created);
    var s1 := InsertTask(s, created);
    InsertToAgentKeeps(s1, {}, created.id, wake, 3, now);
    StartConversationEvolves(s, project, agent, wake, now);
  }

  lemma StartConversationEvolves(s: Ledger, project: ProjectId, agent: AgentId, wake: bool, now: Time)
    requires s.nextId !in s.tasks && s.nextId + 1 !in s.messages
    ensures var created := NewConversation(s.nextId, project, agent, wake, now);
            Evolves(s, InsertMessage(InsertTask(s, created), project, created.id, ToAgent(agent), wake, 3, now))
  {
  }

  lemma SendKeeps(s: Ledger, project: ProjectId, agent: AgentId, explicit: Option<TaskId>, wake: bool, now: Time)
    requires Inv(s) && SendToAgent(s, project, agent, explicit, wake, now).Committed?
    ensures Kept(s, SendToAgent(s, project, agent, explicit, wake, now).ledger)
  {
    hide InvExcept, Evolves, InsertMessage, WakeDelivery, NewConversation;
    var conversation := Conversation(s, project, agent);
    if explicit.Some? && s.tasks[explicit.value].AcceptsDelivery() {
      TaskAt(s, {}, explicit.value);
      TellKeeps(s, explicit.value, wake, now);
    } else if conversation.Some? {
      TaskAt(s, {}, conversation.value);
      TellKeeps(s, conversation.value, wake, now);
    } else {
      StartConversationKeeps(s, project, agent, wake, now);
    }
  }

  // ---- delivery ----

  /** A chain of message updates: task, run and other rows stay as they are. */
  ghost predicate OnlyMessages(s: Ledger, s1: Ledger) {
    s1 == s.(messages := s1.messages) && s1.messages.Keys == s.messages.Keys && MessagesEvolve(s, s1)
  }

  lemma OnlyMessagesEvolves(s: Ledger, s1: Ledger)
    requires OnlyMessages(s, s1)
    ensures Evolves(s, s1)
  {
  }

  lemma OnlyMessagesTransitive(a: Ledger, b: Ledger, c: Ledger)
    requires OnlyMessages(a, b) && OnlyMessages(b, c)
    ensures OnlyMessages(a, c)
  {
  }

  lemma DeliverOneKeeps(s: Ledger, run: Run, id: MessageId, now: Time)
    requires Inv(s) && run.id in s.runs && s.runs[run.id] == run && run.Live()
    requires DeliverOne(s, run, id, now).Committed?
    ensures var s1 := DeliverOne(s, run, id, now).ledger; Inv(s1) && OnlyMessages(s, s1)
  {
    hide InvExcept, TaskOk;
    MessageAt(s, {}, id);
    TaskAt(s, {}, s.messages[id].task);
    var m := s.messages[id];
    if m.state == MessagePending {
      var delivered := m.(state := MessageDelivered, deliveredRun := Some(run.id), count := m.count + 1, version := m.version + 1);
      MessageChange(s, {}, delivered);
    }
  }

  lemma {:induction false} DeliverEachKeeps(s: Ledger, run: Run, ids: seq<MessageId>, now: Time)
    requires Inv(s) && run.id in s.runs && s.runs[run.id] == run && run.Live()
    requires DeliverEach(s, run, ids, now).Committed?
    ensures var s1 := DeliverEach(s, run, ids, now).ledger; Inv(s1) && OnlyMessages(s, s1)
    decreases |ids|
  {
    hide Inv, DeliverOne, MessagesEvolve;
    if ids == [] {
      NothingHappened(s);
    } else {
      DeliverOneKeeps(s, run, ids[0], now);
      var s1 := DeliverOne(s, run, ids[0], now).ledger;
      DeliverEachKeeps(s1, run, ids[1..], now);
      OnlyMessagesTransitive(s, s1, DeliverEach(s1, run, ids[1..], now).ledger);
    }
  }

  lemma NothingHappened(s: Ledger)
    ensures OnlyMessages(s, s)
  {
  }

  lemma DeliverKeeps(s: Ledger, runId: RunId, ids: seq<MessageId>, now: Time)
    requires Inv(s) && DeliverMessages(s, runId, ids, now).Committed?
    ensures Kept(s, DeliverMessages(s, runId, ids, now).ledger)
  {
    hide InvExcept, DeliverEach, Evolves;
    RunAt(s, {}, runId);
    DeliverEachKeeps(s, s.runs[runId], ids, now);
    OnlyMessagesEvolves(s, DeliverMessages(s, runId, ids, now).ledger);
  }

  // ---- acknowledgement ----

  lemma AcknowledgeOneKeeps(s: Ledger, project: ProjectId, agent: AgentId, id: MessageId)
    requires Inv(s) && AcknowledgeOne(s, project, agent, id).Committed?
    ensures var s1 := AcknowledgeOne(s, project, agent, id).ledger; Inv(s1) && OnlyMessages(s, s1)
  {
    hide InvExcept;
    MessageAt(s, {}, id);
    var m := s.messages[id];
    if m.state != MessageAcknowledged {
      MessageChange(s, {}, m.(state := MessageAcknowledged, version := m.version + 1));
    }
  }

  lemma {:induction false} AcknowledgeKeepsMessages(s: Ledger, project: ProjectId, agent: AgentId, ids: seq<MessageId>)
    requires Inv(s) && Acknowledge(s, project, agent, ids).Committed?
    ensures var s1 := Acknowledge(s, project, agent, ids).ledger; Inv(s1) && OnlyMessages(s, s1)
    decreases |ids|
  {
    hide Inv, AcknowledgeOne, MessagesEvolve;
    if ids == [] {
      NothingHappened(s);
    } else {
      AcknowledgeOneKeeps(s, project, agent, ids[0]);
      var s1 := AcknowledgeOne(s, project, agent, ids[0]).ledger;
      AcknowledgeKeepsMessages(s1, project, agent, ids[1..]);
      OnlyMessagesTransitive(s, s1, Acknowledge(s1, project, agent, ids[1..]).ledger);
    }
  }

  lemma AcknowledgeKeeps(s: Ledger, project: ProjectId, agent: AgentId, ids: seq<MessageId>)
    requires Inv(s) && Acknowledge(s, project, agent, ids).Committed?
    ensures Kept(s, Acknowledge(s, project, agent, ids).ledger)
  {
    hide InvExcept, Acknowledge, Evolves, OnlyMessages;
    AcknowledgeKeepsMessages(s, project, agent, ids);
    OnlyMessagesEvolves(s, Acknowledge(s, project, agent, ids).ledger);
  }

  // ---- RetryMessage ----

  lemma RetryMessageKeeps(s: Ledger, id: MessageId, now: Time)
    requires Inv(s) && RetryMessage(s, id, now).Committed?
    ensures Kept(s, RetryMessage(s, id, now).ledger)
  {
    hide InvExcept, Evolves, RequeueWaiting, TaskOk;
    MessageAt(s, {}, id);
    var m := s.messages[id];
    TaskAt(s, {}, m.task);
    var s1 := if m.wake then RequeueWaiting(s, s.tasks[m.task], now) else s;
    assert Inv(s1) && Concludes(s, s1) && s1.messages == s.messages && s1.nextId == s.nextId
           && (m.wake ==> s1.tasks[m.task].status != TaskWaiting) by {
      RequeueOne(s, m.task, m.wake, now);
    }
    RetriedMessageFits(s, s1, id, now);
    MessageChange(s1, {}, RetryEnabled(m, now));
    OneMessageConcludes(s1, RetryEnabled(m, now));
    hide MessageOk, Concludes;
    ConcludesTransitive(s, s1, PutMessage(s1, RetryEnabled(m, now)));
    ConcludesEvolves(s, PutMessage(s1, RetryEnabled(m, now)));
  }

  lemma RequeueOne(s: Ledger, k: TaskId, wake: bool, now: Time)
    requires Inv(s) && k in s.tasks && s.tasks[k].id == k && s.tasks[k].origin.assignee.Some?
    ensures var s1 := if wake then RequeueWaiting(s, s.tasks[k], now) else s;
            Inv(s1) && Concludes(s, s1) && s1 == s.(tasks := s1.tasks)
            && (wake ==> s1.tasks[k].status != TaskWaiting)
  {
    hide InvExcept;
    RequeueConcludes(s, k, now);
    ConcludesReflexive(s);
    if wake && s.tasks[k].status == TaskWaiting {
      RequeueKeeps(s, {}, s.tasks[k], now);
    }
  }

  lemma RetriedMessageFits(s: Ledger, s1: Ledger, id: MessageId, now: Time)
    requires id in s.messages && MessageOk(s, {}, s.messages[id]) && s.messages[id].Unresolved()
    requires s.messages[id].state == MessagePending
    requires Concludes(s, s1) && s1.messages == s.messages && s1.nextId == s.nextId
    requires s.messages[id].wake ==> s1.tasks[s.messages[id].task].status != TaskWaiting
    ensures MessageOk(s1, {}, RetryEnabled(s.messages[id], now))
  {
  }

  lemma OneMessageConcludes(s: Ledger, m: Message)
    requires m.id in s.messages && MessageEvolves(s.messages[m.id], m)
    ensures Concludes(s, PutMessage(s, m))
  {
  }
}
