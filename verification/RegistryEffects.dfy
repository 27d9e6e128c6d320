/** What each operation on agents and projects does, column by column (project.go and agent.go). */
module RegistryEffects {
  import opened Commits
  import opened Model
  import opened Tables
  import opened ProjectSteps
  import opened Invariant
  import opened MessageProofs

  // ---- agents ----

  /** An agent is paused and resumed, and nothing else happens to it that way. */
  lemma PauseAndResume(s: Ledger, id: AgentId, status: AgentStatus)
    ensures SetAgentStatus(s, id, status).Committed? <==>
              && id in s.agents
              && ((s.agents[id] == AgentActive && status == AgentPaused) || (s.agents[id] == AgentPaused && status == AgentActive))
    ensures SetAgentStatus(s, id, status).Committed? ==>
              SetAgentStatus(s, id, status).ledger == s.(agents := s.agents[id := status])
  {
  }

  /** No live run is the agent's, no open task is assigned to it or accepted for it, and no message waits for it. */
  ghost predicate NobodyNeedsAgent(s: Ledger, id: AgentId) {
    && (forall r :: r in s.runs && s.runs[r].origin.agent == id ==>
          s.runs[r].state != RunStarting && s.runs[r].state != RunActive)
    && (forall t :: t in s.tasks && (s.tasks[t].origin.assignee == Some(id) || s.tasks[t].accepted == Some(id)) ==>
          s.tasks[t].status == TaskCompleted || s.tasks[t].status == TaskCancelled)
    && (forall m :: m in s.messages && s.messages[m].recipient == ToAgent(id) ==>
          s.messages[m].state != MessagePending && s.messages[m].state != MessageDelivered)
  }

  lemma NeededAgent(s: Ledger, id: AgentId)
    ensures AgentIsNeeded(s, id) <==> !NobodyNeedsAgent(s, id)
  {
  }

  /** An agent nobody needs is archived, and no project names it as its integrator any more. */
  lemma ArchiveForgetsAgent(s: Ledger, id: AgentId)
    ensures ArchiveAgent(s, id).Committed? <==> id in s.agents && s.agents[id] != AgentArchived && NobodyNeedsAgent(s, id)
    ensures ArchiveAgent(s, id).Committed? ==>
              var s1 := ArchiveAgent(s, id).ledger;
              && s1 == s.(agents := s.agents[id := AgentArchived], projects := s1.projects)
              && s1.projects.Keys == s.projects.Keys
              && forall p :: p in s.projects ==>
                   s1.projects[p] == if s.projects[p].integrator == Some(id)
                                     then s.projects[p].(integrator := None, version := s.projects[p].version + 1)
                                     else s.projects[p]
  {
    NeededAgent(s, id);
    hide AgentIsNeeded, NobodyNeedsAgent;
  }

  // ---- projects ----

  /** A project starts out waiting for its repository, with an active integrator or none. */
  lemma AddProjectWaits(s: Ledger, initial: Commit, integrator: Option<AgentId>)
    requires Inv(s)
    ensures AddProject(s, initial, integrator).Committed? <==>
              integrator == None || (integrator.value in s.agents && s.agents[integrator.value] == AgentActive)
    ensures AddProject(s, initial, integrator).Committed? ==>
              var s1 := AddProject(s, initial, integrator).ledger; var id := s.nextId;
              && id !in s.projects && id in s1.projects
              && s1 == s.(projects := s.projects[id := s1.projects[id]], nextId := s.nextId + 2)
              && var p := s1.projects[id];
              && p.status == ProjectCreating && p.initial == initial && p.integrator == integrator
              && p.cachedCanonical == None && p.pending == Some(Initialize(id + 1)) && p.version == 1
  {
    hide InvExcept;
    FreshId(s, {});
  }

  /** Only the pending action of a project is finished; a report of Git names a commit that canonical contains.
    Nothing but status, cached commit and intent changes. */
  lemma FinishWritesOneRow(s: Ledger, id: ProjectId, operation: ProjectIntent, verified: Option<Commit>)
    requires Inv(s)
    ensures FinishProject(s, id, operation, verified).Committed? <==>
              && id in s.projects && s.projects[id].pending == Some(operation)
              && (verified.Some? ==> id in s.canonical && IsAncestor(verified.value, s.canonical[id]))
    ensures FinishProject(s, id, operation, verified).Committed? ==>
              var s1 := FinishProject(s, id, operation, verified).ledger; var was := s.projects[id];
              && id in s1.projects && s1 == s.(projects := s.projects[id := s1.projects[id]])
              && s1.projects[id] == was.(status := if verified.Some? then ProjectActive else ProjectError, pending := None,
                                         cachedCanonical := if verified.Some? then verified else was.cachedCanonical,
                                         version := was.version + 1)
  {
    hide InvExcept, IsAncestor;
    if id in s.projects {
      ProjectAt(s, {}, id);
    }
  }

  /** Only a project in error is repaired; it waits for Git again under a new operation. */
  lemma RepairWritesOneRow(s: Ledger, id: ProjectId)
    ensures RepairProject(s, id).Committed? <==> id in s.projects && s.projects[id].status == ProjectError
    ensures RepairProject(s, id).Committed? ==>
              var s1 := RepairProject(s, id).ledger; var was := s.projects[id];
              && id in s1.projects && s1 == s.(projects := s.projects[id := s1.projects[id]], nextId := s.nextId + 1)
              && s1.projects[id] == was.(status := ProjectCreating, pending := s1.projects[id].pending, version := was.version + 1)
              && s1.projects[id].pending.Some? && s1.projects[id].pending.value.operation == s.nextId
  {
  }

  /** No live run, no open task, no pending Git action and no waiting message is in the project. */
  ghost predicate NobodyNeedsProject(s: Ledger, id: ProjectId) {
    && (forall r :: r in s.runs && s.runs[r].origin.project == id ==>
          s.runs[r].state != RunStarting && s.runs[r].state != RunActive)
    && (forall t :: t in s.tasks && s.tasks[t].origin.project == id ==>
          (s.tasks[t].status == TaskCompleted || s.tasks[t].status == TaskCancelled) && s.tasks[t].pending == None)
    && (forall m :: m in s.messages && s.messages[m].project == id && s.messages[m].recipient.ToAgent? ==>
          s.messages[m].state != MessagePending && s.messages[m].state != MessageDelivered)
  }

  lemma NeededProject(s: Ledger, id: ProjectId)
    ensures ProjectIsNeeded(s, id) <==> !NobodyNeedsProject(s, id)
  {
  }

  /** A project nobody needs is archived from active or from error, and only its status changes. */
  lemma ArchiveNeedsIdleProject(s: Ledger, id: ProjectId)
    requires Inv(s)
    ensures ArchiveProject(s, id).Committed? <==>
              && id in s.projects && (s.projects[id].status == ProjectActive || s.projects[id].status == ProjectError)
              && NobodyNeedsProject(s, id)
    ensures ArchiveProject(s, id).Committed? ==>
              var was := s.projects[id];
              ArchiveProject(s, id).ledger
              == s.(projects := s.projects[id := was.(status := ProjectArchived, version := was.version + 1)])
  {
    NeededProject(s, id);
    hide ProjectIsNeeded, NobodyNeedsProject, InvExcept, IsAncestor;
    if id in s.projects {
      ProjectAt(s, {}, id);
    }
  }
}
