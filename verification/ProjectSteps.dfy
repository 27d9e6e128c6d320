/** Registration, repair and archiving of projects and agents
  (project.go and agent.go in internal/core).
 */
module ProjectSteps {
  import opened Commits
  import opened Model
  import opened Tables

  // ---- agents ----

  function AddAgent(s: Ledger): Tx {
    Committed(s.(agents := s.agents[s.nextId := AgentActive], nextId := s.nextId + 1))
  }

  /** PauseAgent and ResumeAgent */
  function SetAgentStatus(s: Ledger, id: AgentId, status: AgentStatus): Tx {
    if id !in s.agents then Aborted(NotFound)
    else if status == AgentArchived || !ValidAgentTransition(s.agents[id], status) then Aborted(InvalidState)
    else Committed(s.(agents := s.agents[id := status]))
  }

  /** AgentBlockers: what still needs the agent. */
  ghost predicate AgentIsNeeded(s: Ledger, id: AgentId) {
    || (exists r :: r in s.runs && s.runs[r].Live() && s.runs[r].origin.agent == id)
    || (exists t :: t in s.tasks && s.tasks[t].Open()
                    && (s.tasks[t].origin.assignee == Some(id) || s.tasks[t].accepted == Some(id)))
    || (exists m :: m in s.messages && s.messages[m].Unresolved() && s.messages[m].recipient == ToAgent(id))
  }

  /** ArchiveAgent */
  ghost function ArchiveAgent(s: Ledger, id: AgentId): Tx {
    if id !in s.agents then Aborted(NotFound)
    else if !ValidAgentTransition(s.agents[id], AgentArchived) || AgentIsNeeded(s, id) then Aborted(InvalidState)
    else
      Committed(s.(
        agents := s.agents[id := AgentArchived],
        projects := map p | p in s.projects ::
          if s.projects[p].integrator == Some(id)
          then s.projects[p].(integrator := None, version := s.projects[p].version + 1)
          else s.projects[p]))
  }

  // ---- projects ----

  /** AddProject, up to its first Git call. */
  function AddProject(s: Ledger, initial: Commit, integrator: Option<AgentId>): Tx {
    if integrator.Some? && integrator.value !in s.agents then Aborted(NotFound)
    else if integrator.Some? && s.agents[integrator.value] != AgentActive then Aborted(InvalidState)
    else
      Committed(PutProject(s, s.nextId, Project(ProjectCreating, initial, None, integrator,
                                                Some(Initialize(s.nextId + 1)), 1)).(nextId := s.nextId + 2))
  }

  /** The control repository is promoted: its canonical ref exists from now on. Running the
    initialisation again changes nothing. */
  function PromoteRepository(s: Ledger, id: ProjectId): Tx {
    if id !in s.projects then Aborted(NotFound)
    else if id in s.canonical then Committed(s)
    else Committed(s.(canonical := s.canonical[id := s.projects[id].initial]))
  }

  /** Git only ever reports a commit the canonical ref pointed to, and that ref only moves forward. */
  predicate Observed(s: Ledger, id: ProjectId, verified: Option<Commit>) {
    verified.Some? ==> id in s.canonical && IsAncestor(verified.value, s.canonical[id])
  }

  /** finishProjectAction; `verified` is the canonical commit Git reported, if it did not fail. */
  function FinishProject(s: Ledger, id: ProjectId, operation: ProjectIntent, verified: Option<Commit>): Tx {
    if id !in s.projects then Aborted(NotFound)
    else if !Observed(s, id, verified) then Aborted(NotFound)
    else
      var project := s.projects[id];
      if project.status != ProjectCreating || project.pending != Some(operation) then Aborted(VersionConflict)
      else
        var row := project.(pending := None, version := project.version + 1);
        Committed(PutProject(s, id, if verified.Some? then row.(status := ProjectActive, cachedCanonical := verified)
                                    else row.(status := ProjectError)))
  }

  /** RepairProject: a project that was active before is only ever verified. */
  function RepairProject(s: Ledger, id: ProjectId): Tx {
    if id !in s.projects then Aborted(NotFound)
    else
      var project := s.projects[id];
      if project.status != ProjectError then Aborted(InvalidState)
      else
        var intent := if project.cachedCanonical.None? && id !in s.canonical then Initialize(s.nextId) else Verify(s.nextId);
        Committed(PutProject(s, id, project.(status := ProjectCreating, pending := Some(intent),
                                             version := project.version + 1)).(nextId := s.nextId + 1))
  }

  /** finishActiveVerification; `seen` is the row the verification was started for. */
  function FinishVerification(s: Ledger, id: ProjectId, seen: Project, verified: Option<Commit>): Tx {
    if verified.Some? && seen.cachedCanonical == verified then Committed(s)
    else if id !in s.projects then Aborted(NotFound)
    else if !Observed(s, id, verified) then Aborted(NotFound)
    else
      var project := s.projects[id];
      if project.status != ProjectActive || project.version != seen.version then Aborted(VersionConflict)
      else
        var row := project.(version := project.version + 1);
        Committed(PutProject(s, id, if verified.Some? then row.(cachedCanonical := verified)
                                    else row.(status := ProjectError)))
  }

  /** ProjectBlockers */
  ghost predicate ProjectIsNeeded(s: Ledger, id: ProjectId) {
    || (exists r :: r in s.runs && s.runs[r].Live() && s.runs[r].origin.project == id)
    || (exists t :: t in s.tasks && s.tasks[t].origin.project == id && (s.tasks[t].Open() || s.tasks[t].pending.Some?))
    || (exists m :: m in s.messages && s.messages[m].Unresolved() && s.messages[m].project == id)
  }

  /** ArchiveProject */
  ghost function ArchiveProject(s: Ledger, id: ProjectId): Tx {
    if id !in s.projects then Aborted(NotFound)
    else
      var project := s.projects[id];
      if project.pending.Some? then Aborted(ActionInProgress)
      else if !ValidProjectTransition(project.status, ProjectArchived) || ProjectIsNeeded(s, id) then Aborted(InvalidState)
      else Committed(PutProject(s, id, project.(status := ProjectArchived, version := project.version + 1)))
  }
}
