/** The project and agent operations as they run (project.go and agent.go). */
module ProjectOps {
  import opened Commits
  import opened Model
  import opened Tables
  import ProjectSteps
  import opened Store

  /** PauseAgent and ResumeAgent */
  method SetAgentStatus(tx: Transaction, id: AgentId, status: AgentStatus) returns (error: Option<Error>)
    modifies tx`agents
    ensures Did(ProjectSteps.SetAgentStatus(old(tx.Rows()), id, status), tx.Rows(), error)
  {
    error := None;
    if id !in tx.agents {
      return Some(NotFound);
    }
    if status == AgentArchived || !ValidAgentTransition(tx.agents[id], status) {
      return Some(InvalidState);
    }
    tx.agents := tx.agents[id := status];
  }

  /** ArchiveAgent */
  method ArchiveAgent(tx: Transaction, id: AgentId) returns (error: Option<Error>)
    modifies tx`agents, tx`projects
    ensures Did(ProjectSteps.ArchiveAgent(old(tx.Rows()), id), tx.Rows(), error)
  {
    error := None;
    if id !in tx.agents {
      return Some(NotFound);
    }
    var needed :=
      (exists r | r in tx.runs :: tx.runs[r].Live() && tx.runs[r].origin.agent == id)
      || (exists t | t in tx.tasks :: tx.tasks[t].Open() && (tx.tasks[t].origin.assignee == Some(id) || tx.tasks[t].accepted == Some(id)))
      || (exists m | m in tx.messages :: tx.messages[m].Unresolved() && tx.messages[m].recipient == ToAgent(id));
    if !ValidAgentTransition(tx.agents[id], AgentArchived) || needed {
      return Some(InvalidState);
    }
    tx.agents := tx.agents[id := AgentArchived];
    tx.projects := map p | p in tx.projects ::
      if tx.projects[p].integrator == Some(id)
      then tx.projects[p].(integrator := None, version := tx.projects[p].version + 1)
      else tx.projects[p];
  }

  /** AddProject, up to its first Git call. */
  method AddProject(tx: Transaction, initial: Commit, integrator: Option<AgentId>) returns (error: Option<Error>)
    modifies tx`projects, tx`nextId
    ensures Did(ProjectSteps.AddProject(old(tx.Rows()), initial, integrator), tx.Rows(), error)
  {
    error := None;
    if integrator.Some? {
      if integrator.value !in tx.agents {
        return Some(NotFound);
      }
      if tx.agents[integrator.value] != AgentActive {
        return Some(InvalidState);
      }
    }
    var id := tx.NewId();
    var operation := tx.NewId();
    tx.projects := tx.projects[id := Project(ProjectCreating, initial, None, integrator, Some(Initialize(operation)), 1)];
  }

  /** finishProjectAction */
  method FinishProjectAction(
    tx: Transaction, id: ProjectId, operation: ProjectIntent, verified: Option<Commit>
  ) returns (error: Option<Error>)
    modifies tx`projects
    ensures Did(ProjectSteps.FinishProject(old(tx.Rows()), id, operation, verified), tx.Rows(), error)
  {
    error := None;
    if id !in tx.projects || !ProjectSteps.Observed(tx.Rows(), id, verified) {
      return Some(NotFound);
    }
    var project := tx.projects[id];
    if project.status != ProjectCreating || project.pending != Some(operation) {
      return Some(VersionConflict);
    }
    var row := project.(pending := None, version := project.version + 1);
    if verified.Some? {
      row := row.(status := ProjectActive, cachedCanonical := verified);
    } else {
      row := row.(status := ProjectError);
    }
    tx.UpdateProject(id, row, project.version);
  }

  /** RepairProject: a repository that was ever promoted is verified, never initialised again. */
  method RepairProject(tx: Transaction, id: ProjectId) returns (error: Option<Error>)
    modifies tx`projects, tx`nextId
    ensures Did(ProjectSteps.RepairProject(old(tx.Rows()), id), tx.Rows(), error)
  {
    error := None;
    if id !in tx.projects {
      return Some(NotFound);
    }
    var project := tx.projects[id];
    if project.status != ProjectError {
      return Some(InvalidState);
    }
    var operation := tx.NewId();
    var intent := if project.cachedCanonical.Some? || id in tx.canonical then Verify(operation) else Initialize(operation);
    tx.UpdateProject(id, project.(status := ProjectCreating, pending := Some(intent), version := project.version + 1),
                     project.version);
  }

  /** finishActiveVerification */
  method FinishActiveVerification(
    tx: Transaction, id: ProjectId, seen: Project, verified: Option<Commit>
  ) returns (error: Option<Error>)
    modifies tx`projects
    ensures Did(ProjectSteps.FinishVerification(old(tx.Rows()), id, seen, verified), tx.Rows(), error)
  {
    error := None;
    if verified.Some? && seen.cachedCanonical == verified {
      return;
    }
    if id !in tx.projects || !ProjectSteps.Observed(tx.Rows(), id, verified) {
      return Some(NotFound);
    }
    var project := tx.projects[id];
    if project.status != ProjectActive || project.version != seen.version {
      return Some(VersionConflict);
    }
    var row := project.(version := project.version + 1);
    if verified.Some? {
      row := row.(cachedCanonical := verified);
    } else {
      row := row.(status := ProjectError);
    }
    tx.UpdateProject(id, row, project.version);
  }

  /** ArchiveProject */
  method ArchiveProject(tx: Transaction, id: ProjectId) returns (error: Option<Error>)
    modifies tx`projects
    ensures Did(ProjectSteps.ArchiveProject(old(tx.Rows()), id), tx.Rows(), error)
  {
    error := None;
    if id !in tx.projects {
      return Some(NotFound);
    }
    var project := tx.projects[id];
    if project.pending.Some? {
      return Some(ActionInProgress);
    }
    var needed :=
      (exists r | r in tx.runs :: tx.runs[r].Live() && tx.runs[r].origin.project == id)
      || (exists t | t in tx.tasks :: tx.tasks[t].origin.project == id && (tx.tasks[t].Open() || tx.tasks[t].pending.Some?))
      || (exists m | m in tx.messages :: tx.messages[m].Unresolved() && tx.messages[m].project == id);
    if !ValidProjectTransition(project.status, ProjectArchived) || needed {
      return Some(InvalidState);
    }
    tx.UpdateProject(id, project.(status := ProjectArchived, version := project.version + 1), project.version);
  }
}
