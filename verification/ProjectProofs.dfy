/** Registering, repairing and archiving projects and agents keeps the invariant. */
module ProjectProofs {
  import opened Commits
  import opened Model
  import opened Tables
  import opened MessageSteps
  import opened ProjectSteps
  import opened GitSteps
  import opened Invariant
  import opened RowChanges
  import opened Evolution
  import opened MessageProofs
  import opened GitProofs

  /** Projects and agents change; Git does not. */
  lemma RegistryChange(s: Ledger, s1: Ledger)
    requires Inv(s)
    requires s1 == s.(projects := s1.projects, agents := s1.agents, nextId := s1.nextId) && SettingsEvolve(s, s1)
    requires ProjectsOk(s1)
    requires forall k :: k in s1.projects ==> k < s1.nextId
    requires forall k :: k in s1.agents ==> k < s1.nextId
    requires forall k :: k in s.tasks ==> NamesFit(s1, s.tasks[k])
    ensures Kept(s, s1)
  {
    hide TasksOk, RunsOk, MessagesOk, OneConversation, OneGeneration, OneLiveRun, RunLimitOk, ProjectsOk, NamesFit, Evolves, TaskFits,
         CapturedAncestry;
    SelfAncestor(s);
    hide IsAncestor;
    SettingsChange(s, s1, {});
  }

  lemma NamesAt(s: Ledger, k: TaskId)
    requires Inv(s) && k in s.tasks
    ensures NamesFit(s, s.tasks[k])
  {
    hide InvExcept;
    TaskAt(s, {}, k);
  }

  lemma AddAgentKeeps(s: Ledger)
    requires Inv(s)
    ensures Kept(s, AddAgent(s).ledger)
  {
    hide InvExcept, Evolves;
    FreshId(s, {});
    forall k | k in s.tasks
      ensures NamesFit(AddAgent(s).ledger, s.tasks[k])
    {
      NamesAt(s, k);
    }
    hide NamesFit;
    ProjectsStay(s, {}, AddAgent(s).ledger);
    RegistryChange(s, AddAgent(s).ledger);
  }

  lemma SetAgentStatusKeeps(s: Ledger, id: AgentId, status: AgentStatus)
    requires Inv(s) && SetAgentStatus(s, id, status).Committed?
    ensures Kept(s, SetAgentStatus(s, id, status).ledger)
  {
    hide InvExcept, Evolves;
    FreshId(s, {});
    var s1 := SetAgentStatus(s, id, status).ledger;
    forall k | k in s.tasks
      ensures NamesFit(s1, s.tasks[k])
    {
      NamesAt(s, k);
    }
    hide NamesFit;
    ProjectsStay(s, {}, s1);
    RegistryChange(s, s1);
  }

  lemma ArchiveAgentKeeps(s: Ledger, id: AgentId)
    requires Inv(s) && ArchiveAgent(s, id).Committed?
    ensures Kept(s, ArchiveAgent(s, id).ledger)
  {
    hide InvExcept, Evolves;
    FreshId(s, {});
    var s1 := ArchiveAgent(s, id).ledger;
    forall k | k in s.tasks
      ensures NamesFit(s1, s.tasks[k])
    {
      NamesAt(s, k);
    }
    hide NamesFit, AgentIsNeeded, IsAncestor;
    forall k | k in s1.projects
      ensures ProjectOk(s1, k)
    {
      ProjectAt(s, {}, k);
    }
    RegistryChange(s, s1);
  }

  lemma AddProjectKeeps(s: Ledger, initial: Commit, integrator: Option<AgentId>)
    requires Inv(s) && AddProject(s, initial, integrator).Committed?
    ensures Kept(s, AddProject(s, initial, integrator).ledger)
  {
    hide InvExcept, Evolves;
    FreshId(s, {});
    var s1 := AddProject(s, initial, integrator).ledger;
    forall k | k in s.tasks
      ensures NamesFit(s1, s.tasks[k])
    {
      NamesAt(s, k);
    }
    hide NamesFit, IsAncestor;
    forall k | k in s1.projects
      ensures ProjectOk(s1, k)
    {
      if k in s.projects {
        ProjectAt(s, {}, k);
      }
    }
    RegistryChange(s, s1);
  }

  lemma PromoteKeeps(s: Ledger, id: ProjectId)
    requires Inv(s) && PromoteRepository(s, id).Committed?
    ensures Kept(s, PromoteRepository(s, id).ledger)
  {
    hide TasksOk, RunsOk, MessagesOk, OneConversation, OneGeneration, OneLiveRun, RunLimitOk, Evolves, TaskFits,
         CapturedAncestry;
    var s1 := PromoteRepository(s, id).ledger;
    if id in s.canonical {
      EvolvesReflexive(s);
    } else {
      forall k | k in s.tasks
        ensures NamesFit(s1, s.tasks[k])
      {
        NamesAt(s, k);
      }
      SelfAncestor(s);
      AncestorReflexive(s.projects[id].initial);
      hide IsAncestor, NamesFit;
      forall k | k in s1.projects
        ensures ProjectOk(s1, k)
      {
        ProjectAt(s, {}, k);
      }
      SettingsChange(s, s1, {});
    }
  }

  lemma ProjectRowKeeps(s: Ledger, id: ProjectId, project: Project, n: nat)
    requires Inv(s) && ProjectMayBecome(s, id, project, n)
    requires project.status == ProjectArchived ==> s.projects[id].status == ProjectArchived || !ProjectIsNeeded(s, id)
    ensures Kept(s, PutProject(s, id, project).(nextId := n))
  {
    hide InvExcept, Evolves;
    FreshId(s, {});
    var s1 := PutProject(s, id, project).(nextId := n);
    forall k | k in s.tasks
      ensures NamesFit(s1, s.tasks[k])
    {
      NamesAt(s, k);
    }
    ProjectRowFits(s, {}, id, project, n);
    hide NamesFit, ProjectIsNeeded, SettingsEvolve, ProjectsOk;
    RegistryChange(s, s1);
  }

  lemma FinishProjectKeeps(s: Ledger, id: ProjectId, operation: ProjectIntent, verified: Option<Commit>)
    requires Inv(s) && FinishProject(s, id, operation, verified).Committed?
    ensures Kept(s, FinishProject(s, id, operation, verified).ledger)
  {
    hide InvExcept, Evolves, IsAncestor;
    ProjectAt(s, {}, id);
    ProjectRowKeeps(s, id, FinishProject(s, id, operation, verified).ledger.projects[id], s.nextId);
  }

  lemma RepairProjectKeeps(s: Ledger, id: ProjectId)
    requires Inv(s) && RepairProject(s, id).Committed?
    ensures Kept(s, RepairProject(s, id).ledger)
  {
    hide InvExcept, Evolves, IsAncestor;
    ProjectAt(s, {}, id);
    ProjectRowKeeps(s, id, RepairProject(s, id).ledger.projects[id], s.nextId + 1);
  }

  lemma FinishVerificationKeeps(s: Ledger, id: ProjectId, seen: Project, verified: Option<Commit>)
    requires Inv(s) && FinishVerification(s, id, seen, verified).Committed?
    ensures Kept(s, FinishVerification(s, id, seen, verified).ledger)
  {
    hide InvExcept, Evolves, IsAncestor;
    if verified.Some? && seen.cachedCanonical == verified {
      EvolvesReflexive(s);
    } else {
      ProjectAt(s, {}, id);
      ProjectRowKeeps(s, id, FinishVerification(s, id, seen, verified).ledger.projects[id], s.nextId);
    }
  }

  lemma ArchiveProjectKeeps(s: Ledger, id: ProjectId)
    requires Inv(s) && ArchiveProject(s, id).Committed?
    ensures Kept(s, ArchiveProject(s, id).ledger)
  {
    hide InvExcept, Evolves, IsAncestor, ProjectIsNeeded;
    ProjectAt(s, {}, id);
    ProjectRowKeeps(s, id, ArchiveProject(s, id).ledger.projects[id], s.nextId);
  }
}
