/** What registration, repair and verification achieve for a project, over any history. */
module Projects {
  import opened Commits
  import opened Model
  import opened Tables
  import opened ProjectSteps
  import opened System
  import opened Invariant
  import opened Evolution
  import opened ProjectProofs
  import opened Safety

  predicate Initialises(p: Project) {
    p.pending.Some? && p.pending.value.Initialize?
  }

  /** An active project waits for nothing, and its repository was promoted: the canonical ref contains
    the commit the project was registered with and the one its row remembers. */
  lemma ActiveProjectIsVerified(s: Ledger, id: ProjectId)
    requires Reachable(s) && ProjectIsActive(s, id)
    ensures var p := s.projects[id];
            && p.pending.None? && id in s.canonical && IsAncestor(p.initial, s.canonical[id])
            && p.cachedCanonical.Some? && IsAncestor(p.cachedCanonical.value, s.canonical[id])
  {
    hide InvExcept, Reachable, IsAncestor;
    ReachableHolds(s);
    ProjectAt(s, {}, id);
  }

  /** A repair initialises exactly the projects whose repository was never promoted. */
  lemma RepairInitialisesOnlyUnpromoted(s: Ledger, id: ProjectId)
    requires Reachable(s) && RepairProject(s, id).Committed?
    ensures var p := RepairProject(s, id).ledger.projects[id];
            p.status == ProjectCreating && p.pending.Some? && (Initialises(p) <==> id !in s.canonical)
  {
    hide InvExcept, Reachable, IsAncestor;
    ReachableHolds(s);
    ProjectAt(s, {}, id);
  }

  /** Once a canonical commit was cached, or the repository is promoted and no initialisation is under
    way, no later history makes the project wait for an initialisation, and the canonical ref keeps
    everything it contained. */
  lemma NeverInitialisedAgain(s: Ledger, id: ProjectId, events: seq<Event>)
    requires Reachable(s) && id in s.projects
    requires s.projects[id].cachedCanonical.Some? || (id in s.canonical && !Initialises(s.projects[id]))
    ensures var later := RunAll(s, events);
            && id in later.projects && !Initialises(later.projects[id])
            && id in s.canonical && id in later.canonical && IsAncestor(s.canonical[id], later.canonical[id])
  {
    hide InvExcept, Reachable, RunAll, TasksEvolve, RunsEvolve, MessagesEvolve, IsAncestor;
    ReachableHolds(s);
    ProjectAt(s, {}, id);
    RunsKeep(s, events);
  }

  /** The end of a project action settles it, as Git decided, and settles it once: no later report of the
    same action is accepted, whatever happens in between. */
  lemma ActionIsFinishedOnce(
    s: Ledger, id: ProjectId, operation: ProjectIntent, verified: Option<Commit>, events: seq<Event>, again: Option<Commit>
  )
    requires Reachable(s) && FinishProject(s, id, operation, verified).Committed?
    ensures var s1 := FinishProject(s, id, operation, verified).ledger;
            && id in s1.projects && s1.projects[id].pending.None?
            && s1.projects[id].status == (if verified.Some? then ProjectActive else ProjectError)
            && (verified.Some? ==> s1.projects[id].cachedCanonical == verified)
            && (verified.None? ==> s1.projects[id].cachedCanonical == s.projects[id].cachedCanonical)
            && FinishProject(RunAll(s1, events), id, operation, again).Aborted?
  {
    hide InvExcept, Reachable, RunAll, TasksEvolve, RunsEvolve, MessagesEvolve, GitEvolves, IsAncestor;
    ReachableHolds(s);
    ProjectAt(s, {}, id);
    FinishProjectKeeps(s, id, operation, verified);
    var s1 := FinishProject(s, id, operation, verified).ledger;
    RunsKeep(s1, events);
  }

  /** A verification that took any time acts only on the row it was started for: it finds that row
    unchanged, still active, and remembers the reported commit or stops the project; otherwise it
    changes nothing. */
  lemma VerificationActsOnWhatItSaw(s: Ledger, id: ProjectId, events: seq<Event>, verified: Option<Commit>)
    requires Reachable(s) && id in s.projects
    ensures var later := RunAll(s, events); var seen := s.projects[id];
            var s1 := FinishVerification(later, id, seen, verified).From(later);
            s1 == later
            || (&& id in later.projects && later.projects[id] == seen && seen.status == ProjectActive
                && s1 == PutProject(later, id, s1.projects[id])
                && s1.projects[id].pending.None?
                && if verified.Some? then
                     s1.projects[id].status == ProjectActive && s1.projects[id].cachedCanonical == verified
                     && id in later.canonical && IsAncestor(verified.value, later.canonical[id])
                   else
                     s1.projects[id].status == ProjectError && s1.projects[id].cachedCanonical == seen.cachedCanonical)
  {
    hide InvExcept, Reachable, RunAll, TasksEvolve, RunsEvolve, MessagesEvolve, GitEvolves, IsAncestor;
    ReachableHolds(s);
    ProjectAt(s, {}, id);
    RunsKeep(s, events);
  }
}
