/** What one transaction, or any number of them, may do to a row that already exists.

  A row is rewritten only together with a larger version, so a version seen earlier and
  seen again names the same row: the snapshot fences of the two-transaction operations
  and of the Git projections rest on this.
 */
module Evolution {
  import opened Commits
  import opened Model
  import opened Tables
  import opened Invariant

  predicate TaskEvolves(was: Task, now: Task) {
    now == was
    || (&& now.id == was.id && now.origin == was.origin
        && was.version < now.version && was.generation <= now.generation
        && (was.status == TaskCompleted ==>
              !was.sourceReleased && was.origin.source.Some?
              && now == was.(sourceReleased := true, version := now.version))
        && (was.sourceReleased ==> now.sourceReleased)
        && (was.status == TaskCancelled ==> now.status == TaskCancelled))
  }

  predicate CleanupEvolves(was: CleanupState, now: CleanupState) {
    && (was != CleanupNotNeeded ==> now != CleanupNotNeeded)
    && (was == CleanupRemoved ==> now == CleanupRemoved)
  }

  predicate RunEvolves(was: Run, now: Run) {
    now == was
    || (&& now.id == was.id && now.origin == was.origin && was.version < now.version
        && LaunchPhaseOrder(was.phase) <= LaunchPhaseOrder(now.phase)
        && (was.nonce.Some? ==> now.nonce == was.nonce && now.cleanupOperation == was.cleanupOperation)
        && (was.container.Some? ==> now.container == was.container)
        && (was.outcome.Some? ==> now.outcome == was.outcome && now.expectedHead == was.expectedHead)
        && (was.stop.Some? ==> now.stop == was.stop)
        && (was.tokenRevoked ==> now.tokenRevoked)
        && (now.state == was.state || ValidRunTransition(was.state, now.state))
        && (!was.Live() ==> now.phase == was.phase && now.nonce == was.nonce && now.container == was.container)
        && (!was.Live() ==> now.fact == was.fact.(lastError := now.fact.lastError) && now.session == was.session)
        && (!was.Live() && was.cleanup == CleanupRemoved ==> now.fact == was.fact)
        && (now.Live() && was.session != "" ==> now.session == was.session)
        && CleanupEvolves(was.cleanup, now.cleanup))
  }

  predicate MessageEvolves(was: Message, now: Message) {
    now == was
    || (&& now.id == was.id && now.project == was.project && now.recipient == was.recipient
        && now.wake == was.wake && now.max == was.max && was.version < now.version
        && (was.state == MessagePending || was.state == MessageDelivered))
  }

  predicate AgentEvolves(was: AgentStatus, now: AgentStatus) {
    was == AgentArchived ==> now == AgentArchived
  }

  ghost predicate TasksEvolve(s: Ledger, s1: Ledger) {
    && (forall k :: k in s.tasks ==> k in s1.tasks && TaskEvolves(s.tasks[k], s1.tasks[k]))
    && (forall k :: k in s1.tasks && k !in s.tasks ==> s.nextId <= k)
  }

  ghost predicate RunsEvolve(s: Ledger, s1: Ledger) {
    && (forall k :: k in s.runs ==> k in s1.runs && RunEvolves(s.runs[k], s1.runs[k]))
    && (forall k :: k in s1.runs && k !in s.runs ==> s.nextId <= k)
  }

  ghost predicate MessagesEvolve(s: Ledger, s1: Ledger) {
    && (forall k :: k in s.messages ==> k in s1.messages && MessageEvolves(s.messages[k], s1.messages[k]))
    && (forall k :: k in s1.messages && k !in s.messages ==> s.nextId <= k)
  }

  predicate ProjectEvolves(was: Project, now: Project) {
    && was.version <= now.version && (was.version == now.version ==> now == was)
    && (was.status == ProjectArchived ==> now.status == ProjectArchived)
    && now.initial == was.initial
    && (was.cachedCanonical.Some? ==> now.cachedCanonical.Some?)
  }

  /** An action a project comes to wait for has a new name, and it is an initialisation only while no
    repository was ever promoted. */
  ghost predicate ProjectIntentEvolves(s: Ledger, k: ProjectId, now: Option<ProjectIntent>)
    requires k in s.projects
  {
    || now == s.projects[k].pending
    || now.None?
    || (s.nextId <= now.value.operation
        && (now.value.Initialize? ==> k !in s.canonical && s.projects[k].cachedCanonical.None?))
  }

  ghost predicate SettingsEvolve(s: Ledger, s1: Ledger) {
    && (forall k :: k in s.projects ==>
          k in s1.projects && ProjectEvolves(s.projects[k], s1.projects[k])
          && ProjectIntentEvolves(s, k, s1.projects[k].pending))
    && (forall k :: k in s.agents ==> k in s1.agents && AgentEvolves(s.agents[k], s1.agents[k]))
    && s.nextId <= s1.nextId && s1.maxRuns == s.maxRuns
  }

  ghost predicate GitEvolves(s: Ledger, s1: Ledger) {
    && (forall p :: p in s.canonical ==> p in s1.canonical && IsAncestor(s.canonical[p], s1.canonical[p]))
    && s.intents <= s1.intents && s.facts <= s1.facts
    && (forall t :: t in s1.intents && t !in s.intents ==> t.id in s1.tasks && TaskEvolves(t, s1.tasks[t.id]))
  }

  ghost predicate Evolves(s: Ledger, s1: Ledger) {
    TasksEvolve(s, s1) && RunsEvolve(s, s1) && MessagesEvolve(s, s1) && SettingsEvolve(s, s1) && GitEvolves(s, s1)
  }

  lemma EvolvesTransitive(a: Ledger, b: Ledger, c: Ledger)
    requires Evolves(a, b) && Evolves(b, c)
    ensures Evolves(a, c)
  {
    RowsEvolveTransitive(a, b, c);
    assert SettingsEvolve(a, c) by {
      hide TasksEvolve, RunsEvolve, MessagesEvolve, IsAncestor;
    }
    assert GitEvolves(a, c) by {
      forall p | p in a.canonical
        ensures p in c.canonical && IsAncestor(a.canonical[p], c.canonical[p])
      {
        AncestorTransitive(a.canonical[p], b.canonical[p], c.canonical[p]);
      }
      hide IsAncestor, RunsEvolve, MessagesEvolve;
    }
    hide TasksEvolve, RunsEvolve, MessagesEvolve, SettingsEvolve, GitEvolves;
  }

  lemma RowsEvolveTransitive(a: Ledger, b: Ledger, c: Ledger)
    requires TasksEvolve(a, b) && RunsEvolve(a, b) && MessagesEvolve(a, b) && a.nextId <= b.nextId
    requires TasksEvolve(b, c) && RunsEvolve(b, c) && MessagesEvolve(b, c)
    ensures TasksEvolve(a, c) && RunsEvolve(a, c) && MessagesEvolve(a, c)
  {
    forall k | k in a.runs
      ensures k in c.runs && RunEvolves(a.runs[k], c.runs[k])
    {
      RunEvolvesTransitive(a.runs[k], b.runs[k], c.runs[k]);
    }
    hide RunEvolves;
  }

  lemma RunEvolvesTransitive(a: Run, b: Run, c: Run)
    requires RunEvolves(a, b) && RunEvolves(b, c)
    ensures RunEvolves(a, c)
  {
    if a != b && b != c && a.state != b.state {
      assert ValidRunTransition(a.state, c.state);
    }
  }

  lemma EvolvesReflexive(s: Ledger)
    ensures Evolves(s, s)
  {
  }

  /** What every committed transaction achieves. */
  ghost predicate Kept(s: Ledger, s1: Ledger) {
    Inv(s1) && Evolves(s, s1)
  }

  lemma KeptTransitive(a: Ledger, b: Ledger, c: Ledger)
    requires Kept(a, b) && Kept(b, c)
    ensures Kept(a, c)
  {
    hide Inv, Evolves;
    EvolvesTransitive(a, b, c);
  }
}
