/** The life of one run over any history: its launch, its terminal fact and its owed cleanup. */
module Lifecycle {
  import opened Model
  import opened Tables
  import opened RunSteps
  import opened System
  import opened Invariant
  import opened Evolution
  import opened RunProofs
  import opened Safety

  /** In every reachable state: active is live with the process observed, a container exists
    exactly from phase created on, and a launched run owes its cleanup until it ended. */
  lemma LaunchFacts(s: Ledger, id: RunId)
    requires Reachable(s) && id in s.runs
    ensures var run := s.runs[id];
            && (run.state == RunActive <==> run.Live() && run.phase == LaunchProcessObserved)
            && (run.container.Some? <==> LaunchPhaseOrder(run.phase) >= LaunchPhaseOrder(LaunchCreated))
            && (run.cleanup == CleanupNotNeeded <==> run.nonce.None?)
            && (run.cleanup == CleanupRemoved ==> !run.Live())
            && (run.outcome.Some? || run.stop.Some? || !run.Live() ==> run.tokenRevoked)
  {
    hide InvExcept;
    ReachableHolds(s);
    RunAt(s, {}, id);
  }

  /** From any state on, whatever happens: the phase only grows, nonce, container and outcome are
    set once, an ended run stays as it ended up to its last error, a live one keeps its session, and
    removed is final, also for the last error. */
  lemma LaunchOnlyAdvances(s: Ledger, id: RunId, events: seq<Event>)
    requires Reachable(s) && id in s.runs
    ensures var later := RunAll(s, events);
            id in later.runs && RunEvolves(s.runs[id], later.runs[id])
  {
    hide Inv, Reachable, RunAll, RunEvolves;
    ReachableHolds(s);
    RunsKeep(s, events);
  }

  /** The end of a run may be reported again: it is accepted exactly while the last error is still the
    reported one, the rest of the recorded end cannot have changed, and then it changes nothing. */
  lemma ReplayIsExact(s: Ledger, id: RunId, input: TerminalInput, now: Time, events: seq<Event>, later: Time)
    requires Reachable(s) && id in s.runs && s.runs[id].Live()
    requires TerminalFence(s.runs[id], input) && ValidRunTransition(s.runs[id].state, input.state) && input.state != RunActive
    ensures var s1 := RunAll(RecordTerminal(s, id, input, now).From(s), events);
            id in s1.runs
            && RecordTerminal(s1, id, input, later) ==
                 (if s1.runs[id].fact.lastError == input.fact.lastError then Committed(s1) else Aborted(InvalidState))
  {
    hide Inv, Reachable, RunAll, TerminalFence, RecordTerminal;
    ReachableHolds(s);
    TerminalCommits(s, id, input, now);
    var s0 := RecordTerminal(s, id, input, now).ledger;
    RunsKeep(s0, events);
    var s1 := RunAll(s0, events);
    EndedForGood(s, s0, s1, id, input);
    ReplayDecides(s1, id, input, later);
  }

  lemma EndedForGood(s: Ledger, s0: Ledger, s1: Ledger, id: RunId, input: TerminalInput)
    requires id in s.runs && s.runs[id].Live() && TerminalFence(s.runs[id], input)
    requires ValidRunTransition(s.runs[id].state, input.state) && input.state != RunActive
    requires s0.runs == s.runs[id := EndedRun(s.runs[id], input)] && RunsEvolve(s0, s1)
    ensures id in s1.runs && s1.runs[id].state == input.state && TerminalFence(s1.runs[id], input)
    ensures SameTerminalFact(s1.runs[id], input) <==> s1.runs[id].fact.lastError == input.fact.lastError
  {
    assert RunEvolves(s0.runs[id], s1.runs[id]);
  }

  lemma ReplayDecides(s: Ledger, id: RunId, input: TerminalInput, now: Time)
    requires Inv(s) && id in s.runs && s.runs[id].state == input.state && !s.runs[id].Live()
    requires TerminalFence(s.runs[id], input)
    ensures RecordTerminal(s, id, input, now) ==
              (if SameTerminalFact(s.runs[id], input) then Committed(s) else Aborted(InvalidState))
  {
    hide InvExcept, ProjectTerminal, TerminalFence, SameTerminalFact, RunFits;
    RunAt(s, {}, id);
  }

  /** The replay is not idempotent in general. Whatever the state: when a blocked cleanup with another
    error is recorded between two reports of the same end, the first was still accepted and the
    second is refused. */
  lemma BlockedCleanupRefusesReplay(
    s: Ledger, id: RunId, input: TerminalInput, key: RuntimeKey, operation: OperationId, lastError: string,
    now: Time, later: Time
  )
    requires Inv(s) && id in s.runs && !s.runs[id].Live()
    requires TerminalFence(s.runs[id], input) && SameTerminalFact(s.runs[id], input)
    requires RecordCleanup(s, id, key, operation, CleanupBlocked, lastError).Committed? && lastError != input.fact.lastError
    ensures RecordTerminal(s, id, input, now) == Committed(s)
    ensures RecordTerminal(RecordCleanup(s, id, key, operation, CleanupBlocked, lastError).ledger, id, input, later)
            == Aborted(InvalidState)
  {
    hide Inv, RecordTerminal, RecordCleanup;
    ReplayDecides(s, id, input, now);
    var s1 := RecordCleanup(s, id, key, operation, CleanupBlocked, lastError).ledger;
    CleanupKeeps(s, id, key, operation, CleanupBlocked, lastError);
    BlockedRow(s, id, input, key, operation, lastError);
    ReplayDecides(s1, id, input, later);
  }

  lemma BlockedRow(
    s: Ledger, id: RunId, input: TerminalInput, key: RuntimeKey, operation: OperationId, lastError: string
  )
    requires Inv(s) && id in s.runs && !s.runs[id].Live()
    requires TerminalFence(s.runs[id], input) && SameTerminalFact(s.runs[id], input)
    requires RecordCleanup(s, id, key, operation, CleanupBlocked, lastError).Committed? && lastError != input.fact.lastError
    ensures var s1 := RecordCleanup(s, id, key, operation, CleanupBlocked, lastError).ledger;
            id in s1.runs && s1.runs[id].state == input.state && !s1.runs[id].Live()
            && s1.runs[id].fact.lastError == lastError
            && TerminalFence(s1.runs[id], input) && !SameTerminalFact(s1.runs[id], input)
  {
    hide InvExcept;
    RunAt(s, {}, id);
  }
}
