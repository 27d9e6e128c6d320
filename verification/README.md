# CoordPlane, modelled and proved

CoordPlane coordinates tasks, agent runs, messages and Git results through small transactions on
SQLite tables. Each transaction is guarded by versions, statuses and generations; the Git and
container work happens between transactions, and the daemon may crash there. This project models
the tables, the transactions, the Git effects and the workers, and proves what they promise over
every history.

How the project is built:

- `Model`, `Tables`, `Commits`: rows, statuses, transition tables, and Git history. A commit ID is
  injective, so a commit is its tree and its parents, and ancestry is a property of two commits.
- `MessageSteps`, `RunSteps`, `TaskSteps`, `GitSteps`, `ProjectSteps`: what each transaction does,
  as a function from the rows to the new rows or an error. `System` joins them, the Git effects and
  the observations of Git into one transition system. A fact that Git reported stays available for
  ever, so a projection may come late, twice or never.
- `Invariant` says what holds between transactions. `RowChanges` proves it for the change of single
  rows; `MessageProofs`, `SendProofs`, `RunProofs`, `TaskProofs`, `GitProofs`, `AdvanceProofs` and
  `ProjectProofs` prove it for every transaction; `Safety` for every history. `Evolution` says what
  may happen to a row that exists.
- `Guarantees`, `Edges`, `Intents`, `Lifecycle`, `Endings`, `Disposal`, `Projects`: the promises that
  follow. `Histories` gives concrete histories for the exceptional cases.
- `RunEffects`, `TerminalEffects`, `MessageEffects`, `TaskEffects`, `GitEffects`, `RegistryEffects`: what
  every transaction does to every column, when exactly it is accepted, and that it writes nothing
  else, said without the functions that compute it. `Refusals`: why it refuses.
- `Store`, `MessageOps`, `RunOps`, `TaskOps`, `GitOps`, `ProjectOps`, `Scheduler`, `Service`: the
  transactions as they run, on a unit of work whose tables they reassign row by row, with the loops
  of the program. `Service.Serve` refines the transition system and keeps its invariant.
- `AdvanceLoop`, `CapturePhases`, `Initializer`: the Git side, with other writers and with stops at
  every phase point. `Ownership`: the workers of the daemon, interleaved in any way. `Secrets`,
  `SecretsGrammar`, `Paging`, `Requests`: the secrets file, cursor paging, and requests of two transactions.

What is taken as given: a transaction is atomic and serial; IDs are fresh and numbers here, so the
creation order of the queries is the order of the IDs; instants are numbers and need not grow from
one request to the next; every writer of a canonical ref only fast-forwards it. Text columns,
events and everything that only describes a row are omitted. `Authenticated` stands for a run token
that is valid. In `RepairProject` the row is read before the transaction and compared by version in
it, which is one step here. Message IDs arrive sorted and without repeats; the operations are
specified for any list.

Two results are worth a warning. A terminal report is not idempotent in general: a blocked cleanup
overwrites the error a repeated report is compared with (`Lifecycle.BlockedCleanupRefusesReplay`,
and `Histories.ReplayIsRefused` for a history that gets there); `Lifecycle.ReplayIsExact` says
exactly when a repeat is accepted. An advance may report Stale although a fast-forward was possible
(`AdvanceLoop.StaleAfterThreeRaces`); `AdvanceLoop.InexactStaleIsExact` says exactly when: it lost
every race.

Where code and comments differ, the model follows the code: the ten-second merge window of
`wakeDeliveryTask` also applies to work and integration tasks that are named explicitly
(internal/core/agent_message.go:254-268). Two status edges are taken outside the table of
internal/core/fsm.go:35-54: submitted to failed after a fatal advance, and waiting to completed for a
human's work task; `Edges.EveryEdgeIsKnown` proves that there are no others. `RecordRunSession` refuses to change
the native session of a live run, but its terminal report may replace it
(internal/core/terminal.go:66-68).

Check everything with `dafny verify dfyconfig.toml`.

## Model

| member | source | states |
|---|---|---|
| Commits.AncestorTransitive | internal/gitrepo/result.go:785-808 | containment in history composes: what an ancestor contains, every descendant contains |
| Commits.AncestorAntisymmetric | internal/gitrepo/result.go:785-808 | two commits that contain each other are one commit, so the outcomes of an advance exclude each other |
| Safety.StepKeeps | internal/core/terminal.go:12-108 | every committed step of the service, of Git or of the scheduler keeps the whole invariant (tasks, runs, messages, pairs, intents, limits), and every old row only evolves: larger version, same origin, no way back from a closed state |
| Safety.NextKeeps | internal/core/task_actions.go:240-293 | the same for a request with bundled acknowledgements, and for one that is rolled back |
| Safety.RunsKeep | internal/core/terminal.go:12-108 | the same for any number of requests in any order at any instants, with crashes between a Git effect and its projection |
| Safety.ReachableHolds | internal/store/schema.go:220-236 | every state some history from an empty database leads to satisfies the invariant |
| Guarantees.NoLostWakeUp | internal/core/terminal.go:190-215 | in every reachable state an unresolved agent message sits on a task of its recipient that still accepts delivery (none is stranded), and one that owes a run never sits on a waiting task |
| Guarantees.DeliveryIsAccounted | internal/core/message_delivery.go:74-94 | the delivery count never exceeds a positive maximum; a pending message has no delivery time exactly when it is exhausted; a delivered one names a live run of its recipient |
| Guarantees.CompletedIsIntegrated | internal/core/git_reconcile.go:374-458 | the captured head of a completed task is an ancestor of the canonical ref of its project, now and after any further history; its row never changes again, except that the ref of its source may be released, once |
| Guarantees.IntegrationIsPaired | internal/core/git_reconcile.go:569-578 | every open integration task passes the source fence with its source, including the exact source version |
| Guarantees.SourceIsPaired | internal/core/git_reconcile.go:522-544 | the link of a submitted source points to an open integration task in step with it, and that is its only open one |
| Guarantees.LiveRunIsCurrent | internal/core/run.go:46-94 | a live run is the current run of its task; at most one is live per task and per agent, and at most maxRuns in all |
| Guarantees.GenerationsDiffer | internal/core/run.go:64-66 | two runs of one task never share a generation |
| Guarantees.CurrentRunsDiffer | internal/store/schema.go:223-224 | no two tasks have the same current run, so the unique index never rejects a write |
| Guarantees.RefsAreOwn | internal/gitrepo/result.go:149-158 | a result is held under the ref of its own task and run, and so is the copy an integration works on |
| Guarantees.SourceRefsDiffer | internal/store/schema.go:225-227 | two open integration tasks never share a source ref, so the unique index never rejects a write |
| Guarantees.RetryOutdatesRuns | internal/core/task_actions.go:69-95 | a retried task has a greater generation than every run it ever had; none of them is live or may act for it |
| Guarantees.FinishingMeansRequested | internal/core/outcome.go:192-227 | a task that is not cancelled is finishing exactly when its current run has requested an outcome, and otherwise that run is live |
| Guarantees.TerminalIsAccepted | internal/core/terminal.go:188-261 | the end of every live run is accepted when fence and transition allow it; it changes that run alone, and its task row is settled by outcome, kind of end and retries left, column by column; the task lets go of the run, except for a submit that waits for its capture |
| Guarantees.ArchivedAgentIsDone | internal/core/agent.go:201-255 | an archived agent stays archived and is never again assigned to or accepted for an open task, nor the recipient of an unresolved message |
| Guarantees.ArchivedProjectIsDone | internal/core/project.go:234-271 | an archived project stays archived and never again has an open task or an unresolved agent message |
| Intents.IntentsArePast | internal/core/git_reconcile.go:123-177 | every intent the reconciler ever read is an earlier version of a row that still exists |
| Intents.CaptureFenceHolds | internal/core/git_reconcile.go:265-272 | while a capture is pending and its run has ended, the capture fence holds for the row itself |
| Intents.CaptureFenceIsExact | internal/core/git_reconcile.go:265-272 | the capture fence accepts an intent if and only if the task row is still exactly the row read and its run has ended |
| Intents.AdvanceFenceIsExact | internal/core/git_reconcile.go:557-567 | the advance fence accepts an intent if and only if the task row is still exactly the row read |
| Intents.OvertakenForever | internal/core/git_reconcile.go:265-272 | an intent older than its row passes neither fence in any later state |
| Intents.CaptureIsConsumedOnce | internal/core/git_reconcile.go:179-263 | with an active project a reported capture of the pending row always becomes its submitted result, and no later projection of the intent passes a fence |
| Intents.CaptureFailureIsConsumedOnce | internal/core/git_reconcile.go:274-339 | a reported failure queues the task while it has retries left and fails it otherwise, or at once for a Git invariant; retries never exceed the maximum; the intent is spent |
| Intents.AdvanceIsConsumedOnce | internal/core/git_reconcile.go:341-372 | a reported advance of the pending row completes it at the reported commit, or links it to a new open integration task, or requeues the integration; the intent is spent |
| Edges.TableIsExact | internal/core/fsm.go:35-54 | the edges of the status table, one by one |
| Edges.EveryEdgeIsKnown | internal/core/fsm.go:35-54 | in every reachable state every request moves every task along an edge of the status table or not at all; only a fatal advance and a human confirmation take an edge outside it |
| Edges.FatalAdvanceLeavesTable | internal/core/git_reconcile.go:595-628 | projecting a fatal advance moves a submitted task to failed, an edge no kind of task has in the table |
| Edges.ConfirmationLeavesTable | internal/core/task_complete.go:80-110 | a human confirmation moves a waiting work task to completed, an edge the table does not have |
| Lifecycle.LaunchFacts | internal/core/runtime_lifecycle.go:315-385 | active means live with the process observed; a container is known exactly from phase created on; cleanup is not needed exactly while there is no nonce; removed only after the end; the token is revoked with outcome, stop or end |
| Lifecycle.LaunchOnlyAdvances | internal/core/runtime_lifecycle.go:518-562 | over any history the phase only grows, nonce, container, outcome and stop are set once, a live run keeps its session, an ended run keeps state, exit code, reason, error code and session, and once removed also its last error; removed is final |
| Endings.EndIsRewrittenByBlockedCleanup | internal/core/runtime_lifecycle.go:457-500 | in every reachable state and for every request the recorded end of a run changes only when a blocked cleanup of that run replaces its last error; anything but a cleanup report leaves the whole row of an ended run alone |
| Lifecycle.ReplayIsExact | internal/core/terminal.go:54-60 | after any history a repeated report of the same end, session included, is accepted, without effect, if and only if the last error is still the reported one |
| Lifecycle.BlockedCleanupRefusesReplay | internal/core/runtime_lifecycle.go:487-491 | in every state: a blocked cleanup with another error, recorded between two reports of the same end, makes the second one be refused although the first was accepted |
| Histories.ReplayIsRefused | internal/core/terminal.go:54-60 | a history from an empty database that leads to such a refused report |
| Histories.FatalAdvanceHappens | internal/core/git_reconcile.go:595-628 | a history from an empty database after which a fatal advance takes a submitted task to failed |
| Histories.ConfirmationHappens | internal/core/task_complete.go:80-110 | a history from an empty database after which a human takes a waiting work task to completed |
| Disposal.DisposeSettles | internal/core/task_messages.go:7-94 | all unresolved messages of a task that stops receiving runs get one decision taken from the initial state: all move, pending and with their budget unchanged, to the open conversation of their agent, or all are cancelled; no other message changes |
| Disposal.SameRoute | internal/core/task_messages.go:26-36 | rerouting one message changes neither whether nor where the next ones are rerouted |
| TerminalEffects.EndSettles | internal/core/terminal.go:12-108 | the end of a live run stores exactly the report, takes the token and returns its messages; by outcome its task stays for capture, fails, waits exactly when no wake is pending, or is queued for the earliest wake; without outcome it is queued for free after timeout or interruption, otherwise with one more retry while there are any, and fails then; nothing else is written unless it fails and is concluded |
| TerminalEffects.EndIsAcceptedExactly | internal/core/terminal.go:110-133 | a report is accepted exactly when it names the launch and container, or an unprepared run that failed; only a run that never became active can fail; an ended run accepts what it recorded |
| TerminalEffects.BackoffDoubles | internal/core/run.go:164-178 | the backoff is one second for the first two retries, doubles with each further one and stops at 32 |
| RunEffects.ClaimGivesRun | internal/core/run.go:20-94 | a claim is accepted exactly for a due queued task without a run, in an active project, whose active agent has neither a live run nor an owed cleanup, while fewer than maxRuns are live; every column of the new run and task is stated, and nothing else changes |
| RunEffects.LaunchIsStoredOnce | internal/core/runtime_lifecycle.go:207-284 | a launch intent is accepted exactly while the task waits for this run and nothing was created; it owes a cleanup; the same intent changes nothing |
| RunEffects.ContainerIsRecordedOnce | internal/core/runtime_lifecycle.go:315-327 | the first fenced report names the container for good |
| RunEffects.StartIsRecordedOnce | internal/core/runtime_lifecycle.go:329-331 | the start is recorded exactly once the container exists |
| RunEffects.ActivationStartsBoth | internal/core/runtime_lifecycle.go:333-386 | run and task start running together, exactly when the start was issued and the task still waits for this run |
| RunEffects.SessionIsRecordedOnce | internal/core/runtime_lifecycle.go:388-426 | a live run learns exactly one session |
| RunEffects.HeartbeatNeedsActive | internal/core/runtime_lifecycle.go:428-455 | a heartbeat is accepted exactly for an active run and a valid fence, and touches the version only |
| RunEffects.CleanupFollowsItsRun | internal/core/runtime_lifecycle.go:457-500 | which cleanup state follows which is stated completely; removed needs an ended run; only a blocked cleanup writes an error |
| RunEffects.StopIsAcceptedExactly | internal/core/run_actions.go:16-76 | a live run accepts a first stop, and then only the same one |
| RunEffects.FirstStopCounts | internal/core/run_actions.go:16-76 | the first stop stores reason and operation and takes the token; a repeat changes nothing |
| RunEffects.OutcomeFinishesTask | internal/core/outcome.go:151-245 | an outcome is accepted exactly from the active run of a running task, with its token, for the rows that were seen; it finishes the task, and a submit freezes head and version in a capture intent |
| MessageEffects.SendAddsOneMessage | internal/core/agent_message.go:184-269 | a send is accepted exactly for a good address with somewhere or nothing yet to deliver to; it adds one pending message with the given wake flag, three deliveries and due now, on the named task if it takes deliveries and else in the open or a new conversation; a woken task that waited is queued ten seconds ahead; nothing else changes |
| MessageEffects.NotifyTellsParent | internal/core/task_messages.go:96-165 | the end of a child is reported once: as a wake message to the agent of a parent that takes deliveries, which is queued at once if it waits, and otherwise to the boss |
| MessageEffects.DeliveryIsAllOrNothing | internal/core/message_delivery.go:46-104 | a list is delivered exactly when its run is live and current and every message is meant for it and due; each pending one spends one delivery, however often it is listed |
| MessageEffects.AcknowledgeIsAllOrNothing | internal/core/coordination.go:56-93 | a list is acknowledged exactly when its agent is the recipient of every message and none was cancelled; only the state changes |
| MessageEffects.RetryRenewsMessage | internal/core/message_actions.go:24-74 | exactly a pending agent message gets its budget back and is due now; a waiting task is queued for a wake message |
| Disposal.DisposeMovesOrCancels | internal/core/task_messages.go:7-94 | every unresolved message moves to the open conversation of its agent, due when it was due but not before now, or is cancelled when there is none; a conversation is requeued only for a message that moved there, and runs in time for all of them |
| Disposal.ConcludeConcludes | internal/core/git_reconcile.go:253-262 | concluding a task settles its messages first and reports to its parent then |
| TaskEffects.CreateAddsTask | internal/core/task_create.go:129-286 | creation is accepted exactly for an active project, an unchanged result as source and an agent that is not archived, and for a run only in its own project; every column of the new task is stated |
| TaskEffects.WakeQueuesTask | internal/core/task_actions.go:19-67 | exactly a waiting task of an agent is queued now, and exactly its exhausted pending messages get their budget back |
| TaskEffects.RetryQueuesTask | internal/core/task_actions.go:69-95 | exactly a failed task is queued now under the next generation |
| TaskEffects.ReworkQueuesTask | internal/core/task_actions.go:206-238 | exactly a submitted task without acceptance in progress and without integration is queued now and loses its acceptance |
| TaskEffects.CancelStopsAndConcludes | internal/core/task_actions.go:97-204 | exactly an open task that is not finishing and free of Git actions and integrations is cancelled; its live run has a stop and no token afterwards, an earlier stop is kept and a new one carries the reason; no other run changes; the source of an integration is released; the task is concluded |
| TaskEffects.ConfirmationCompletes | internal/core/task_complete.go:62-118 | exactly a waiting task without an agent is completed without a result, and its parent is told |
| TaskEffects.CloseCancelsMessages | internal/core/task.go:62-116 | exactly a waiting conversation is completed, and exactly its unresolved agent messages are cancelled |
| TaskEffects.SourceIsReleasedOnce | internal/core/gc.go:449-472 | the ref of a source is released once, exactly by a closed task without run and Git action |
| Guarantees.CancelledRunIsStopped | internal/core/task_actions.go:135-192 | in every reachable state a cancelled task only keeps a run that is live, has a stop and holds no token |
| GitEffects.CaptureIsAcceptedExactly | internal/core/git_reconcile.go:179-215 | a capture is projected exactly when the row is still the one it was read from, its run has ended and the project is active |
| GitEffects.CaptureStoresResult | internal/core/git_reconcile.go:216-263 | the result is the frozen head under the ref of task and run; an integration is accepted at once for the canonical commit just resolved; the task is concluded |
| GitEffects.CaptureFailureGivesUp | internal/core/git_reconcile.go:274-339 | the task is queued with one more retry while there are any and Git is intact, and fails otherwise; an active project stops on a broken repository; a failure of an older row changes nothing |
| GitEffects.AcceptStoresIntent | internal/core/accept.go:76-129 | an acceptance is stored exactly for the rows that were seen, a ref that still holds the result and an active integrator, the chosen one or else the one of the project; it targets exactly that head |
| GitEffects.AdvanceIsAcceptedExactly | internal/core/git_reconcile.go:374-390 | an advance is projected exactly when the row is still the one it was read from and the project is active |
| GitEffects.AdvanceCompletes | internal/core/git_reconcile.go:391-458 | the project caches the reported commit, the source of an integration is completed and concluded first, then the task is completed at that commit, its messages settled and its parent told unless it is an integration |
| GitEffects.StaleOpensIntegration | internal/core/git_reconcile.go:460-555 | a stale integration is queued again with a wake message; any other result is linked to one new integration task that starts from the reported canonical commit, works on this very result for the accepted agent with its priority and retries, and gets a wake message |
| GitEffects.FatalAdvanceFailsTask | internal/core/git_reconcile.go:592-634 | a fatal advance fails the row it was reported for, stops an active project and concludes the task; a report about an older row changes nothing |
| GitEffects.IntegrationContainsItsBase | internal/core/git_reconcile.go:530-541 | in every later state the result of an integration contains the canonical commit it was opened at and the result it was opened for |
| GitEffects.IntegrationAtItsBaseAdvances | internal/gitrepo/result.go:448-487 | an integration whose canonical commit did not move on is not stale again: with nobody else writing its advance updates or includes |
| RegistryEffects.PauseAndResume | internal/core/agent.go:159-199 | an agent is paused only when active and resumed only when paused |
| RegistryEffects.ArchiveForgetsAgent | internal/core/agent.go:201-255 | exactly an agent nobody needs is archived; exactly the projects it integrates forget it |
| RegistryEffects.AddProjectWaits | internal/core/project.go:9-115 | a project starts out waiting for its repository, with an active integrator or none |
| RegistryEffects.FinishWritesOneRow | internal/core/project.go:292-336 | exactly the pending action of a project is finished, and only status, cached commit and intent change |
| RegistryEffects.RepairWritesOneRow | internal/core/project.go:132-200 | exactly a project in error is repaired, under a new operation |
| RegistryEffects.ArchiveNeedsIdleProject | internal/core/project.go:234-271 | exactly an active or broken project without live runs, open tasks, Git actions and waiting messages is archived |
| Refusals.EndRefusal | internal/core/terminal.go:15-64 | the error of a refused terminal report names the first thing that is wrong |
| Refusals.OutcomeRefusal | internal/core/outcome.go:151-200 | the same for an outcome: authority first, then the rows that were seen |
| Refusals.DeliveryIsRefused | internal/core/message_delivery.go:46-94 | the same for a delivery: the trouble with the first message of the list that may not be delivered |
| Refusals.AcknowledgeIsRefused | internal/core/coordination.go:62-78 | the same for acknowledgements |
| Refusals.SendRefusal | internal/core/agent_message.go:184-244 | the same for a send: missing rows, states, scope |
| Refusals.CreateRefusal | internal/core/task_create.go:129-221 | the same for a new task |
| Refusals.ActionRefusal | internal/core/coordination.go:95-116 | wake, retry, rework and close report a missing task, then work in progress, then a status that does not fit |
| Refusals.CancelRefusal | internal/core/task_actions.go:97-107 | the same for a cancel |
| Refusals.AcceptRefusal | internal/core/accept.go:131-178 | the same for an acceptance, integrator included |
| Refusals.ProjectionRefusal | internal/core/git_reconcile.go:179-215 | a projection is refused when its row was written since, or else because the project stopped |
| MessageProofs.DisposeKeeps | internal/core/task_messages.go:7-94 | disposal never fails, leaves no unresolved message on the task, touches only waiting or queued conversations beside messages, and keeps the invariant |
| MessageProofs.NotifyParentKeeps | internal/core/task_messages.go:96-165 | reporting to the parent never fails and keeps the invariant; a waiting parent is queued together with the message |
| MessageProofs.Settle | internal/core/task_messages.go:7-94 | a task without unresolved messages, in step with its source, satisfies the full invariant again |
| SendProofs.SendKeeps | internal/core/agent_message.go:184-244 | sending to an explicit task, to the conversation or to a new conversation keeps the invariant; at most one open conversation exists per project and agent |
| SendProofs.DeliverKeeps | internal/core/message_delivery.go:46-104 | a delivery keeps the invariant: counts stay within the maximum and the target keeps accepting |
| SendProofs.AcknowledgeKeeps | internal/core/coordination.go:56-93 | acknowledging any list of messages keeps the invariant |
| SendProofs.RetryMessageKeeps | internal/core/message_actions.go:24-74 | enabling a message again keeps the invariant: its task is queued if it waited |
| RunProofs.ClaimKeeps | internal/core/run.go:64-94 | a claim keeps the invariant: one live run per agent, the limit, fresh generation, current run |
| RunProofs.OutcomeKeeps | internal/core/outcome.go:151-245 | an applied outcome keeps the invariant: the intent carries the new row version |
| RunProofs.ActivateKeeps | internal/core/runtime_lifecycle.go:333-386 | activation keeps the invariant |
| RunProofs.CleanupKeeps | internal/core/runtime_lifecycle.go:457-500 | every accepted cleanup report keeps the invariant |
| RunProofs.OutcomeMeansFinishing | internal/core/terminal.go:188-261 | the current run of a task that is not cancelled has an outcome exactly when the task is finishing, and a submit exactly with its pending capture |
| RunProofs.NoWakeLeft | internal/core/terminal.go:190-215 | with the messages of the ending run returned and no pending wake, nothing obliges its task to run again |
| RunProofs.WakeFound | internal/store/tx.go:276-287 | the query for the earliest pending wake answers whenever there is a pending wake |
| RunProofs.TerminalCommits | internal/core/terminal.go:12-108 | fence and transition table alone decide whether the end of a live run is recorded: no conflict branch of the projection can be taken |
| TaskProofs.CreateTaskKeeps | internal/core/task_create.go:222-286 | a created task keeps the invariant |
| TaskProofs.WakeTaskKeeps | internal/core/task_actions.go:19-67 | waking a task and enabling its exhausted messages keeps the invariant |
| TaskProofs.ReworkTaskKeeps | internal/core/task_actions.go:206-238 | rework keeps the invariant: no integration task can point to the reworked result |
| TaskProofs.ReleaseKeeps | internal/core/task_actions.go:108-134 | releasing the source of an open integration task never conflicts and detaches the pair |
| TaskProofs.CancelCommits | internal/core/task_actions.go:97-204 | a task whose action is available and whose status may be cancelled can always be cancelled, and the invariant holds again |
| TaskProofs.CompleteTaskKeeps | internal/core/task_complete.go:62-118 | a human completion keeps the invariant |
| TaskProofs.CloseConversationKeeps | internal/core/task.go:62-116 | closing a conversation keeps the invariant and leaves no unresolved message |
| GitProofs.AdvanceCanonicalKeeps | internal/gitrepo/result.go:417-509 | the effect of an advance on the canonical ref, reported or not, keeps every completed result contained |
| GitProofs.FinalizeCaptureCommits | internal/core/git_reconcile.go:179-263 | a captured head is projected whenever the fence holds, the head is the expected one and the project is active; the row becomes submitted, and pending again exactly for an integration |
| GitProofs.CaptureFailureCommits | internal/core/git_reconcile.go:274-339 | projecting a capture failure never fails, and past its fence stores exactly the decided row |
| GitProofs.AdvanceFailureCommits | internal/core/git_reconcile.go:592-634 | projecting an advance failure never fails and keeps the invariant |
| GitProofs.AcceptKeeps | internal/core/accept.go:76-129 | an acceptance keeps the invariant: its intent carries the new row version and the captured head |
| AdvanceProofs.SourceContained | internal/core/git_reconcile.go:400-431 | a canonical commit that contains an integrated head contains the head of its source |
| AdvanceProofs.CompleteSourceKeeps | internal/core/git_reconcile.go:400-431 | completing the source inside the integration transaction never conflicts, and leaves the integration row as it was read |
| AdvanceProofs.FinalizeSuccessCommits | internal/core/git_reconcile.go:374-458 | a contained result is always projected: the task, and for an integration also its source, is completed at the reported commit |
| AdvanceProofs.OpenIntegrationKeeps | internal/core/git_reconcile.go:490-544 | a stale advance links the source to one new integration task in step with it |
| AdvanceProofs.FinalizeStaleCommits | internal/core/git_reconcile.go:460-555 | a stale advance is always projected: an integration is queued again, any other task is linked to a new open integration task |
| Store.Transaction.constructor | internal/store/schema.go:220-236 | an empty database satisfies the invariant |
| Store.Transaction.UpdateTask | internal/store/tx.go:164-181 | given that version and status are those of the stored row, exactly that row is replaced |
| Store.Transaction.UpdateRun | internal/store/tx.go:202-218 | the same for a run and its state |
| Store.Transaction.UpdateMessage | internal/store/tx.go:304-316 | the same for a message and its state |
| Store.Transaction.AppendMessage | internal/core/mutation.go:38-60 | one new pending message with a fresh ID, deliverable at once |
| Store.Transaction.FindConversation | internal/store/tx.go:150-153 | the open conversation of a project and agent, or none exactly when there is none |
| Store.Transaction.PendingWakeAt | internal/store/tx.go:276-287 | the earliest delivery time of a pending, not exhausted wake message of the task |
| Tables.Conversation | internal/store/tx.go:150-153 | an open conversation of exactly this project and agent, or none exactly when there is none |
| Tables.MessagesBelow | internal/store/tx.go:252-258 | exactly the messages of the task |
| Tables.DeliveredBelow | internal/store/tx.go:260-266 | exactly the messages that name the run |
| Tables.QueriesHaveNoRepeats | internal/store/tx.go:252-266 | both queries list every message once |
| RunSteps.WakeAt | internal/store/tx.go:276-287 | an answer implies a pending wake |
| Model.RetryAt | internal/core/run.go:164-178 | a retry is scheduled between 1 and 32 seconds ahead |
| MessageOps.DisposeMessage | internal/core/task_messages.go:20-92 | one turn of the loop has exactly the specified effect on this message and on the conversation it moves to |
| MessageOps.DisposeUnresolvedMessages | internal/core/task_messages.go:7-94 | the loop over the messages read at the start has exactly the effect of disposing them one by one, and the same error |
| MessageOps.NotifyParentOfChild | internal/core/task_messages.go:96-165 | exactly the specified message, to the agent of a listening parent or else to the boss |
| MessageOps.WakeDeliveryTask | internal/core/agent_message.go:246-269 | a waiting task is queued ten seconds ahead for a wake message; nothing else changes |
| MessageOps.ExplicitTarget | internal/core/agent_message.go:193-208 | the checks of a sender, their errors, and the named target exactly when it is in scope and accepts delivery |
| MessageOps.SendAgentMessage | internal/core/agent_message.go:184-244 | the delivery that MessageEffects.SendAddsOneMessage states in columns, with the errors of Refusals.SendRefusal |
| MessageOps.RecordMessageDelivered | internal/core/message_delivery.go:58-101 | one message is marked delivered with one more count, or is skipped, or is refused, exactly as specified |
| MessageOps.RecordMessagesDelivered | internal/core/message_delivery.go:46-104 | the loop delivers all messages of the list in order or fails with the first error |
| MessageOps.AcknowledgeAgentMessage | internal/core/coordination.go:62-91 | one message is acknowledged, skipped or refused exactly as specified |
| MessageOps.AcknowledgeAgentMessages | internal/core/coordination.go:56-93 | the loop acknowledges all messages of the list in order or fails with the first error |
| MessageOps.RetryMessage | internal/core/message_actions.go:24-74 | the count is reset, the message deliverable now, and a waiting task queued for a wake message |
| RunOps.BeginRunLaunch | internal/core/runtime_lifecycle.go:196-284 | nonce and cleanup operation are stored once, with cleanup pending; the same intent again changes nothing, another one is refused |
| RunOps.AdvanceRunPhase | internal/core/runtime_lifecycle.go:518-562 | the phase moves on from exactly the expected one; a passed phase is not entered again |
| RunOps.ObserveProcessAndActivateRun | internal/core/runtime_lifecycle.go:333-386 | run and task become active and running together, or neither |
| RunOps.RecordRunSession | internal/core/runtime_lifecycle.go:388-426 | a live run stores its native session once; the same session again changes nothing, another one is refused |
| RunOps.RecordRunCleanup | internal/core/runtime_lifecycle.go:457-500 | exactly the allowed cleanup transitions; a blocked cleanup overwrites the last error |
| RunOps.RequestRunStop | internal/core/run_actions.go:16-76 | the first stop request revokes the token and is kept; another one is refused |
| RunOps.ApplyOutcome | internal/core/outcome.go:151-245 | the outcome is applied only to the rows the first transaction saw; a submit freezes head and row version in a capture intent |
| RunOps.RedeliverRunMessages | internal/core/terminal.go:150-186 | the loop returns every message still delivered to the run to its task, and changes no other message |
| RunOps.ProjectTerminalTask | internal/core/terminal.go:188-261 | the row that TerminalEffects.EndSettles states in columns for each outcome and end, with the messages of a failed task handed on |
| RunOps.RecordRuntimeRunTerminal | internal/core/terminal.go:12-108 | one transaction with the effect of TerminalEffects.EndSettles and the errors of Refusals.EndRefusal |
| Scheduler.SortInOrder | internal/core/service.go:407-417 | candidates come by priority, then by age, then by ID |
| Scheduler.CandidatesAreAll | internal/store/tx.go:136-148 | the sorted candidates are exactly the runnable tasks |
| Scheduler.CanClaim | internal/core/run.go:20-59 | the checks of one candidate decide exactly whether it may run: due, active project, active agent that is free, room below maxRuns |
| Scheduler.ClaimNext | internal/core/run.go:9-108 | of the tasks that may run, the one with the greatest priority, then the earliest creation, then the smallest ID is claimed; none is claimed exactly when none may run |
| TaskOps.CreateWorkTask | internal/core/task_create.go:129-286 | exactly the specified row, or the specified refusal, for the snapshot the first transaction saw |
| TaskOps.EnableRetries | internal/core/task_actions.go:38-57 | the loop enables exactly the exhausted pending messages of the task |
| TaskOps.WakeTask | internal/core/task_actions.go:19-67 | a waiting task is queued and its exhausted messages are enabled |
| TaskOps.ReleaseSourceReference | internal/core/gc.go:449-472 | the ref of the source is released once, by a closed task without run and pending action |
| TaskOps.ReworkTask | internal/core/task_actions.go:206-238 | a submitted task is queued and loses its acceptance |
| TaskOps.ReleaseSource | internal/core/task_actions.go:108-134 | the source loses link and acceptance, and its version moves past the fence |
| TaskOps.StopCurrentRun | internal/core/task_actions.go:135-178 | the stop that TaskEffects.CancelStopsAndConcludes states in columns: a live run has a stop and no token afterwards |
| TaskOps.CancelTask | internal/core/task_actions.go:97-204 | one transaction with the effect of TaskEffects.CancelStopsAndConcludes and the errors of Refusals.CancelRefusal |
| TaskOps.CompleteTask | internal/core/task_complete.go:62-118 | a waiting human task is completed and its parent told |
| TaskOps.CancelAllUnresolved | internal/core/task.go:88-102 | the loop cancels exactly the unresolved messages of the conversation |
| TaskOps.CloseConversation | internal/core/task.go:62-116 | a waiting conversation is completed and its unresolved messages are cancelled |
| GitOps.RequestAccept | internal/core/accept.go:76-129 | the second transaction stores the advance intent only for the task and project rows the first one saw |
| GitOps.FinalizeCapture | internal/core/git_reconcile.go:179-263 | exactly the specified result or refusal; an integration result starts its advance at once |
| GitOps.ProjectCaptureFailure | internal/core/git_reconcile.go:274-339 | exactly the specified retry or failure; a failure of another intent changes nothing |
| GitOps.CheckAdvance | internal/core/git_reconcile.go:374-390 | the common checks pass exactly for a projectable fact with a valid fence and an active project, and otherwise give the specified error |
| GitOps.CompleteSource | internal/core/git_reconcile.go:400-431 | the source of an integration is completed, its messages handed on and its parent told |
| GitOps.FinalizeSuccessfulAdvance | internal/core/git_reconcile.go:374-458 | cache, source, task and messages change together, exactly as specified |
| GitOps.OpenIntegration | internal/core/git_reconcile.go:490-544 | the link and the integration task that GitEffects.StaleOpensIntegration states in columns |
| GitOps.FinalizeStaleAdvance | internal/core/git_reconcile.go:460-555 | one transaction with the effect of GitEffects.StaleOpensIntegration |
| GitOps.ProjectAdvanceInvariantFailure | internal/core/git_reconcile.go:592-634 | the submitted task fails and its project stops; a failure of another intent changes nothing |
| ProjectOps.ArchiveAgent | internal/core/agent.go:201-255 | an agent with a live run, an open task, an acceptance or an unresolved message is not archived; projects forget an archived integrator |
| Projects.ActionIsFinishedOnce | internal/core/project.go:292-336 | the end of a project action makes the project active with the reported commit, or an error that keeps the cached one; no later report of the same action is accepted, after any history |
| Projects.ActiveProjectIsVerified | internal/core/project.go:292-336 | an active project waits for nothing, and its canonical ref contains the commit it was registered with and the one its row remembers |
| Projects.RepairInitialisesOnlyUnpromoted | internal/core/project.go:163-168 | in every reachable state a repair stores an initialisation if and only if the repository was never promoted |
| Projects.NeverInitialisedAgain | internal/core/project.go:163-168 | once a canonical commit was cached, or the repository is promoted and no initialisation is under way, no later history makes the project wait for an initialisation, and canonical keeps what it contained |
| Projects.VerificationActsOnWhatItSaw | internal/core/project.go:338-370 | a verification finds exactly the row it was started for, whatever happened meanwhile, and stores the reported commit, which canonical contains, or stops the project and keeps the cached one; otherwise it changes nothing |
| ProjectOps.ArchiveProject | internal/core/project.go:234-271 | a project with live runs, open tasks, pending actions or unresolved messages is not archived |
| Service.Serve | internal/core/task_actions.go:240-293 | every request as it runs refines the transition system: the new state is exactly the specified one, the invariant holds again, and an error leaves no trace |
| AdvanceLoop.ControlRepo.CompareAndSet | internal/gitrepo/result.go:474-479 | an update with an expected old value succeeds exactly when nobody was faster |
| AdvanceLoop.ControlRepo.TryOnce | internal/gitrepo/result.go:448-487 | one turn of the loop ends with a sound result, or lost its race, or wrote the target that others built on |
| AdvanceLoop.ControlRepo.Advance | internal/gitrepo/result.go:417-509 | every write is a compare-and-set fast-forward to the target; Updated and Included mean the target is contained in the commit reported, which is contained in canonical; Stale means exactly that the two commits are incomparable, except if and only if every race is lost; then all three compare-and-sets came too late |
| AdvanceLoop.InexactStaleIsExact | internal/gitrepo/result.go:448-508 | Stale is reported although a fast-forward was possible if and only if another writer moves the ref between every look and its compare-and-set, and leaves it behind the target each time |
| AdvanceLoop.Undisturbed | internal/gitrepo/result.go:448-487 | without other writers the three outcomes are exactly: target contained, canonical a proper ancestor of the target, incomparable |
| AdvanceLoop.StaleAfterThreeRaces | internal/gitrepo/result.go:488-508 | a concrete schedule of three lost races after which Stale is reported although a fast-forward was still possible |
| CapturePhases.TaskRefNamesDiffer | internal/gitrepo/result.go:149-158 | the ref name determines the task ID and the run ID |
| CapturePhases.ControlRefs.AdoptExisting | internal/gitrepo/result.go:206-226 | an existing ref is returned only when it is the expected head with the required ancestry and no foreign import ref; it is never changed |
| CapturePhases.ControlRefs.ImportCapture | internal/gitrepo/result.go:266-339 | an import that returns leaves the task ref at the expected head, contains base and source, and removes its import ref; no existing task ref moves, wherever it stops |
| CapturePhases.ControlRefs.Capture | internal/gitrepo/result.go:162-264 | the same for the whole capture, with another capture between its two lock sections |
| CapturePhases.ControlRefs.CaptureAfterStops | internal/gitrepo/result.go:162-339 | after any number of stops at any phases the next capture returns the one fact and leaves the one ref, as if it had never stopped |
| Initializer.ProjectFiles.PreparePartial | internal/gitrepo/initializer.go:259-316 | a partial repository is adopted only when it is empty or marked for exactly this operation |
| Initializer.ProjectFiles.EnsureInitialObject | internal/gitrepo/initializer.go:318-354 | the saved commit is imported at most once and protected; nothing else of the repository changes |
| Initializer.ProjectFiles.EnsureCanonical | internal/gitrepo/initializer.go:356-381 | the canonical ref is created only when absent, and refused when it differs |
| Initializer.ProjectFiles.VerifyInitialized | internal/gitrepo/initializer.go:383-402 | ready exactly when marker, bareness, canonical ref and initial commit are right; nothing is written |
| Initializer.ProjectFiles.Initialize | internal/gitrepo/initializer.go:92-188 | the final path appears only with a canonical ref at the initial commit; an existing final repository is never changed; an undisturbed call on valid files is refused only for a missing source commit |
| Initializer.ProjectFiles.InitializeAfterStops | internal/gitrepo/initializer.go:92-188 | after any number of stops at any of the seven phases the next call reaches the promoted repository; a canonical ref that moved on is never reset |
| Ownership.Controller.AcquireRunOperation | internal/daemon/runtime_materialization.go:26-44 | an operation is granted exactly when the run has neither operation nor monitor |
| Ownership.Controller.ReleaseRunOperation | internal/daemon/runtime_materialization.go:46-52 | only the holder of the token releases |
| Ownership.Controller.RegisterMonitor | internal/daemon/runtime_monitor.go:250-261 | a monitor is registered exactly while an operation is held and no monitor exists |
| Ownership.Controller.UnregisterMonitor | internal/daemon/runtime_monitor.go:263-269 | only the registered monitor is removed |
| Ownership.TakeKeeps | internal/daemon/runtime_workers.go:128-214 | every move of every worker keeps the ownership invariant |
| Ownership.OneOwner | internal/daemon/runtime_supervisor.go:36-38 | under every interleaving at most one worker holds the operation of a run and at most one its monitor; beside a supervisor only the owner that just handed the run over holds the operation |
| Ownership.ClaimIsNeverRefused | internal/daemon/runtime_workers.go:196-214 | a claimed run never has an owner: the error branch of claimNext is unreachable |
| Ownership.AdmissionIsFinal | internal/daemon/runtime_workers.go:605-613 | once stopRuntimeAdmission has returned no run is claimed again, whatever the other workers do |
| Secrets.ScanEscaped | internal/daemon/runtime_redaction.go:195-214 | scanning the escaped form of any bytes yields them again, unless what follows the closing quote continues an escape |
| Secrets.FileParses | internal/daemon/runtime_redaction.go:137-190 | a printed file parses to exactly the values in the order of the names |
| SecretsGrammar.EntryIsExact | internal/daemon/runtime_redaction.go:153-187 | an entry is accepted if and only if the text is a valid name, an equals sign and an escaped value in quotes, with blanks around, up to the end of the line or a comment; its value is read exactly |
| SecretsGrammar.FileIsEntriesAndComments | internal/daemon/runtime_redaction.go:139-187 | space does not matter, a comment lasts to the end of its line, and anything else that is no entry rejects the file |
| SecretsGrammar.PrintedByHand | internal/daemon/runtime_redaction.go:238-262 | the text of the header and of a line with a quote in its value |
| Secrets.ScanShellSingleQuoted | internal/daemon/runtime_redaction.go:195-214 | the loop decodes exactly the quoted string and returns the unread rest, and fails exactly when it is not closed |
| Secrets.ParseEntryAt | internal/daemon/runtime_redaction.go:153-187 | one turn of the parser accepts exactly one well-formed entry |
| Secrets.ParseRunSecretsFile | internal/daemon/runtime_redaction.go:137-190 | the loop accepts exactly the files of the grammar and yields their values in order |
| Secrets.InsertName | internal/daemon/runtime_redaction.go:239-243 | insertion keeps names sorted and adds exactly one |
| Secrets.SortedNamesAreUnique | internal/daemon/runtime_redaction.go:239-243 | the sorted order is unique, so the file depends on the secrets alone |
| Secrets.SerializeRunSecretsFile | internal/daemon/runtime_redaction.go:238-262 | printing succeeds exactly when all names are valid and all values are free of NUL, and prints one line per name in sorted order |
| Secrets.PrintAndParse | internal/daemon/runtime_redaction.go:137-262 | for every map of valid names to NUL-free values the printed file parses to exactly the values in sorted name order |
| Paging.Budget | internal/store/read_events.go:50-63 | the longest prefix within limit and budget, never empty unless the first item alone is too large |
| Paging.ReverseEvents | internal/store/read_events.go:74-78 | the array is reversed in place |
| Paging.BudgetEventPage | internal/store/read_events.go:44-72 | the taken items, oldest first, with a cursor exactly when rows are left |
| Paging.EventsPage | internal/store/read_events.go:15-42 | a page is exactly the rows just below the cursor, as many as limit and budget allow |
| Paging.FollowEvents | internal/store/read_events.go:15-78 | following the cursors returns every event once and in order and ends, if and only if every event alone fits the budget |
| Paging.BudgetPage | internal/store/pagination.go:15-42 | the taken items with the key of the last one as cursor exactly when rows are left |
| Paging.PassedCursor | internal/store/pagination.go:56-62 | the cursor condition passes exactly the rows up to the one it names |
| Paging.ReadHistoryPage | internal/store/pagination.go:15-62 | a page is exactly the rows just after the cursor, as many as limit and budget allow |
| Paging.FollowHistory | internal/store/pagination.go:15-62 | following the cursors returns every row once and in order and ends, if and only if every row alone fits the budget |
| Paging.EventLimit | internal/core/pagination.go:60-71 | a limit from 1 to 100 is taken as it is, 0 means 20, anything else is refused |
| Paging.PageLimit | internal/core/pagination.go:21-32 | a limit from 1 to 500 is taken as it is, 0 means 100, anything else is refused |
| Requests.DedupeTable.Replay | internal/core/mutation.go:7-14 | a recorded key answers with its entity for the same input and a conflict for another one |
| Requests.DedupeTable.Apply | internal/core/accept.go:76-129 | the effect and its record are one transaction: a replayed key changes nothing, a failed effect records nothing |
| Requests.AtMostOnce | internal/core/outcome.go:151-171 | for any interleaving of calls with one key at most one mutates; every call that succeeds answers with the entity of that one and had its input |
| Requests.EffectMeetsItsSnapshot | internal/core/accept.go:76-99 | a call that mutates finds the very task, run, project and source rows its first transaction read: none of them was written in between |
| Requests.RecordsStay | internal/core/mutation.go:16-22 | a recorded key keeps its record |
| Requests.RecordedIsInert | internal/core/mutation.go:7-14 | once a key is recorded, no call with that key changes a row |

## Left out

- RunOps.BeginRunLaunch: compares only generation, nonce and cleanup operation; paths, configuration fingerprint, instructions hash and resume facts of the launch are not modelled.
- MessageOps.SendAgentMessage: the recipient is an agent; messages to the boss, replies, read scopes of the sender and the message text are not modelled.
- TaskOps.CreateWorkTask: the retry label, the read scope for a source, and the use of the source's task ref around the transaction are not modelled; a wrong source of any kind is one version conflict.
- GitOps.RequestAccept: who may accept is not modelled, nor are the control repository path and the name of the canonical ref, which never change.
- Scheduler.ClaimNext: adapters are not modelled, so a queued task of an unregistered adapter is not an error; the instant of the claim is the instant of the check.
- Projects.RepairInitialisesOnlyUnpromoted: the call of Git after the transaction is a separate step, and Git reports only commits the canonical ref had.
- AdvanceLoop.ControlRepo.Advance: Git commands do not fail for other reasons than a lost race; a cancelled context is not modelled.
- CapturePhases.ControlRefs.Capture: bundle size, object count, object type and the integrity check of the repository are not modelled.
- Initializer.ProjectFiles.Initialize: stops come at phase points only; directory and link checks, syncs and the integrity check are not modelled.
- Ownership.TakeKeeps: what a worker does to the container while it owns a run is one move that may end the run.
- Secrets.ParseRunSecretsFile: a byte is a character; text that is not valid UTF-8 in a name is only told apart byte by byte.
- Paging.EventsPage: the encoding of cursors is a bijection, and the filter of the query is the choice of the rows.
- Authorization, roles, participants, credentials and agent configuration: single checks without an invariant. `AddCredential` never records its idempotency key (internal/core/credentials.go:71).
- Boss messages to people: they are inserted by reports but never acknowledged here.
- Heartbeat times, deadlines, progress texts and the event log: they only describe rows.
- `DeleteTask` and `DeleteProject`: rows are never deleted; the branch of the parent report for a deleted parent is kept but never taken.
- Garbage collection: any task ref may vanish at any time, which is weaker than what the collector does; workspaces are not modelled, so a source reference may be released at any time once its task is closed.
- Containers, processes, sockets, files, SQL text and the HTTP interface.
