# Verified model of the vCompany fault-tolerance layer

vCompany runs teams of coding agents. A head process supervises projects and agents, a worker process
runs each agent, and several small stateful classes keep the whole thing alive through crashes, rate
limits and outages. This project models those classes in Dafny and proves what they promise over whole
runs: every sequence of calls, every crash point, every clock that does not go back.

Each imperative class of the source is a Dafny class (or, where the source only loops over local
variables, a method) whose contract ties the new state to a value-level step function. The lemmas
then speak about runs of these steps. A run is a sequence of events, folded from its end.

| file | source component |
|---|---|
| `Options.dfy` | optional values |
| `Windows.dfy` | clock readings and the counting of readings in an interval |
| `RestartTracking.dfy` | the sliding-window restart budget |
| `BulkFailure.dfy` | the upstream-outage detector |
| `Supervisor.dfy`, `OutageGate.dfy` | a supervisor's reaction to a failed child, and runs of its gate |
| `SupervisionTree.dfy` | the two levels of budget: projects under the company root |
| `Delegation.dfy` | delegated agents and their caps |
| `Backlog.dfy`, `ProjectState.dfy` | the backlog, assignment records, crash points and stale-owner recovery |
| `MessageQueue.dfy`, `MessageRuns.dfy` | the outbound queue, its drain loop and its debounce, and runs of it |
| `DegradedMode.dfy` | degraded-mode hysteresis |
| `Scheduler.dfy` | wake schedules, checks, and restarts between and within checks |
| `Routing.dfy` | hire, dismiss and reconnect with the durable routing file |
| `Worker.dfy` | the worker's message loop over stdin and over a socket |
| `Lifecycle.dfy`, `Checkpoint.dfy` | the nested lifecycle machines and phase checkpoints |
| `Ownership.dfy` | directory ownership: the configuration validator and the scope check of plans |

## Assumptions

- Time is a real number. A call that reads the clock twice takes two readings; readings do not go back
  within a run, except in `Scheduler`, where nothing is assumed about the clock.
- Code between two awaits is atomic, and one write to a store or file is one durable step.
- New item, agent and supervisor ids are fresh.
- What lies outside a component (whether a start, a read, a write, a lookup or a stop succeeds) is a
  parameter or part of the event, so the lemmas hold for every behaviour of it. The exceptions are under
  "Left out".
- History states are shallow, as in section 3.10 of the W3C SCXML Recommendation; with nothing recorded
  they lead to the initial sub-state.

## Where the code and its documentation disagree

The model follows the code in each case.

- `reassign_stale` deletes the assignment record of the owner it has just cleared, so it deletes
  `assignment:None` and the stale agent's own record survives (`ProjectState.RecordsCleanedIff`,
  `ProjectState.StaleRecordSurvives`).
- The backoff of the outage detector is doubled and reset in one go, so every outage backs off for the
  initial duration (`OutageGate.BackoffIffPending`).
- An alert callback that raises leaves the supervisor in backoff for good
  (`OutageGate.RaisingAlertIsForever`, with the events in `OutageGate.RaisingAlertHappens`).
- The hourly delegation limit is documented as one per requester but shared by all: a request within its
  requester's own quota is refused exactly when the others' delegations fill up the rest
  (`Delegation.HourlyLimitIsShared`, with a run in `Delegation.RefusedWithoutOwnDelegations`).
- A dismissal waits for its worker between forgetting the agent and forgetting its route. An agent hired
  again in that gap loses its new route, and the next restart forgets it; a dismissal whose worker cannot be
  stopped leaves a route that the next restart revives. Without either, the routing is the agents and the
  agents being dismissed (`Routing.RoutingAgrees`, `Routing.KeysCoincide`, with the steps in
  `Routing.HireInGapIsForgotten` and `Routing.FailedDismissalRevives`).
- Backlog, routing and schedules are changed in memory before they are written, so a write that raises leaves
  memory ahead of the store, and the next restart forgets what was not written. `ProjectState.CrashRunsLinearize`,
  `Routing.RoutingAgrees` and `Scheduler.StoredIsMemory` say what is stored; `ProjectState.UnsavedItemIsLost`,
  `Routing.UnsavedHireIsForgotten` and `Scheduler.UnsavedWakeRepeats` are the steps.
- A phase is checkpointed when a container stops, not on each transition, and only a stop made while
  running saves the phase (`Checkpoint.PhaseSurvivesIff`, `Checkpoint.SleepingStopLosesPhase`).
  A process death in between loses exactly the phases entered since the start
  (`Checkpoint.DeathLosesPhaseIff`).
- The stdio worker runs no clean-up after an exception, be it from a handler, a reply to a closed pipe or a
  line beyond the reader's limit (`Worker.StdioSafety` gives the exact inputs, `Worker.ContainerOutlivesWorker`
  and `Worker.UnannouncedContainer` examples); the socket worker does.
- Over a socket, a ready signal that is lost is never repeated, so a head that connects later hears from a
  container that was never announced (`Worker.BrokenIff` says exactly when, `Worker.LostReadyIsHeard` how); over
  stdin that cannot happen (`Worker.StdioIsProper`).
- A stop that takes the container down but raises, in the container or at its signal, leaves a socket worker
  that no message can end (`Worker.UnconfirmedStop`). Exactly such a stop does that (`Worker.EndlessAfter`), and
  exactly a worker whose container is down is endless (`Worker.EndlessIffDown`).
- A wake that is not saved, because the process dies or the write raises, can repeat at once after a restart
  (`Scheduler.UnsavedWakeRepeats`), and only after one (`Scheduler.WakeSpacing`). A removal that is not saved is
  undone by a restart (`Scheduler.UnsavedRemovalReturns`), and a schedule removed while a check still holds it as
  due comes back (`Scheduler.RemovedComesBack`).
- The validator also refuses directories that no file could share when one of them is written with two
  trailing slashes (`Ownership.DoubledSlashRefused`).

## Model

| member | source | states |
|---|---|---|
| `RestartTracking.RestartTracker.constructor` | src/vcompany/supervisor/restart_tracker.py:25-34 | a new tracker has granted nothing |
| `RestartTracking.RestartTracker.Purge` | src/vcompany/supervisor/restart_tracker.py:36-41 | drops exactly the leading readings older than the window |
| `RestartTracking.RestartTracker.AllowRestart` | src/vcompany/supervisor/restart_tracker.py:43-53 | grants iff fewer than the maximum remain after the purge, and records the second clock reading only then |
| `RestartTracking.RestartTracker.Reset` | src/vcompany/supervisor/restart_tracker.py:55-57 | forgets all grants |
| `RestartTracking.RestartTracker.RestartCount` | src/vcompany/supervisor/restart_tracker.py:59-63 | the number of readings a purge leaves |
| `RestartTracking.RunTracks` | src/vcompany/supervisor/restart_tracker.py:36-57 | over any run the history of grants since the last reset is a forgotten part, all older than the window, followed by the deque, and grants that are the maximum apart in order are more than a window apart in time |
| `RestartTracking.DequeIsWindow` | src/vcompany/supervisor/restart_tracker.py:36-41 | a purge leaves exactly the grants of the whole history that lie in the window |
| `RestartTracking.RefusedIffWindowFull` | src/vcompany/supervisor/restart_tracker.py:43-53 | after any run a restart is refused iff the maximum number of grants really lie in the window, despite the two clock readings |
| `RestartTracking.GrantsPerWindow` | src/vcompany/supervisor/restart_tracker.py:43-53 | every closed interval of the window's length holds at most the maximum of grants, wherever it lies |
| `BulkFailure.Threshold` | src/vcompany/resilience/bulk_failure.py:43 | two, or the whole part of the children times the ratio, whichever is larger |
| `BulkFailure.BulkFailureDetector.constructor` | src/vcompany/resilience/bulk_failure.py:31-50 | a new detector remembers nothing and is not in backoff |
| `BulkFailure.BulkFailureDetector.PurgeOld` | src/vcompany/resilience/bulk_failure.py:68-78 | keeps exactly the failures inside the window |
| `BulkFailure.BulkFailureDetector.RecordFailure` | src/vcompany/resilience/bulk_failure.py:52-66 | reports an outage iff the children remembered after purging and recording reach the threshold, and enters backoff then |
| `BulkFailure.BulkFailureDetector.ResetBackoff` | src/vcompany/resilience/bulk_failure.py:90-93 | leaves backoff and restores the initial duration |
| `BulkFailure.BulkFailureDetector.EscalateBackoff` | src/vcompany/resilience/bulk_failure.py:95-100 | doubles the duration up to the maximum |
| `BulkFailure.BulkFailureDetector.UpdateChildCount` | src/vcompany/resilience/bulk_failure.py:102-105 | recomputes the threshold and nothing else |
| `BulkFailure.RunRemembers` | src/vcompany/resilience/bulk_failure.py:52-78 | over any run the one timestamp kept per child is real, and covers every failure still in the window |
| `BulkFailure.FailedSinceMeans` | src/vcompany/resilience/bulk_failure.py:52-66 | the last failure per child of the full history tells exactly which children have a recorded failure inside the window |
| `BulkFailure.OutageIffManyFailed` | src/vcompany/resilience/bulk_failure.py:52-66 | an outage is reported iff the distinct children that failed within the window, in the full history, reach the threshold |
| `BulkFailure.OneChildIsNoOutage` | src/vcompany/resilience/bulk_failure.py:43 | one child that keeps crashing is never taken for an outage |
| `BulkFailure.EscalationsDouble` | src/vcompany/resilience/bulk_failure.py:95-100 | n escalations without a reset multiply the backoff by two to the n, up to the maximum, and change nothing else |
| `Supervisor.StopsReverseLive` | src/vcompany/supervisor/supervisor.py:471-475 | the stops of a restart are exactly its live children, in reverse spec order |
| `Supervisor.UpToFaultConcat` | src/vcompany/supervisor/supervisor.py:470-489 | a raising action ends the plan: what follows it happens only if all before it went well |
| `Supervisor.PlanTrace` | src/vcompany/supervisor/supervisor.py:470-489 | stops carried out without a fault, followed by the starts, are the whole plan; otherwise the starts do not happen |
| `Supervisor.FaultAt` | src/vcompany/supervisor/supervisor.py:470-489 | a plan is carried out up to and including its first faulty action |
| `Supervisor.AliveMeans` | src/vcompany/supervisor/supervisor.py:427 | a child is stopped before a restart unless it is absent, stopped, destroyed or stopping already |
| `Supervisor.AffectedMeans` | src/vcompany/supervisor/supervisor.py:368-374 | which children each strategy restarts: the failed one, all, or all that are not before it |
| `Supervisor.AffectedInOrder` | src/vcompany/supervisor/supervisor.py:466-467 | they are restarted in the order of the specs, none twice |
| `Supervisor.PolicyDecides` | src/vcompany/supervisor/supervisor.py:327-366 | suppressed in backoff, an outage when one is reported, and otherwise the policy decides: permanent children are granted iff the budget grants and else escalate, transient ones likewise when errored and are else ignored, temporary, unlisted and absent ones are ignored |
| `Supervisor.Supervisor.constructor` | src/vcompany/supervisor/supervisor.py:50-106 | outage detection only with two or more children; nothing running, nothing pending |
| `Supervisor.Supervisor.StopOne` | src/vcompany/supervisor/supervisor.py:439-449 | a live child is stopped and its monitor cancelled; a raising stop leaves both as they are |
| `Supervisor.Supervisor.StopAll` | src/vcompany/supervisor/supervisor.py:438-449 | stops exactly the live ones in reverse order up to the first that raises, and touches no other child or monitor; if none raises none is live and none has a monitor |
| `Supervisor.Supervisor.StartOne` | src/vcompany/supervisor/supervisor.py:278-288 | the child comes up running under a monitor; a raising start leaves both as they are |
| `Supervisor.Supervisor.StartAll` | src/vcompany/supervisor/supervisor.py:451-453 | starts all in spec order up to the first that raises; if none raises, all are running under a monitor |
| `Supervisor.Supervisor.RestartSuffix` | src/vcompany/supervisor/supervisor.py:469-489 | all stops, then all starts, every one with callbacks suppressed, which they no longer are afterwards even if something raised |
| `Supervisor.Supervisor.RestartAll` | src/vcompany/supervisor/supervisor.py:433-455 | all_for_one is the restart of the suffix that starts at the first child; if nothing raises every child is up under a monitor |
| `Supervisor.Supervisor.RestartRest` | src/vcompany/supervisor/supervisor.py:457-489 | rest_for_one restarts the failed child and all after it, which are up if nothing raises, leaves the children before it untouched, and does nothing for an unknown child |
| `Supervisor.Supervisor.RestartOne` | src/vcompany/supervisor/supervisor.py:419-431 | one_for_one touches only the failed child, which is up if nothing raises, with callbacks not suppressed |
| `Supervisor.Supervisor.StopLive` | src/vcompany/supervisor/supervisor.py:425-428 | stops the child if it is live, leaves it as it is if that raises, and changes no other |
| `Supervisor.Supervisor.StopQuietly` | src/vcompany/supervisor/supervisor.py:503-508 | a stop that raises is ignored and leaves the child as it is |
| `Supervisor.Supervisor.Escalate` | src/vcompany/supervisor/supervisor.py:493-519 | every live child is stopped in reverse order, errors ignored; no monitor is left, the supervisor is stopped |
| `Supervisor.Supervisor.PolicyLets` | src/vcompany/supervisor/supervisor.py:348-361 | whether the child is listed, present, and let through by its restart policy |
| `Supervisor.Supervisor.Judge` | src/vcompany/supervisor/supervisor.py:329-366 | outage gate, then policy, then budget; each consulted, and changed, only when the one before it lets the failure through; `Supervisor.PolicyDecides` says what the verdict is |
| `Supervisor.Supervisor.Dispatch` | src/vcompany/supervisor/supervisor.py:368-374 | exactly the actions of the configured strategy on exactly the children it affects, which are up if nothing raises; all others are untouched |
| `Supervisor.Supervisor.HandleChildFailure` | src/vcompany/supervisor/supervisor.py:327-374 | the verdict that backoff, outage, restart policy, child state and budget call for, and exactly the actions that go with it: for a granted restart those of the strategy, for an escalation the stops, otherwise none |
| `Supervisor.Supervisor.OutageNotified` | src/vcompany/supervisor/supervisor.py:391-408 | a delivered alert sets one reset timer; one that raises sets none |
| `Supervisor.Supervisor.BackoffExpired` | src/vcompany/supervisor/supervisor.py:398-402 | the timer's escalation and reset together |
| `OutageGate.BackoffIffPending` | src/vcompany/supervisor/supervisor.py:376-408 | in backoff exactly when one alert is being delivered, one timer is pending or one alert was lost; the duration is always the initial one |
| `OutageGate.BackoffIffOneTimer` | src/vcompany/supervisor/supervisor.py:376-408 | with callbacks that do not raise, in backoff iff exactly one reset is pending |
| `OutageGate.NoGrantDuringBackoff` | src/vcompany/supervisor/supervisor.py:329-346 | from an outage until a timer fires every failure is suppressed |
| `OutageGate.RaisingAlertIsForever` | src/vcompany/supervisor/supervisor.py:391-408 | after an alert callback that raised the supervisor stays in backoff, whatever happens |
| `OutageGate.RaisingAlertHappens` | src/vcompany/supervisor/supervisor.py:338-346 | two failures and an alert that raises are enough, whatever comes later |
| `OutageGate.DetectorRefines` | src/vcompany/supervisor/supervisor.py:329-346 | the gate's detector is one that was told of exactly the failures that were not suppressed |
| `OutageGate.OutageIffReported` | src/vcompany/supervisor/supervisor.py:329-346 | an outage is declared iff the gate is not in backoff and that detector reports one |
| `OutageGate.ReportIsExact` | src/vcompany/resilience/bulk_failure.py:52-66 | and it reports one iff the distinct children with an unsuppressed failure in the window reach the threshold |
| `OutageGate.NoDetectorNoOutage` | src/vcompany/supervisor/supervisor.py:329-331 | without a detector no outage is ever declared |
| `OutageGate.BudgetRefinesTracker` | src/vcompany/supervisor/supervisor.py:363-366 | the gate's budget and grants are those of a restart tracker asked exactly at the failures that pass gate and policy |
| `OutageGate.RestartsPerWindow` | src/vcompany/supervisor/supervisor.py:327-374 | over any run every closed window holds at most the budget of granted restarts |
| `SupervisionTree.CompanyRoot.constructor` | src/vcompany/supervisor/company_root.py:83-95 | a new root has its whole budget and no projects |
| `SupervisionTree.CompanyRoot.FindProject` | src/vcompany/supervisor/company_root.py:640-644 | the first project whose supervisor has this id, if there is one |
| `SupervisionTree.CompanyRoot.HandleChildEscalation` | src/vcompany/supervisor/company_root.py:616-673 | within the root's budget the first project with that id gets a fresh supervisor and budget, registered only if it came up whole, and live even if it came up in part; otherwise an alert, of the right kind, and no change |
| `SupervisionTree.TwoLevelBound` | src/vcompany/supervisor/company_root.py:629-665 | with P projects of budget at most M under a root of budget R and equal windows, every closed window of every run holds at most (P + R) * M dispatched restarts, over all incarnations, those that came up in part included, and with grants that fall between a refusal and its escalation |
| `SupervisionTree.StoppedForGood` | src/vcompany/supervisor/supervisor.py:518-522 | a project of which nothing was started again never changes again |
| `SupervisionTree.EscalationOutcome` | src/vcompany/supervisor/company_root.py:629-665 | after an escalation that the root grants and that starts any child the next failure of the project is dispatched; after a refusal, or when nothing started, none ever is again |
| `SupervisionTree.FreshBudgetLasts` | src/vcompany/supervisor/company_root.py:650-664 | a project with an empty deque has as many failures dispatched as its limit says, whatever else happens between them |
| `SupervisionTree.FreshBudgetEnds` | src/vcompany/supervisor/supervisor.py:363-366 | the one after them inside the window is not dispatched and sends the project to the root |
| `SupervisionTree.WholeBudgetBack` | src/vcompany/supervisor/company_root.py:650-664 | so after an escalation that the root grants and that starts any child, exactly as many failures inside one window are dispatched again as the limit before the escalation says |
| `Delegation.DelegationTracker.constructor` | src/vcompany/autonomy/delegation.py:70-74 | nothing active, no history |
| `Delegation.DelegationTracker.CanDelegate` | src/vcompany/autonomy/delegation.py:76-107 | type, then the requester's cap, then the hourly cap, counting strictly inside the hour |
| `Delegation.DelegationTracker.RecordDelegation` | src/vcompany/autonomy/delegation.py:109-119 | the agent joins its requester's set and the history |
| `Delegation.DelegationTracker.RecordCompletion` | src/vcompany/autonomy/delegation.py:121-133 | the agent leaves its requester's set; unknown requesters are ignored |
| `Delegation.Delegator.HandleRequest` | src/vcompany/supervisor/supervisor.py:144-203 | without a policy every request is refused; a refused request changes nothing; a start that raises leaves only the new spec behind |
| `Delegation.Delegator.ChildEnded` | src/vcompany/supervisor/supervisor.py:243-253 | a delegated child that ends frees its requester's capacity, once |
| `Delegation.RunKeeps` | src/vcompany/supervisor/supervisor.py:157-203 | every run keeps caps, pacing, and active sets inverse to delegated children |
| `Delegation.ConcurrentCapHolds` | src/vcompany/autonomy/delegation.py:88-95 | no requester ever exceeds the cap, and its active set is exactly its delegated children |
| `Delegation.HourlyCapHolds` | src/vcompany/autonomy/delegation.py:97-104 | every half-open hour holds at most the hourly number of delegations |
| `Delegation.GrantedIffWithinCaps` | src/vcompany/autonomy/delegation.py:76-107 | a request is granted iff its type is allowed and neither cap is used up by real delegations |
| `Delegation.FollowsEvents` | src/vcompany/autonomy/delegation.py:109-133 | the tracker has active exactly the agents that were granted to the requester and have not ended since, and the times of all grants |
| `Delegation.AnswersFollowEvents` | src/vcompany/autonomy/delegation.py:76-107 | after any run every answer and every reason for a refusal follows from the agents in force and the grants of the past hour, both read off the events; those in force never exceed the cap |
| `Delegation.HourlyLimitIsShared` | src/vcompany/autonomy/delegation.py:97-104 | a request that passes the other checks is refused iff its requester's delegations and those of all others in the past hour add up to the limit |
| `Delegation.RefusedWithoutOwnDelegations` | src/vcompany/autonomy/delegation.py:20-25 | a requester with no delegations of its own is refused for the hourly limit |
| `Backlog.InsertPosition` | src/vcompany/autonomy/backlog.py:148-159 | where a list inserts for any integer position, negative and too large ones included |
| `Backlog.MemoryStore.Set` | src/vcompany/autonomy/project_state.py:53-55 | one durable write, or none when it raises |
| `Backlog.MemoryStore.Delete` | src/vcompany/autonomy/project_state.py:68 | one durable deletion, or none when it raises |
| `Backlog.BacklogQueue.constructor` | src/vcompany/autonomy/backlog.py:71-79 | empty until loaded |
| `Backlog.BacklogQueue.Load` | src/vcompany/autonomy/backlog.py:93-100 | the stored list, or an empty one |
| `Backlog.BacklogQueue.Persist` | src/vcompany/autonomy/backlog.py:102-108 | one durable write of the whole list, or none when it raises |
| `Backlog.BacklogQueue.FindIndex` | src/vcompany/autonomy/backlog.py:110-122 | the first item with that id, or none |
| `Backlog.BacklogQueue.Append` | src/vcompany/autonomy/backlog.py:124-129 | the item comes last, in memory, and stored unless the write raises, as for every operation below |
| `Backlog.BacklogQueue.InsertUrgent` | src/vcompany/autonomy/backlog.py:131-136 | the item comes before all others, in memory, and then in the store; `Backlog.UrgentIsClaimedNext` says what that does to the next claim |
| `Backlog.BacklogQueue.InsertAfter` | src/vcompany/autonomy/backlog.py:138-146 | the item comes right after the named one; an unknown id changes and writes nothing |
| `Backlog.BacklogQueue.Reorder` | src/vcompany/autonomy/backlog.py:148-159 | removal, clamped insertion, one write; an unknown id changes and writes nothing |
| `Backlog.BacklogQueue.Cancel` | src/vcompany/autonomy/backlog.py:161-170 | only the named item becomes cancelled |
| `Backlog.BacklogQueue.ClaimNext` | src/vcompany/autonomy/backlog.py:172-188 | the first pending item is assigned to the agent, who is told of it only if that was written; with none pending nothing is written |
| `Backlog.BacklogQueue.MarkCompleted` | src/vcompany/autonomy/backlog.py:190-199 | only the named item becomes completed |
| `Backlog.BacklogQueue.MarkPending` | src/vcompany/autonomy/backlog.py:201-211 | only the named item becomes pending and loses its owner |
| `Backlog.IdsConserved` | src/vcompany/autonomy/backlog.py:124-210 | no operation loses or duplicates an id: it adds the inserted one and otherwise permutes |
| `Backlog.ReorderMovesOne` | src/vcompany/autonomy/backlog.py:148-159 | for any integer position the result is a permutation in which one item moved and the others keep their relative order |
| `Backlog.ClaimTakesHead` | src/vcompany/autonomy/backlog.py:172-188 | a claim takes the head of the pending items and leaves their tail; it claims nothing iff none is pending |
| `Backlog.ClaimsAreFifo` | src/vcompany/autonomy/backlog.py:172-216 | the j-th of successive claims by any agents returns the j-th pending item, and nothing once they are used up |
| `Backlog.UrgentComesFirst` | src/vcompany/autonomy/backlog.py:131-136 | a pending urgent item goes before everything that waits |
| `Backlog.UrgentIsClaimedNext` | src/vcompany/autonomy/backlog.py:131-136 | after any run, the claim that follows an urgent insertion hands out that item |
| `Backlog.InsertedFollows` | src/vcompany/autonomy/backlog.py:138-146 | an item inserted after another follows it directly, in the list and among what waits; without such an item nothing changes |
| `Backlog.BacklogIsFifo` | src/vcompany/autonomy/backlog.py:124-199 | over any run of appends, claims and completions, what was handed out and what still waits is, in this order, what waited at first and what was appended |
| `Backlog.UpdateIsExact` | src/vcompany/autonomy/backlog.py:161-210 | cancelling, completing and re-queueing give the first item with the id its new status, clear the owner only when re-queueing, and change nothing else |
| `Backlog.ClosedNotClaimed` | src/vcompany/autonomy/backlog.py:161-210 | in any run a completed or cancelled item is handed out afterwards only if it was re-queued in between |
| `Backlog.RunKeeps` | src/vcompany/autonomy/backlog.py:124-210 | over any run ids stay distinct, pending items have no owner and assigned ones have one |
| `Backlog.ClaimedTwiceOnlyIfRequeued` | src/vcompany/autonomy/backlog.py:172-210 | in any run two claims of one item are separated by its re-queueing |
| `ProjectState.ProjectStateManager.AssignNextTask` | src/vcompany/autonomy/project_state.py:40-58 | claim, then record, as two durable steps, ended by the first that raises; nothing without a pending item |
| `ProjectState.ProjectStateManager.HandleTaskCompleted` | src/vcompany/autonomy/project_state.py:60-69 | completion, then deletion of the record, ended by the first write that raises |
| `ProjectState.ProjectStateManager.HandleTaskFailed` | src/vcompany/autonomy/project_state.py:71-80 | re-queueing, then deletion of the record, ended by the first write that raises |
| `ProjectState.ProjectStateManager.Requeue` | src/vcompany/autonomy/project_state.py:101-103 | re-queueing, then deletion of the record named by the owner the item has then |
| `ProjectState.ProjectStateManager.ReassignStaleItems` | src/vcompany/autonomy/project_state.py:82-110 | re-queues exactly the stale items in list order, through exactly these durable steps, and returns their ids; a write that raises ends it there |
| `ProjectState.ReassignExact` | src/vcompany/autonomy/project_state.py:82-110 | pending afterwards are exactly the items assigned to agents that are not active; all others and the order are unchanged |
| `ProjectState.CrashConsistent` | src/vcompany/autonomy/project_state.py:40-110 | a crash behind any durable step leaves exactly the committed part of the operation |
| `ProjectState.BeforeOrAfter` | src/vcompany/autonomy/project_state.py:40-80 | for every operation but the recovery the reloaded backlog is the one before or the one after |
| `ProjectState.WritesStore` | src/vcompany/autonomy/project_state.py:40-110 | after any number of its writes the store holds the effect of the committed steps on the list in memory, whatever it held before |
| `ProjectState.CrashRunsLinearize` | src/vcompany/autonomy/project_state.py:40-110 | in any run with crashes and writes that raise, what is stored is the backlog after the saved steps, in order and without gaps, and memory is ahead of it by exactly the unsaved ones, which are what a crash loses |
| `ProjectState.StoredIsMemoryIff` | src/vcompany/autonomy/project_state.py:40-110 | memory is what is stored iff the unsaved steps changed nothing on balance |
| `ProjectState.StoredIsMemory` | src/vcompany/autonomy/project_state.py:40-110 | without writes that raise it always is, crashes or not |
| `ProjectState.CrashesKeepItems` | src/vcompany/autonomy/backlog.py:93-211 | no run with crashes and writes that raise duplicates an item, loses one that was saved, or leaves an owner that does not fit the status |
| `ProjectState.UnsavedItemIsLost` | src/vcompany/autonomy/backlog.py:124-129 | an item whose insertion could not be written is in memory, and gone after a crash |
| `ProjectState.RecoveryIsRestartable` | src/vcompany/autonomy/project_state.py:82-110 | a recovery cut short anywhere and run again gives what one uninterrupted run gives |
| `ProjectState.RecoveryIsRepeatable` | src/vcompany/autonomy/project_state.py:82-110 | so does one that a raising write ended |
| `ProjectState.RecordsCleanedIff` | src/vcompany/autonomy/project_state.py:101-103 | the stale agents' records are gone afterwards iff none of them had one, except an agent called "None" |
| `ProjectState.StaleRecordSurvives` | src/vcompany/autonomy/project_state.py:101-103 | the item of a dead agent is re-queued, its record stays |
| `ProjectState.AssignmentIsExact` | src/vcompany/autonomy/project_state.py:40-58 | the first pending item goes to the agent and is what its record holds; other items and records stay |
| `ProjectState.SettlementIsExact` | src/vcompany/autonomy/project_state.py:60-80 | a completed task leaves its item completed, a failed one leaves it pending without an owner; the agent's record is gone, other items and records stay |
| `ProjectState.NothingToDo` | src/vcompany/autonomy/project_state.py:40-80 | with nothing pending to assign, or no item with the id, nothing is written |
| `ProjectState.RecordsFollow` | src/vcompany/autonomy/project_state.py:40-110 | over any run with crashes and writes that raise, an agent's record is its last recorded assignment, unless a recorded completion or failure of it, or a recovery for an agent called "None", came since |
| `MessageQueue.PutAll` | src/vcompany/resilience/message_queue.py:144-145 | every buffered report is put exactly once |
| `MessageQueue.Queue.constructor` | src/vcompany/resilience/message_queue.py:74-88 | empty, no backoff, not draining |
| `MessageQueue.Queue.Start` | src/vcompany/resilience/message_queue.py:90-94 | starts one drain loop unless one runs |
| `MessageQueue.Queue.Enqueue` | src/vcompany/resilience/message_queue.py:114-116 | one more copy in the queue |
| `MessageQueue.Queue.EnqueueHealth` | src/vcompany/resilience/message_queue.py:118-140 | replaces the channel's pending report and restarts the timer |
| `MessageQueue.Queue.FlushHealth` | src/vcompany/resilience/message_queue.py:142-147 | the whole buffer moves to the queue; a timer still running loses its handle but not its effect |
| `MessageQueue.Queue.Stop` | src/vcompany/resilience/message_queue.py:96-112 | timer, flush, cancel, in that order |
| `MessageQueue.Queue.DrainResume` | src/vcompany/resilience/message_queue.py:149-196 | what the drain loop does from one await to the next, from wherever it is suspended |
| `MessageQueue.Queue.GetReturned` | src/vcompany/resilience/message_queue.py:154-162 | a least message leaves the queue, and the loop backs off with it iff a backoff is set; `MessageRuns.SendsAfterBackoff` says so over runs |
| `MessageQueue.Queue.SendReturned` | src/vcompany/resilience/message_queue.py:168-196 | success, rate limit, cancel and other errors each settle or re-queue the message as the source does |
| `MessageQueue.Queue.TakeLeast` | src/vcompany/resilience/message_queue.py:48-61 | what leaves the queue is least by priority, then timestamp |
| `MessageRuns.HealthOfStep` | src/vcompany/resilience/message_queue.py:96-147 | the debounce side of a step is that of a flush and of a stop |
| `MessageRuns.MessagesConserved` | src/vcompany/resilience/message_queue.py:96-196 | in every run the copies of a message put into the queue are exactly those queued, in flight, sent, discarded or dropped, and drops are exactly the cancellations in the middle of a send, by a stop or by the send function itself |
| `MessageRuns.BufferHoldsLatest` | src/vcompany/resilience/message_queue.py:118-147 | the buffer holds exactly the latest report per channel since the last flush, and no buffered report is ever without a flush to come |
| `MessageRuns.BackoffIsExponential` | src/vcompany/resilience/message_queue.py:168-179 | after k rate limits since the last success the backoff is 0 if k = 0, else min(2^(k-1), 60) |
| `MessageRuns.SettledInOrder` | src/vcompany/resilience/message_queue.py:149-189 | from any state whose held message, if any, is not after a queued one, with nothing new arriving, under every pattern of rate limits messages are settled by lower priority number, and by earlier time within a priority |
| `MessageRuns.RunSettles` | src/vcompany/resilience/message_queue.py:168-189 | what a run settles is what its sends came to: sent on success, discarded on an error, dropped on a cancellation, nothing on a rate limit |
| `MessageRuns.SendsAfterBackoff` | src/vcompany/resilience/message_queue.py:160-168 | in every run, while there were rate limits since the last success a message is sent only after a sleep since it was taken; with none it is sent without one |
| `MessageRuns.OnIffStarted` | src/vcompany/resilience/message_queue.py:90-112 | the loop runs exactly from a start until a stop or a cancellation in the middle of a send; no rate limit or error ends it |
| `MessageRuns.AttemptLeads` | src/vcompany/resilience/message_queue.py:153-196 | an attempt at the next message leads back to waiting: sent, discarded, or queued again with a backoff |
| `MessageRuns.RetriedUntilSent` | src/vcompany/resilience/message_queue.py:153-196 | after any number of rate limits the next message can still be sent, and then is sent once |
| `MessageRuns.QueueDrains` | src/vcompany/resilience/message_queue.py:149-196 | from any waiting loop, sends that succeed empty the queue, and every message in it is sent |
| `MessageRuns.FlushMovesLatest` | src/vcompany/resilience/message_queue.py:96-147 | a flush and a stop put exactly the latest report of each channel into the queue, a stop also the message that was backing off |
| `MessageRuns.TimersConserved` | src/vcompany/resilience/message_queue.py:118-147 | every report starts one timer, which is running, was cancelled by the next report or a stop, or led to one flush |
| `MessageRuns.StopLeavesNothing` | src/vcompany/resilience/message_queue.py:96-112 | a stop leaves nothing buffered, no timer of its own and no loop |
| `MessageRuns.ReportsShareTimer` | src/vcompany/resilience/message_queue.py:127-140 | while nothing fires, any number of reports share one timer |
| `DegradedMode.DegradedModeManager.constructor` | src/vcompany/resilience/degraded_mode.py:32-51 | starts normal with both counters at zero |
| `DegradedMode.DegradedModeManager.RecordResult` | src/vcompany/resilience/degraded_mode.py:91-120 | counters, mode and the callback of one result |
| `DegradedMode.DegradedSnoc` | src/vcompany/resilience/degraded_mode.py:91-120 | how one more result changes "enough failures in a row and not enough successes in a row since" |
| `DegradedMode.DegradedIffHistory` | src/vcompany/resilience/degraded_mode.py:91-120 | degraded iff some run of failures reached its threshold and no run of successes has reached its own since |
| `DegradedMode.NoticesAlternate` | src/vcompany/resilience/degraded_mode.py:91-120 | the callbacks strictly alternate, starting with the degraded one |
| `Scheduler.WakeScheduler.constructor` | src/vcompany/supervisor/scheduler.py:54-73 | a new process has exactly the stored schedules |
| `Scheduler.WakeScheduler.AddSchedule` | src/vcompany/supervisor/scheduler.py:80-90 | the agent's entry becomes one interval from now, in memory, and stored unless the write raises |
| `Scheduler.WakeScheduler.RemoveSchedule` | src/vcompany/supervisor/scheduler.py:92-95 | only that agent's entry goes, in memory, and stored unless the write raises |
| `Scheduler.WakeScheduler.Persist` | src/vcompany/supervisor/scheduler.py:75-78 | the store holds all schedules, or what it held if the write raises |
| `Scheduler.WakeScheduler.VisitOne` | src/vcompany/supervisor/scheduler.py:105-127 | one iteration: not due, missing, not sleeping, woken, or raising; a write that raises is caught after a wake and ends the check otherwise |
| `Scheduler.WakeScheduler.VisitAll` | src/vcompany/supervisor/scheduler.py:104-127 | the visits of a whole snapshot, and the agents they wake in order |
| `Scheduler.WakeScheduler.CheckAndWake` | src/vcompany/supervisor/scheduler.py:101-127 | the loop is the sequence of visits over the snapshot, in any order, ended by a lookup or a write that raises out of it |
| `Scheduler.CheckIsExact` | src/vcompany/supervisor/scheduler.py:101-127 | a check that nothing ends early wakes exactly the due agents that sleep and whose waking does not raise, and moves exactly the due entries it could act on to one interval after the check |
| `Scheduler.OthersKept` | src/vcompany/supervisor/scheduler.py:104-106 | agents outside the snapshot keep their entry and are not woken |
| `Scheduler.CheckIsRun` | src/vcompany/supervisor/scheduler.py:101-127 | a whole check is a run of visits, so the lemmas over runs apply to it |
| `Scheduler.RaiseEndsCheck` | src/vcompany/supervisor/scheduler.py:105-137 | a lookup that raises, or a write that raises for an agent that is not asleep, ends the check there and wakes nobody after it |
| `Scheduler.AddedIsDue` | src/vcompany/supervisor/scheduler.py:80-90 | an added schedule is due one interval later and not before, and leaves the others alone |
| `Scheduler.StoredIsMemory` | src/vcompany/supervisor/scheduler.py:66-127 | after each step of any run whose last write succeeded, a restart counting as one, the stored schedules are those in memory |
| `Scheduler.FailedWriteShows` | src/vcompany/supervisor/scheduler.py:75-78 | a write that fails separates the two exactly when it changed anything |
| `Scheduler.WakeSpacing` | src/vcompany/supervisor/scheduler.py:106-124 | two wakes with no addition between are at least the interval apart, across restarts, removals and failing lookups, whatever the clock does; a wake that was not saved only needs that no restart comes before the next write that succeeds |
| `Scheduler.UnsavedIsForgotten` | src/vcompany/supervisor/scheduler.py:119-127 | a wake whose write raised is forgotten by a restart as if the process had died in it |
| `Scheduler.UnsavedWakeRepeats` | src/vcompany/supervisor/scheduler.py:119-124 | a wake that was not saved can repeat at the same time after the restart |
| `Scheduler.RemovedStaysOut` | src/vcompany/supervisor/scheduler.py:92-95 | a removed agent is neither scheduled nor woken again, if the removal was saved and no check in progress holds it as due |
| `Scheduler.UnsavedRemovalReturns` | src/vcompany/supervisor/scheduler.py:92-95 | a removal that was not saved is undone by a restart |
| `Scheduler.RemovedComesBack` | src/vcompany/supervisor/scheduler.py:104-124 | otherwise that check can put the schedule back, durably |
| `Routing.RoutingFile.Save` | src/vcompany/daemon/routing_state.py:49-52 | the file holds the routes, or what it held when the write raises |
| `Routing.RoutingFile.Load` | src/vcompany/daemon/routing_state.py:54-59 | the routes of the file, none without a file |
| `Routing.CompanyRoot.constructor` | src/vcompany/supervisor/company_root.py:96-104 | no agents, and the routes of the file |
| `Routing.CompanyRoot.Hire` | src/vcompany/supervisor/company_root.py:290-324 | after a successful spawn the handle and its route, with the transport, are recorded, then saved unless that raises; a failure before records nothing |
| `Routing.CompanyRoot.BeginDismiss` | src/vcompany/supervisor/company_root.py:405-406 | before the await the agent is gone and its route is not; an unknown agent changes nothing |
| `Routing.CompanyRoot.EndDismiss` | src/vcompany/supervisor/company_root.py:407-409 | after the await the route of that id is gone, whoever it belongs to by then, and saved unless that raises; when stopping the worker raised the route stays |
| `Routing.CompanyRoot.ConnectAll` | src/vcompany/supervisor/company_root.py:518-565 | every routed agent whose worker is reached through the transport of its route gets its handle back; exactly the others are stale |
| `Routing.CompanyRoot.RemoveStale` | src/vcompany/supervisor/company_root.py:566-571 | exactly the stale routes go |
| `Routing.CompanyRoot.ReconnectAgents` | src/vcompany/supervisor/company_root.py:518-571 | handles for the reached agents, routes of the others dropped, the file rewritten only then and unless that raises |
| `Routing.CompanyRoot.Start` | src/vcompany/supervisor/company_root.py:575-584 | load, then reconnect |
| `Routing.RestartAgrees` | src/vcompany/supervisor/company_root.py:518-571 | a restart keeps exactly the routed agents reached through the transport of their route, each with the handle its route describes |
| `Routing.CrashFile` | src/vcompany/supervisor/company_root.py:493-514 | a crash in a hire or at the end of a dismissal leaves the file before or after its one durable write |
| `Routing.RoutingAgrees` | src/vcompany/supervisor/company_root.py:290-571 | over any run of steps, crashes and saves that raise, routing and file have exactly the hire of an id that the events say, with its type, channel, handler, config, capabilities and transport, a routed agent has the handle it was hired with, and routing and agents agree on it, dismissals under way apart, iff it is not endangered by a hire in the gap of its own dismissal and its last dismissal has not failed |
| `Routing.ReconnectsAsHired` | src/vcompany/supervisor/company_root.py:493-544 | after a saved hire, a restart right away has the agent back iff its worker is reached through the transport it was hired with, and as it was hired |
| `Routing.HiredTransports` | src/vcompany/supervisor/company_root.py:155-183 | exactly three transports can be hired with, and are what the route records; another one changes nothing |
| `Routing.KeysCoincide` | src/vcompany/supervisor/company_root.py:290-571 | without such hires and failures the agents are at every point exactly the routed ids that are not being dismissed |
| `Routing.FileIsRouting` | src/vcompany/supervisor/company_root.py:493-514 | after any run whose last save succeeded the file is the routing |
| `Routing.FailedSaveShows` | src/vcompany/supervisor/company_root.py:493-514 | a save that raises separates the two exactly when the step changed the routing |
| `Routing.UnsavedHireIsForgotten` | src/vcompany/supervisor/company_root.py:320-322 | an agent whose hire could not be saved is forgotten by the next restart, though its worker is reached |
| `Routing.HireInGapIsForgotten` | src/vcompany/supervisor/company_root.py:405-409 | an agent hired again before its dismissal has ended is unrouted, and the next restart forgets it |
| `Routing.FailedDismissalRevives` | src/vcompany/supervisor/company_root.py:405-409 | a dismissal that fails leaves a route without an agent, and the next restart that reaches the worker revives it |
| `Routing.WithoutDataDirectory` | src/vcompany/supervisor/company_root.py:493-514 | without a data directory nothing is routed and a restart finds no agents |
| `Worker.HandleLine` | packages/vco-worker/src/vco_worker/main.py:80-145 | one line: what it does to the container, what it writes, and whether a read, a write, a handler or a stop that raises ends the loop |
| `Worker.RunLines` | packages/vco-worker/src/vco_worker/main.py:80-145 | the message loop handles lines in order until a stop or an exception |
| `Worker.RunWorker` | packages/vco-worker/src/vco_worker/main.py:63-149 | the loop, then clean-up unless an exception left it |
| `Worker.RunSocket` | packages/vco-worker/src/vco_worker/main.py:199-321 | connection after connection until a stop, then clean-up |
| `Worker.SocketSafety` | packages/vco-worker/src/vco_worker/main.py:199-321 | over any connections, disconnects, unreadable lines and failing writes: at most one boot, one report per reconnect that can be answered, nothing after stopped, ready before anything the container says unless ready itself was lost, and a container left up only if the clean-up could not stop it |
| `Worker.ReadySentIsEnough` | packages/vco-worker/src/vco_worker/main.py:223-227 | once ready could be written the conversation is always a proper one |
| `Worker.BrokenIff` | packages/vco-worker/src/vco_worker/main.py:199-277 | the conversation is broken iff, read off the inputs, the ready signal of the first start that boots is lost and the container speaks at a later input |
| `Worker.SocketSaysWhatIsDue` | packages/vco-worker/src/vco_worker/main.py:199-277 | over any connections the worker writes exactly the texts of the tasks and messages handled since the boot, in order, and signals its stop iff the stop that took the container down went through and could be written |
| `Worker.StdioSaysWhatIsDue` | packages/vco-worker/src/vco_worker/main.py:80-145 | and so it does over stdin |
| `Worker.LostReadyIsHeard` | packages/vco-worker/src/vco_worker/main.py:223-241 | a connection lost at the ready signal: the next one hears of a container that was never announced |
| `Worker.UpAtEndIff` | packages/vco-worker/src/vco_worker/main.py:80-149 | the loop leaves a container up, by an exception or at the end of input, exactly when the inputs say so |
| `Worker.StdioSafety` | packages/vco-worker/src/vco_worker/main.py:63-149 | the same protocol over stdin, and a container outlives the worker iff a read, a reply, a handler or a stop raised while it was up, or the clean-up could not stop it |
| `Worker.StdioIsProper` | packages/vco-worker/src/vco_worker/main.py:63-166 | over stdin, where a write goes through or raises, ready always precedes what the container says |
| `Worker.ContainerOutlivesWorker` | packages/vco-worker/src/vco_worker/main.py:122-149 | a failing handler, a reply to a closed pipe and an over-long line each do that |
| `Worker.UnannouncedContainer` | packages/vco-worker/src/vco_worker/main.py:95-97 | so does a ready signal that cannot be written |
| `Worker.ExitsIff` | packages/vco-worker/src/vco_worker/main.py:199-277 | a stop message ends the socket worker exactly when the inputs of its connections say so |
| `Worker.DownNeverExits` | packages/vco-worker/src/vco_worker/main.py:261-268 | once its container is down no message ends the socket worker |
| `Worker.EndlessIffDown` | packages/vco-worker/src/vco_worker/main.py:261-268 | and only then: any other worker is ended by the next stop message that works |
| `Worker.EndlessAfter` | packages/vco-worker/src/vco_worker/main.py:261-273 | exactly a stop that takes the container down but raises, in the container or at its signal, brings a worker there |
| `Worker.UnconfirmedStop` | packages/vco-worker/src/vco_worker/main.py:261-273 | after such a stop no message ends the worker, whatever the connections to come |
| `Lifecycle.StoppedOnlyDestroyed` | packages/vco-worker/src/vco_worker/container/state_machine.py:16-42 | from stopped only destroyed can be reached |
| `Lifecycle.StateIsLastTaken` | packages/vco-worker/src/vco_worker/container/state_machine.py:16-42 | in every run the state, and which events are taken next, follow from the last event taken |
| `Lifecycle.DetoursReturn` | packages/vco-worker/src/vco_worker/container/state_machine.py:16-42 | sleep then wake, block then unblock, error then recover return to running, and no other such pair does |
| `Lifecycle.OuterRefines` | packages/vco-worker/src/vco_worker/agent/gsd_lifecycle.py:24-67 | outer events are accepted iff the flat machine accepts them, lead to the same state and keep the sub-state |
| `Lifecycle.PhaseStep` | packages/vco-worker/src/vco_worker/agent/gsd_lifecycle.py:24-67 | an accepted phase event moves the phase on by exactly one |
| `Lifecycle.GsdRefinesFlat` | packages/vco-worker/src/vco_worker/agent/gsd_lifecycle.py:24-67 | erasing phases maps every run to a run of the flat machine; the phase is the number of accepted phase events, so it never goes back and survives sleep, block and error |
| `Lifecycle.PhaseIsAdvances` | packages/vco-worker/src/vco_worker/agent/gsd_lifecycle.py:24-67 | from any configuration the phase moves on by the number of phase events accepted |
| `Lifecycle.PhasesInOrder` | packages/vco-worker/src/vco_worker/agent/gsd_lifecycle.py:24-67 | in every run the accepted phase events are the first ones of a fixed order, the phase is the one the last of them leads to, and exactly the next one is accepted, while running |
| `Lifecycle.DrivenRefinesFlat` | packages/vco-worker/src/vco_worker/agent/event_driven_lifecycle.py:22-57 | the same refinement; processing iff one more event was started than finished |
| `Lifecycle.OneEventInHand` | packages/vco-worker/src/vco_worker/agent/event_driven_lifecycle.py:22-57 | while running an event is started iff none is in hand and finished iff one is |
| `Checkpoint.MemoryStore.Write` | packages/vco-worker/src/vco_worker/handler/session.py:213-219 | the checkpoint is kept and is the latest, and the phase is stored under its own key |
| `Checkpoint.WorkerContainer.constructor` | packages/vco-worker/src/vco_worker/container/container.py:38-75 | a fresh machine and the configured command |
| `Checkpoint.WorkerContainer.Send` | packages/vco-worker/src/vco_worker/container/state_machine.py:16-42 | a rejected event changes nothing |
| `Checkpoint.WorkerContainer.Start` | packages/vco-worker/src/vco_worker/container/container.py:190-194 | the machine of the latest valid checkpoint and the command of its phase |
| `Checkpoint.WorkerContainer.Stop` | packages/vco-worker/src/vco_worker/container/container.py:196-201 | checkpoint first, then the two-phase stop |
| `Checkpoint.WorkerContainer.Fail` | packages/vco-worker/src/vco_worker/container/container.py:203-205 | the error counts even when the machine rejects it |
| `Checkpoint.WorkerContainer.Block` | packages/vco-worker/src/vco_worker/container/container.py:210-212 | the reason, cut to 200 characters, is kept even when the machine rejects the block |
| `Checkpoint.WorkerContainer.Unblock` | packages/vco-worker/src/vco_worker/container/container.py:214-216 | the reason is cleared even when the machine rejects it |
| `Checkpoint.RestartsKeepPhase` | packages/vco-worker/src/vco_worker/handler/session.py:149-219 | stopped while running in a phase, an agent comes back running in it, for any number of restarts |
| `Checkpoint.ResumesItsPhase` | packages/vco-worker/src/vco_worker/handler/session.py:192-203 | with that phase's resume command, the configured one when idle |
| `Checkpoint.CommandNamesPhase` | packages/vco-worker/src/vco_worker/handler/session.py:35-41 | the resume command names its phase, verification has its own, and without a phase to resume the configured one stays |
| `Checkpoint.StoredPhaseIsRestored` | packages/vco-worker/src/vco_worker/handler/session.py:205-219 | the phase a stop stores is the phase the next start restores |
| `Checkpoint.UnknownIsIgnored` | packages/vco-worker/src/vco_worker/handler/session.py:149-170 | a checkpoint with an unknown name is as good as none |
| `Checkpoint.DeathKeepsLastStop` | packages/vco-worker/src/vco_worker/handler/session.py:143-219 | however many processes die, the store holds the checkpoint of the last one that was stopped |
| `Checkpoint.DeathLosesPhaseIff` | packages/vco-worker/src/vco_worker/handler/session.py:143-219 | after a death the restored phase is the current one iff no phase event was accepted since the start |
| `Checkpoint.PhaseSurvivesIff` | packages/vco-worker/src/vco_worker/handler/session.py:205-219 | a stop from any state keeps the state, and the phase iff the agent was running or its phase was idle |
| `Checkpoint.SleepingStopLosesPhase` | packages/vco-worker/src/vco_worker/handler/session.py:205-219 | planning, asleep, stopped, restarted, woken: idle |
| `Ownership.Stripped` | src/vcompany/models/config.py:64 | a prefix, up to slashes, that does not end in one |
| `Ownership.Validate` | src/vcompany/models/config.py:50-73 | accepts iff ids are distinct and no two normalised directories are prefix-comparable; otherwise names a real culprit |
| `Ownership.CheckIds` | src/vcompany/models/config.py:54-58 | refuses iff two agents share the id it reports |
| `Ownership.CheckDirectories` | src/vcompany/models/config.py:60-71 | refuses iff two claims overlap, and reports such a pair |
| `Ownership.FirstClash` | src/vcompany/models/config.py:65-70 | the first earlier claim that overlaps, if there is one |
| `Ownership.ScopeCheck` | src/vcompany/strategist/plan_reviewer.py:98-124 | no files, unknown agent, outside files in order, or aligned |
| `Ownership.OutsideMember` | src/vcompany/strategist/plan_reviewer.py:116-119 | the reported files are exactly those in none of the agent's directories |
| `Ownership.CoversMeans` | src/vcompany/strategist/plan_reviewer.py:114-118 | a directory covers what follows it and one slash, its own if it is written with one |
| `Ownership.ScopeIsExact` | src/vcompany/strategist/plan_reviewer.py:98-124 | a plan is aligned iff its agent is known and all its files are in scope; otherwise exactly the others are named |
| `Ownership.ApprovedIff` | src/vcompany/strategist/plan_reviewer.py:54-72 | a plan is approved iff its files are in scope, its dependencies are ready and it is no duplicate |
| `Ownership.ChecksNamed` | src/vcompany/strategist/plan_reviewer.py:63-89 | a plan that is not approved is told exactly which checks failed |
| `Ownership.NormalFormsAgree` | src/vcompany/strategist/plan_reviewer.py:114 | the validator's normal form is a prefix of the scope check's, however many slashes a directory ends in |
| `Ownership.ScopesExclusive` | src/vcompany/models/config.py:60-71 | in an accepted configuration no file is in the scope of two agents |
| `Ownership.ApprovedPlansDisjoint` | src/vcompany/strategist/plan_reviewer.py:42-72 | plans approved for two agents of an accepted configuration share no file |
| `Ownership.RefusalIffSharedFile` | src/vcompany/models/config.py:64-66 | for directories with at most one trailing slash the validator finds a clash iff some file lies in both |
| `Ownership.DoubledSlashRefused` | src/vcompany/models/config.py:64-66 | with two trailing slashes it also refuses directories that no file can share |

## Left out

- Projects added or removed during a run, and a supervisor id that is used again: `SupervisionTree.TwoLevelBound` is about a fixed list of projects.
- Supervisor start, stop and health trees, and the child start hook itself, which is a stub in the source: a start succeeds or raises.
- Monitor loops, timers and task cancellation as such: they appear as sets of monitors, counts of pending timers, and events.
- Operations of one project manager that overlap at their awaits: each is one event, crashes and raising writes apart. Of failures under one supervisor only a grant may fall between a refusal and its escalation; a second refusal there belongs to a monitor that the escalation cancels.
- A checkpoint write that raises inside a container (the worker's side of it is a stop that raises), and callbacks of degraded mode and of escalations to a person that raise.
- Delegation requests that interleave across the await of the child's start, and overlapping connections of two heads to one worker: the guarantees are for serial use.
- Emissions of a container in the background and forwarded outbox messages: the model's emissions happen while a message is handled. What a container emits is what could be written.
- A worker that is killed, and the closing of its server sockets.
- Interleaving of the store's writes by other components, torn file writes, and the JSON, SQLite and NDJSON codecs: a stored value is the value written.
- Aliasing of backlog items held by callers: items are values, so a caller's copy does not change with the list.
- The order of messages that are equal in priority and timestamp, and channel ids as numbers: the heap is a multiset with extraction of a least element, and channels are named by strings.
- Checkpoints of a shape the save never writes but the restore would accept, and the session handler on agents that are not GSD agents.
- The fields of a delegated child's context.
- Assignment restore on start, and the worker's `recover` call, which only sends one event of the modelled machine.
- Real time between the clock reading of a check and the wake itself: `Scheduler.WakeSpacing` measures by the check's own reading. A negative interval, for which spacing says nothing, is not covered by it.
- Field validators of agent configurations, and the dependency and duplicate checks of a plan: each of those checks is a parameter that passes or fails.
- Hire steps before the spawn (working directory, artefacts, channel creation), company health polling, message routing between agents.
- Discord cogs, command line, tmux, git, docker, transports, Claude subprocesses, roadmap and status texts, personas, reports, citations and heartbeats: user interface, foreign processes and text handling.
