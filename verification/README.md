# Verified model of the recovery service's stateful cores

This Dafny project models the parts of the recovery service that keep state and
make promises about it, and proves those promises for every input, every run or
every reachable state. `dafny verify dfyconfig.toml` checks the whole project.

| module | models |
|---|---|
| `Basics`, `Graphs` | optional values; walks, reachability and cycles over sets of arcs |
| `ApiGraph`, `ApiExecution`, `ApiBranches` | validation and execution of branching API flows, and which branches a run takes |
| `PlatformGraph`, `WorkflowRun`, `StandaloneTrigger`, `Schedule` | ordering, reachability, skip-on-failure execution, the upgrade of legacy trigger graphs, and the next fire time of the data platform |
| `ChangeTrigger`, `ChangeTriggerTimes` | data change triggers with their queue, their owned run and their watermark; when they act and what each decision leaves |
| `PrivilegeLease`, `PrivilegeLedger` | shared Doris privilege leases: what each transaction does, and the records updated in place |
| `PrivilegeLeaks`, `PrivilegeTerms`, `PrivilegeShutdown`, `PrivilegeImports`, `PrivilegeOffline`, `PrivilegeReferences`, `PrivilegeOwnership`, `PrivilegeHazards` | their properties: how long a batch counts, nothing granted is lost sight of or outlives its batches, active references are present, only own grants are revoked, and what goes wrong without care |
| `StageDispatch`, `DispatchSafety`, `DispatchOutcomes`, `DispatchOutbox` | the outbox that dispatches batch stages: its events, what every interleaving keeps, what becomes of a row, and the rows updated in place |
| `ProtectedFlow`, `ProtectedRecovery`, `ProtectedCompletion` | the stage machine of a batch, that a protected one is encrypted before it is standardised, what failing and resuming come to, and which batches are or can be completed |
| `AssistantExecution`, `AssistantProgress` | the four-stage path of assistant-owned batches, and what its workers do with what they find |
| `LineageTrace`, `LineagePaths` | breadth-first lineage tracing, and the flows of data it shows |

Database rows that the service updates in place are classes whose methods are
proved against functions on the row's value; loops over lists, sets and
dictionaries are loops with invariants. Where several workers or requests meet,
a `Step` function says what each committed write makes of the state, and the
theorems quantify over all sequences of events. A step that cannot happen in a
state changes nothing. Calls to Doris, brokers, remote hosts and other services
are parameters of a step that say whether they succeed.

## Assumptions the theorems name

- `PrivilegeReferences.Careful`: all attempts of some table of an import get
  through, or none of any; an unexpired batch does not go offline while two of
  its standing rows share a privilege that only it refers to (the import compares
  names by case, the lease key does not); a batch is extended before it expires,
  or when nothing of it stands; nobody else revokes a referenced privilege.
  `ImportCountsIff`, `OfflineIsSafeIff` and `ExtendIsSafeIff` say exactly when
  the code is safe, and `PrivilegeHazards` gives runs in which it is not.
- `PrivilegeOwnership.Unforged`: no check fails on a lease that was revoked and
  whose privilege is there again, and nobody else grants under a live lease
  whose privilege is gone; both are proved to be exact.
- `AssistantExecution.Timely` is used only by the properties of submitting
  states and resume stages: workers write punctually, and no activation request
  (`data_automation.py:1621-1641`) or blueprint request (`470-520` there) moves
  the batch from outside its four stages. The bound on submissions and the order
  of the stages hold for any late write and any such request, and
  `SubmittingIsLeftIff` says exactly what these do to a submitting batch.
- `ApiExecution.ExecuteRun` takes a graph that validation accepts, as published
  flows are.

## Model

| member | source | states |
|---|---|---|
| `ApiGraph.ValidateGraph` | extracted-app/src/recovery_service/services/api_orchestration.py:335-361 | accepts exactly the well-formed graphs: usable unique ids, one start, an end, edges that are known, not self-loops and not repeated, no cycle, all nodes reachable from start, no edge out of an end, valid mappings; a refusal names a rule that really is broken; the refusal `start has an incoming edge` never happens |
| `ApiGraph.CollectStarts` | extracted-app/src/recovery_service/services/api_orchestration.py:338-339 | one start node and at least one end node |
| `ApiGraph.BuildAdjacency` | extracted-app/src/recovery_service/services/api_orchestration.py:340-344 | fails exactly on an unknown end, a self-loop or a repeated edge; otherwise adjacency and in-degrees are those of the edge set |
| `ApiGraph.KahnCount` | extracted-app/src/recovery_service/services/api_orchestration.py:346-350 | the count equals the number of ids exactly if there is no cycle |
| `ApiGraph.KahnDecides` | extracted-app/src/recovery_service/services/api_orchestration.py:346-350 | the nodes removed when the queue runs dry are all nodes exactly if the graph is acyclic |
| `ApiGraph.CollectReachable` | extracted-app/src/recovery_service/services/api_orchestration.py:351-355 | the worklist ends with exactly the keys some walk reaches from start |
| `ApiGraph.AllReachableIff` | extracted-app/src/recovery_service/services/api_orchestration.py:356 | set equality with the ids decides reachability of every node |
| `ApiGraph.CheckNodes` | extracted-app/src/recovery_service/services/api_orchestration.py:357-361 | the node-by-node checks accept exactly the fitting graphs |
| `ApiGraph.StartIsNeverEntered` | extracted-app/src/recovery_service/services/api_orchestration.py:358-359 | in an acyclic graph whose nodes are all reachable from start, nothing enters start, so that check is dead |
| `ApiExecution.ExecuteRun` | extracted-app/src/recovery_service/services/api_orchestration.py:236-274 | for every accepted graph and every node behaviour: without an exception the run succeeds, executes exactly the nodes reachable from start over edges selected by executed nodes and skips exactly the rest, each once and never both; with one it fails at a live node that was not executed; executed and skipped merge into one order in which every node comes after all sources of its edges |
| `ApiExecution.RunFlow` | extracted-app/src/recovery_service/services/api_orchestration.py:247-271 | the queue loop ends with nothing queued, and every node waiting, executed or skipped for a stated reason |
| `ApiExecution.ExecuteNode` | extracted-app/src/recovery_service/services/api_orchestration.py:263-268 | one turn of the loop keeps all of this and executes a node that had not run |
| `ApiExecution.StartRun` | extracted-app/src/recovery_service/services/api_orchestration.py:247-249 | before the first turn the start node is queued and nothing waits that could be settled |
| `ApiExecution.ResolveReady` | extracted-app/src/recovery_service/services/api_orchestration.py:305-322 | the fixpoint moves exactly the settled nodes, each once, and leaves none that could still be settled |
| `ApiExecution.ResolvePass` | extracted-app/src/recovery_service/services/api_orchestration.py:309-321 | one pass keeps the invariant, skips a node only after its sources, and changes nothing only at the fixpoint |
| `ApiExecution.SettleNode` | extracted-app/src/recovery_service/services/api_orchestration.py:310-321 | a node leaves the pending set exactly if all edges into it are decided, to be run if one was taken and skipped otherwise |
| `ApiExecution.DecideOutgoing` | extracted-app/src/recovery_service/services/api_orchestration.py:265 | exactly the node's outgoing edges are decided, the selected ones as taken |
| `ApiExecution.SelectedOutgoing` | extracted-app/src/recovery_service/services/api_orchestration.py:295-302 | a condition that matched selects its edges labelled `true`, one that did not those labelled `false`, and without such an edge those labelled `default`; any other node selects all |
| `ApiExecution.IndexEdges` | extracted-app/src/recovery_service/services/api_orchestration.py:243-246 | the two indexes list exactly the edges into and out of each node |
| `ApiExecution.StartIsSoleEntry` | extracted-app/src/recovery_service/services/api_orchestration.py:316 | start is the only node without incoming edges, so only start may run unconditionally |
| `ApiExecution.JoinWaited` | extracted-app/src/recovery_service/services/api_orchestration.py:312-314 | a node whose entering edges are all decided has all its sources in the log of executed and skipped nodes |
| `ApiExecution.NothingLeftWaiting` | extracted-app/src/recovery_service/services/api_orchestration.py:269-270 | in an acyclic graph the pending set is empty when the queue is, so the `undecided nodes` error is unreachable |
| `ApiExecution.LiveAreExecuted` | extracted-app/src/recovery_service/services/api_orchestration.py:263-267 | every node reachable over selected edges has been executed |
| `ApiExecution.RunAccounts` | extracted-app/src/recovery_service/services/api_orchestration.py:251-271 | at the end executed and skipped are the live nodes and the others |
| `ApiExecution.FailsOnlyOnLiveNodes` | extracted-app/src/recovery_service/services/api_orchestration.py:260-273 | the run succeeds exactly if no live node raises, whatever the other nodes would do |
| `ApiBranches.ChosenIsFollowed` | extracted-app/src/recovery_service/services/api_orchestration.py:295-302 | an edge is chosen exactly if its source ran and is no condition, or its label is the outcome's, `true` or `false`, or it is `default` and no edge has the outcome's label |
| `ApiBranches.ExecutedIffBrought` | extracted-app/src/recovery_service/services/api_orchestration.py:251-271 | a succeeded run executes the start and exactly the nodes that such an edge out of an executed node enters |
| `ApiBranches.RejectedBranchIsNotRun` | extracted-app/src/recovery_service/services/api_orchestration.py:295-302 | a node behind a branch its condition rejected is executed only if another such edge enters it |
| `ApiBranches.TakenBranchIsRun` | extracted-app/src/recovery_service/services/api_orchestration.py:295-302 | the node behind the branch a condition takes is executed |
| `PlatformGraph.TopologicalOrder` | extracted-app/src/recovery_service/services/data_platform.py:2713-2734 | an order exists exactly if the keys are unique and the known non-self edges have no cycle; it is a permutation of the nodes with every such edge pointing forward |
| `PlatformGraph.CollectDependencies` | extracted-app/src/recovery_service/services/data_platform.py:2714-2722 | the two dictionaries hold exactly the known non-self edges |
| `PlatformGraph.Release` | extracted-app/src/recovery_service/services/data_platform.py:2726-2731 | taking a key removes it from the dependencies of its targets and queues exactly the keys that become free |
| `PlatformGraph.OrderIsComplete` | extracted-app/src/recovery_service/services/data_platform.py:2732-2733 | the length test is exact: all nodes are ordered if and only if the keys are unique and the graph is acyclic |
| `PlatformGraph.ReachableNodes` | extracted-app/src/recovery_service/services/data_platform.py:2767-2781 | nothing for an empty source, otherwise exactly the keys some walk reaches |
| `WorkflowRun.ValidateWorkflowGraph` | extracted-app/src/recovery_service/services/data_platform.py:3077-3114 | accepts exactly the graphs with known ends, no self-loop, no repeated edge, no unconnected node apart from standalone triggers, unique keys and no cycle |
| `WorkflowRun.UpstreamMap` | extracted-app/src/recovery_service/services/data_platform.py:2737-2741 | lists exactly the sources of each target |
| `WorkflowRun.ExecuteRun` | extracted-app/src/recovery_service/services/data_platform.py:2373-2476 | the run follows a topological order, and its results, counts and status are those of the verdicts in that order |
| `WorkflowRun.RunNode` | extracted-app/src/recovery_service/services/data_platform.py:2400-2461 | skips outside the branch, other triggers and blocked nodes; otherwise succeeds or fails as the node does |
| `WorkflowRun.Tally` | extracted-app/src/recovery_service/services/data_platform.py:2468-2470 | the three counters count each status |
| `WorkflowRun.StatusIsVerdict` | extracted-app/src/recovery_service/services/data_platform.py:2383-2461 | a node's final result is its verdict over the results of the nodes before it |
| `WorkflowRun.ValidateChangeTriggers` | extracted-app/src/recovery_service/services/data_platform.py:3117-3150 | accepts exactly the graphs in which no change trigger has an incoming edge, and one has an outgoing edge exactly if it is not self-contained |
| `WorkflowRun.StatusIsFate` | extracted-app/src/recovery_service/services/data_platform.py:2383-2461 | in every run of any kind, on any graph that can be ordered, the result does not depend on the order chosen: it is given by the graph, the start and the nodes alone |
| `WorkflowRun.SkippedBelow` | extracted-app/src/recovery_service/services/data_platform.py:2428-2445 | going up from a skipped node one meets a node that was run and failed, a node that waits for itself or for an unknown node and for nothing else unfinished, or, in a change run, a node outside the branch or another trigger |
| `WorkflowRun.ChangeRun` | extracted-app/src/recovery_service/services/data_platform.py:2373-2480 | a change run of any graph that can be ordered: each node ends as its fate says, whatever order was chosen, the counts add up, the run succeeds exactly if failing is the fate of no node, and fails exactly if it is the fate of some and succeeding that of none |
| `WorkflowRun.OrdinaryRun` | extracted-app/src/recovery_service/services/data_platform.py:2468-2476 | a manual, scheduled or trial run: each node ends as its fate says, the counts add up to the number of nodes, the status is `succeeded` exactly if every node succeeded and `failed` exactly if some failed and none succeeded; it is partial without any failure exactly if such a node had everything else it waits for |
| `WorkflowRun.SkipsOnlyByFailureIff` | extracted-app/src/recovery_service/services/data_platform.py:2428-2476 | exact condition: whatever the nodes do, nodes are skipped only after a failure, if and only if no node waits for itself or for an unknown node |
| `WorkflowRun.ReleasableIsOrderedAndAlive` | extracted-app/src/recovery_service/services/data_platform.py:3111-3114 | a graph that passed validation can be ordered and has no such node |
| `WorkflowRun.SealedBranchSucceeds` | extracted-app/src/recovery_service/services/data_platform.py:2378-2480 | if everything the nodes of the branch wait for is in the branch or is another trigger, and none waits for itself, a change run without failure has run the whole branch |
| `WorkflowRun.UnsealedIsSkipped` | extracted-app/src/recovery_service/services/data_platform.py:2428-2437 | a node of the branch for which this fails is skipped, even when every node works |
| `WorkflowRun.WatermarkIsEarnedIffSealed` | extracted-app/src/recovery_service/services/data_platform.py:2378-2480 | exact condition on any graph that can be ordered: success means that the whole branch succeeded, for all node behaviours, if and only if every node of the branch is sealed in that sense |
| `WorkflowRun.SealedIffClosed` | extracted-app/src/recovery_service/services/data_platform.py:2378-2480 | where ends are known and triggers are entry points, that says: whatever feeds the branch is in it or is another trigger, and no node of it feeds itself |
| `WorkflowRun.WatermarkIsEarnedIffClosed` | extracted-app/src/recovery_service/services/data_platform.py:2378-2480 | so for workflow graphs and for graphs of self-contained triggers alike, success means that the branch was run exactly under these two conditions |
| `WorkflowRun.WatermarkAdvancesPastSkippedNode` | extracted-app/src/recovery_service/services/data_platform.py:2428-2480 | without the first it fails on a released graph: with T->B and A->B, node B is skipped, the run succeeds and the watermark advances |
| `StandaloneTrigger.ValidateActionGraph` | extracted-app/src/recovery_service/services/data_platform.py:2936-2974 | accepts exactly the graphs with known ends, monitor first and connected, no repeated edge, unique keys, no cycle, and every action reachable from the monitor |
| `StandaloneTrigger.CountIncoming` | extracted-app/src/recovery_service/services/data_platform.py:2927-2929 | a count is zero exactly for the actions no edge enters |
| `StandaloneTrigger.Roots` | extracted-app/src/recovery_service/services/data_platform.py:2930 | exactly the actions no edge enters, each once |
| `StandaloneTrigger.StandaloneEdges` | extracted-app/src/recovery_service/services/data_platform.py:2913-2933 | version 1 is upgraded successfully exactly if the action graph is upgradable, and then monitor is attached to exactly the roots; version 2 is accepted as it is, if valid |
| `StandaloneTrigger.UpgradeIffUpgradable` | extracted-app/src/recovery_service/services/data_platform.py:2921-2932 | the upgraded graph validates if and only if keys and edges are unique, no action is called monitor, there is no cycle and every self-loop is entered from elsewhere too |
| `StandaloneTrigger.MonitorReachesAll` | extracted-app/src/recovery_service/services/data_platform.py:2930-2931 | every action of such a graph lies below a root, so it is reachable from the monitor |
| `StandaloneTrigger.AttachedIsAcyclic` | extracted-app/src/recovery_service/services/data_platform.py:2931 | attaching the monitor neither adds nor removes a cycle |
| `StandaloneTrigger.ReachedSelfLoopIsEntered` | extracted-app/src/recovery_service/services/data_platform.py:2928-2930 | an action whose only incoming edge is its own loop is no root and stays unreachable |
| `StandaloneTrigger.DeploymentIsOrdered` | extracted-app/src/recovery_service/services/data_platform.py:2878-2910 | the deployed graph of a validated trigger can be ordered, has known ends and its monitor is an entry point |
| `StandaloneTrigger.DeployedChangeRunsAllIff` | extracted-app/src/recovery_service/services/data_platform.py:2373-2480 | exact condition: a change run of a self-contained trigger that is recorded as succeeded has executed every action, whatever the actions do, if and only if no action feeds itself |
| `StandaloneTrigger.DeployedTrialSkipsOnlyByFailureIff` | extracted-app/src/recovery_service/services/data_platform.py:1160-1199 | a trial run skips actions only after a failure exactly under the same condition, and when it succeeds every action did |
| `StandaloneTrigger.LoopedActionRuns` | extracted-app/src/recovery_service/services/data_platform.py:2936-2974 | validation accepts monitor->a, a->a; its change run succeeds without running a, and its trial run is partial though nothing failed |
| `Schedule.NextScheduleTime` | extracted-app/src/recovery_service/services/data_platform.py:3243-3271 | daily, weekly and monthly: the least instant strictly after the given one at which the plan fires; interval: that many minutes later; the month loop takes at most two turns |
| `Schedule.FirstDailyFire` | extracted-app/src/recovery_service/services/data_platform.py:3249-3253 | the daily candidate is the first fire time |
| `Schedule.FirstWeeklyFire` | extracted-app/src/recovery_service/services/data_platform.py:3254-3260 | the weekly candidate is the first fire time, Monday being 1 |
| `Schedule.FirstMonthlyFire` | extracted-app/src/recovery_service/services/data_platform.py:3261-3272 | the monthly candidate, clamped to the month's length, is the first fire time |
| `Schedule.DateOrderIsDayOrder` | extracted-app/src/recovery_service/services/data_platform.py:3251 | comparing dates field by field is comparing day numbers over the Gregorian calendar |
| `Schedule.AddDaysAdvances` | extracted-app/src/recovery_service/services/data_platform.py:3252-3259 | adding days moves the day number by as much, across months and leap years |
| `Schedule.FiresAsPlanned` | extracted-app/src/recovery_service/services/data_platform.py:3246-3264 | the time of day is the plan's hour and minute, the weekday its day with 1 for Monday, the day its day of the month or the month's last, each clamped to its range |
| `Schedule.IntervalAsPlanned` | extracted-app/src/recovery_service/services/data_platform.py:3248 | an interval is the plan's minutes, 60 without any, and at least one |
| `Schedule.WeekdaysFollow` | extracted-app/src/recovery_service/services/data_platform.py:3256 | each day has the weekday after that of the day before |
| `Schedule.Calendar` | extracted-app/src/recovery_service/services/data_platform.py:3264 | lengths of months, leap years, and 1 January 2024 a Monday |
| `ChangeTrigger.TriggerRow.Finalize` | extracted-app/src/recovery_service/services/data_change_trigger.py:274-325 | settles or keeps the change of the run the row owns, as `Finalized` says; any other run leaves the row alone, and no change held is lost |
| `ChangeTrigger.TriggerRow.Reconcile` | extracted-app/src/recovery_service/services/data_change_trigger.py:494-505 | waits for a live run, finalizes an ended one, lets go of a missing one, and loses no change held |
| `ChangeTrigger.TriggerRow.Probe` | extracted-app/src/recovery_service/services/data_change_trigger.py:339-448 | the whole first transaction of a probe, with its request to dispatch; the row stays good for what it confirmed, or for what was confirmed before |
| `ChangeTrigger.TriggerRow.Judge` | extracted-app/src/recovery_service/services/data_change_trigger.py:374-440 | baseline policies, forced confirmation and the threshold, with the same promise |
| `ChangeTrigger.TriggerRow.Confirm` | extracted-app/src/recovery_service/services/data_change_trigger.py:392-438 | overlap policy, window, debounce or dispatch; unless changes are skipped, the confirmed one is kept |
| `ChangeTrigger.TriggerRow.DispatchFailed` | extracted-app/src/recovery_service/services/data_change_trigger.py:458-468 | the row lets go of any run and waits to retry, and loses no change held |
| `ChangeTrigger.TriggerRow.Dispatched` | extracted-app/src/recovery_service/services/data_change_trigger.py:473-488 | the row runs only if it still owns the created run and that run is live, and loses no change held |
| `ChangeTrigger.TriggerRow.SwitchTo` | extracted-app/src/recovery_service/services/data_change_trigger.py:226-241 | pausing and resuming lose no change held, and a resumed trigger has a next probe |
| `ChangeTrigger.TriggerRow.Rebuild` | extracted-app/src/recovery_service/services/data_change_trigger.py:244-271 | refused while a run is owned, otherwise everything is reset to the current reading, which is kept |
| `ChangeTrigger.TriggerRow.RetireTrigger` | extracted-app/src/recovery_service/services/data_change_trigger.py:86-97 | taking the version offline retires the row and loses no change held |
| `ChangeTrigger.TriggerRow.Republish` | extracted-app/src/recovery_service/services/data_change_trigger.py:67-83 | publishing again revives a retired row, keeps a probe that is due and loses no change held |
| `ChangeTrigger.TriggerRow.MarkProbeFailure` | extracted-app/src/recovery_service/services/data_change_trigger.py:162-180 | retires or schedules the retry, and loses no change held |
| `ChangeTrigger.QueueKeepsNewest` | extracted-app/src/recovery_service/services/data_change_trigger.py:399-402 | the queue stays free of repetitions, at most 100 long, and keeps the newest change |
| `ChangeTrigger.StepKeepsGood` | extracted-app/src/recovery_service/services/data_change_trigger.py:274-505 | every transaction keeps the row, run, dispatch and confirmation invariants |
| `ChangeTrigger.LatestChangeIsKept` | extracted-app/src/recovery_service/services/data_change_trigger.py:386-440 | in every run under merge or queue the latest confirmed change is applied, pending or queued |
| `ChangeTrigger.NothingIsStranded` | extracted-app/src/recovery_service/services/data_change_trigger.py:274-505 | in every run an owned run or a non-empty queue has a pending change, queued changes are distinct and at most 100, and an enabled trigger has a next probe |
| `ChangeTrigger.ProbeLeavesAloneIff` | extracted-app/src/recovery_service/services/data_change_trigger.py:339-361 | but a probe need not act: whatever it reads and whenever it comes, it leaves a row alone exactly if a dispatch of it is under way, or it retires a row already retired |
| `ChangeTrigger.DispatchingIsLeftIff` | extracted-app/src/recovery_service/services/data_change_trigger.py:339-505 | a dispatching row is left exactly by its dispatcher's report, the end of its run, a failed, or retiring automatic, probe, a switch, a rebuild while no live run is owned, or by taking the version or the trigger offline |
| `ChangeTrigger.WaitingChangeIsLostIff` | extracted-app/src/recovery_service/services/data_change_trigger.py:385-420 | in every run, exactly when a change that waits is lost unapplied: when a probe confirms another change and displaces it, in the pending place after a retry under any policy or at the front of a full queue, or when an accepted rebuild finds another reading |
| `ChangeTrigger.QueueLosesAChange` | extracted-app/src/recovery_service/services/data_change_trigger.py:385-420 | a run under the queue policy after which the probe overwrites the older change that waits: the queued one if the run before it succeeded, that of the run itself if it failed |
| `ChangeTrigger.DispatchesAreSpaced` | extracted-app/src/recovery_service/services/data_change_trigger.py:663-665 | in every run the n-th later dispatch comes at least n minimum intervals later |
| `ChangeTrigger.WatermarkMovesBySuccess` | extracted-app/src/recovery_service/services/data_change_trigger.py:284-296 | a step moves the watermark only by a baseline or to the value the owned run was dispatched with, when that run has succeeded |
| `ChangeTrigger.WatermarkIsNeverWrong` | extracted-app/src/recovery_service/services/data_change_trigger.py:274-505 | the same for the next step of every run, whatever orphans, pauses and rebuilds came before |
| `ChangeTrigger.FinalizingTwiceIsOnce` | extracted-app/src/recovery_service/services/data_change_trigger.py:280-281 | finalizing again changes nothing |
| `ChangeTrigger.OrphanLeavesTheRowAlone` | extracted-app/src/recovery_service/services/data_change_trigger.py:280-281 | a run the row does not own cannot change the row |
| `ChangeTrigger.SkipKeepsIff` | extracted-app/src/recovery_service/services/data_change_trigger.py:393-397 | under the skip policy a probe that confirms a change keeps it exactly if the trigger owns no live run, or the change is already waiting |
| `ChangeTrigger.SkipLosesAChange` | extracted-app/src/recovery_service/services/data_change_trigger.py:393-397 | a run after which the latest confirmed change is nowhere |
| `ChangeTrigger.RebuildOrphansADispatch` | extracted-app/src/recovery_service/services/data_change_trigger.py:435-448 | a rebuild between dispatch and creation of the run orphans it; its success leaves the rebuilt watermark |
| `ChangeTriggerTimes.DispatchesAreInTheWindow` | extracted-app/src/recovery_service/services/data_change_trigger.py:649-660 | in every run every dispatch falls into the execution window, counted in minutes of the day and over midnight where the end comes before the start |
| `ChangeTriggerTimes.WindowIsAnArc` | extracted-app/src/recovery_service/services/data_change_trigger.py:657-660 | going forward round the clock from its start, the window is what comes no later than its end |
| `ChangeTriggerTimes.CountedChangeIsDispatchedIff` | extracted-app/src/recovery_service/services/data_change_trigger.py:404-440 | while no run is owned, a change that counts is dispatched exactly if the window and the minimum interval allow it, and otherwise waits with no run |
| `ChangeTriggerTimes.CountedChangeIsConfirmed` | extracted-app/src/recovery_service/services/data_change_trigger.py:374-440 | in both cases it is confirmed and pending, and the queue and the watermark stay |
| `ChangeTriggerTimes.UncountedIsOnlyNoted` | extracted-app/src/recovery_service/services/data_change_trigger.py:361-447 | a reading that does not count changes only what was observed, the number of matches and the next probe |
| `ChangeTriggerTimes.FirstProbe` | extracted-app/src/recovery_service/services/data_change_trigger.py:374-382 | without a baseline, the policies that do not run at once take the reading, or wait, and dispatch nothing |
| `ChangeTriggerTimes.ChangeMeetsARun` | extracted-app/src/recovery_service/services/data_change_trigger.py:390-408 | while a run is under way nothing is dispatched; a change that counts is dropped, queued or merged by policy |
| `ChangeTriggerTimes.QueuedBehindTheNewest` | extracted-app/src/recovery_service/services/data_change_trigger.py:396-402 | a queued change comes last, behind the newest 99 |
| `ChangeTriggerTimes.SuccessApplies` | extracted-app/src/recovery_service/services/data_change_trigger.py:284-313 | the end of the owned run: the change it was dispatched with is applied, and the oldest queued one moves up if nothing else waits |
| `ChangeTriggerTimes.FailureKeeps` | extracted-app/src/recovery_service/services/data_change_trigger.py:314-325 | a failed run applies nothing, keeps every change, and is tried again after the retry interval |
| `ChangeTriggerTimes.ProbeSettlesFirst` | extracted-app/src/recovery_service/services/data_change_trigger.py:494-502 | a probe that comes upon an ended run does what it does after the end of that run |
| `ChangeTriggerTimes.ProbeForgetsALostRun` | extracted-app/src/recovery_service/services/data_change_trigger.py:503-505 | a probe whose run is gone does what it does without one |
| `ChangeTriggerTimes.NothingToProbe` | extracted-app/src/recovery_service/services/data_change_trigger.py:347-360 | an automatic probe retires a trigger that is off, gone or retired; while a dispatch is on no other probe does anything |
| `ChangeTriggerTimes.FailedProbeIsRetried` | extracted-app/src/recovery_service/services/data_change_trigger.py:162-180 | a failed probe retires such a trigger, and otherwise waits for the retry interval |
| `ChangeTriggerTimes.RebuildStartsOver` | extracted-app/src/recovery_service/services/data_change_trigger.py:244-271 | refused while a run is under way, and otherwise everything starts over from the reading |
| `ChangeTriggerTimes.OffAndOn` | extracted-app/src/recovery_service/services/data_change_trigger.py:226-241 | paused and resumed, or taken offline and published again, a trigger keeps its changes, its run and its watermark |
| `ChangeTriggerTimes.RepublishKeepsTheDate` | extracted-app/src/recovery_service/services/data_change_trigger.py:67-76 | published again while online, a probe that was due stays due |
| `ChangeTriggerTimes.DispatcherReports` | extracted-app/src/recovery_service/services/data_change_trigger.py:452-488 | a failed dispatch lets go of the run and keeps the change; a finished one counts only for an owned run under way |
| `ChangeTriggerTimes.DispatchesAreInThePast` | extracted-app/src/recovery_service/services/data_change_trigger.py:663-665 | in every run time only passes, and every dispatch happened before now |
| `ChangeTriggerTimes.LeftBehindIsRetried` | extracted-app/src/recovery_service/services/data_change_trigger.py:384-440 | the change a failed dispatch left behind is dispatched by the next probe the window and interval allow |
| `PrivilegeLedger.Ledger.Acquire` | extracted-app/src/recovery_service/services/batch_authorization.py:615-727 | lease, Doris and grant history after an acquire, for each way it can fail |
| `PrivilegeLedger.Ledger.GrantRow` | extracted-app/src/recovery_service/services/batch_authorization.py:457-528 | the row a user of a table gets; every grant stays accounted for |
| `PrivilegeLedger.Ledger.ImportTable` | extracted-app/src/recovery_service/services/batch_authorization.py:440-537 | a table's rows and its roll-up over the users; every grant stays accounted for |
| `PrivilegeLedger.Ledger.ImportBatch` | extracted-app/src/recovery_service/services/batch_authorization.py:401-545 | refused if already expired; otherwise all tables and the roll-up over them; every grant stays accounted for and, after a careful import, every active reference present |
| `PrivilegeLedger.Ledger.RevokeRow` | extracted-app/src/recovery_service/services/batch_authorization.py:950-987 | one row of an offline: left, skipped, failed or revoked, with its lease and Doris, for each origin and state of the lease; every grant stays accounted for |
| `PrivilegeLedger.Ledger.OfflineTable` | extracted-app/src/recovery_service/services/batch_authorization.py:1097-1149 | a table is offlined exactly if no revoke of this pass failed; every grant stays accounted for |
| `PrivilegeLedger.Ledger.OfflineBatch` | extracted-app/src/recovery_service/services/batch_authorization.py:919-1000 | a batch is offlined if no table was hurt, else partial and online again; unless it is torn, every active reference stays present |
| `PrivilegeLedger.Ledger.SweepExpired` | extracted-app/src/recovery_service/services/batch_authorization.py:1056-1072 | a scheduler tick is the sequence of these steps over the picked batches, and keeps every active reference present without any care |
| `PrivilegeLedger.Ledger.ExtendBatch` | extracted-app/src/recovery_service/services/batch_authorization.py:1003-1015 | exactly the requested expiry, an expired or offlined batch back to succeeded, and nothing else changed; after a careful extension every active reference stays present |
| `PrivilegeLeaks.GrantRowKeeps` | extracted-app/src/recovery_service/services/batch_authorization.py:681-727 | granting a row keeps every granted privilege accounted for |
| `PrivilegeLeaks.SkippedIsHeldElsewhere` | extracted-app/src/recovery_service/services/batch_authorization.py:792-808 | a granted privilege that an offline decides not to revoke is held by a standing row of another batch |
| `PrivilegeLeaks.PassTableKeeps` | extracted-app/src/recovery_service/services/batch_authorization.py:1097-1149 | finishing a table drops no privilege's last standing row unless it was revoked |
| `PrivilegeLeaks.StepKeeps` | extracted-app/src/recovery_service/services/batch_authorization.py:390-1152 | every transaction keeps each granted privilege under a live system lease with a standing row |
| `PrivilegeLeaks.GrantedIsAccounted` | extracted-app/src/recovery_service/services/batch_authorization.py:390-1152 | so it is in every run, across failed revokes, retries, shared leases, extensions and other people's statements |
| `PrivilegeLeaks.NothingLeaks` | extracted-app/src/recovery_service/services/batch_authorization.py:919-1152 | once no table of any batch is up, no privilege this system granted is left |
| `PrivilegeTerms.ExtensionGivesTheInstant` | extracted-app/src/recovery_service/services/batch_authorization.py:1003-1015 | an accepted extension stores exactly the requested instant, revives an expired or offlined batch, and changes no other batch, table, row, lease or privilege |
| `PrivilegeTerms.OtherExtensionsAreRefused` | extracted-app/src/recovery_service/services/batch_authorization.py:1003-1009 | an unknown batch or an instant that is not in the future changes nothing |
| `PrivilegeTerms.ExtendedCountsUntil` | extracted-app/src/recovery_service/services/batch_authorization.py:1003-1015 | a standing batch counts exactly until the instant it was extended to |
| `PrivilegeTerms.ExpiryIsTheTerm` | extracted-app/src/recovery_service/services/batch_authorization.py:401-1015 | in every run each batch expires at the last instant it was given, by its import or an accepted extension |
| `PrivilegeTerms.CountsOrIsDue` | extracted-app/src/recovery_service/services/batch_authorization.py:743-1072 | in every run a batch that is up counts before that instant, and is due from then on |
| `PrivilegeTerms.OfflineSettlesTheBatch` | extracted-app/src/recovery_service/services/batch_authorization.py:988-1000 | taken offline, a batch is offlined, or partial and online again, and offlined if no REVOKE fails; its expiry and every other batch stay |
| `PrivilegeTerms.OfflineSettlesTheTables` | extracted-app/src/recovery_service/services/batch_authorization.py:1097-1149 | without a failing REVOKE exactly the imported tables of the batch are offlined |
| `PrivilegeTerms.PlanSaysWhy` | extracted-app/src/recovery_service/services/batch_authorization.py:792-808 | why a privilege is kept or revoked: referenced, revoked already, the system's own, there before, or of unknown origin |
| `PrivilegeTerms.LostConnectionFailsTheBatch` | extracted-app/src/recovery_service/services/batch_authorization.py:1060-1068 | a due batch without a connection fails, and nothing else happens |
| `PrivilegeTerms.OfflineLeavesOnlySharedGrants` | extracted-app/src/recovery_service/services/batch_authorization.py:919-1000 | in every run, once a batch is offline without a failing REVOKE, each grant that is left has a standing row of another batch |
| `PrivilegeShutdown.RunClosesTables` | extracted-app/src/recovery_service/services/batch_authorization.py:530-537 | in every run, between transactions no table is left running |
| `PrivilegeShutdown.OfflineTakesTablesDown` | extracted-app/src/recovery_service/services/batch_authorization.py:919-1000 | taking a batch offline without a failing REVOKE takes down all its tables and puts no other one up |
| `PrivilegeShutdown.OfflineOfAllLeavesNothing` | extracted-app/src/recovery_service/services/batch_authorization.py:919-1152 | after any run, taking every batch offline without a failing REVOKE, in any order, revokes everything this system granted |
| `PrivilegeImports.ImportTablesRecord` | extracted-app/src/recovery_service/services/batch_authorization.py:440-537 | in order, each attempt gets through exactly if nothing fails, or only the GRANT would on a privilege Doris has by then, and each table is rolled up from its own rows |
| `PrivilegeImports.TableSucceededIff` | extracted-app/src/recovery_service/services/batch_authorization.py:530-537 | a table succeeds exactly if all its attempts get through |
| `PrivilegeImports.ImportCountsIff` | extracted-app/src/recovery_service/services/batch_authorization.py:530-540 | exact condition on the attempts: the privileges an import granted all count as references if and only if every attempt of some table gets through, or no attempt of any table does |
| `PrivilegeOffline.ActiveIsCounted` | extracted-app/src/recovery_service/services/batch_authorization.py:743-777 | a row that is active by the query's conditions makes the count positive |
| `PrivilegeOffline.RevokedInUseIsTorn` | extracted-app/src/recovery_service/services/batch_authorization.py:950-987 | a row revoked while another active row has its privilege is one of two standing rows of the batch that share a live privilege nobody else refers to |
| `PrivilegeOffline.RevokeRowIsSafe` | extracted-app/src/recovery_service/services/batch_authorization.py:950-987 | without such a pair a row's revoke, failed or not, keeps every active reference present |
| `PrivilegeOffline.OfflineSpares` | extracted-app/src/recovery_service/services/batch_authorization.py:919-998 | with any failures, an offline leaves an active reference of another batch active and its privilege in Doris |
| `PrivilegeOffline.TornIsLost` | extracted-app/src/recovery_service/services/batch_authorization.py:954-998 | with such a pair there are failures that leave the first of the two rows active without its privilege |
| `PrivilegeOffline.OfflineIsSafeIff` | extracted-app/src/recovery_service/services/batch_authorization.py:919-998 | exact condition: whichever revokes fail, taking a batch offline keeps every active reference present, if and only if the batch is expired or has no such pair |
| `PrivilegeReferences.OfflineKeepsSound` | extracted-app/src/recovery_service/services/batch_authorization.py:919-998 | taking a batch offline that is not torn, with any failures, keeps every active reference present |
| `PrivilegeReferences.ImportKeepsSound` | extracted-app/src/recovery_service/services/batch_authorization.py:390-545 | so does an import whose granted privileges will count |
| `PrivilegeReferences.ExtendKeepsSound` | extracted-app/src/recovery_service/services/batch_authorization.py:1003-1015 | so does an extension before expiry, or of a batch of which nothing stands |
| `PrivilegeReferences.ActiveReferencesArePresent` | extracted-app/src/recovery_service/services/batch_authorization.py:743-1015 | in every careful run each reference the count counts has its privilege in Doris |
| `PrivilegeReferences.OfflineSparesOtherBatches` | extracted-app/src/recovery_service/services/batch_authorization.py:919-998 | in every run, careful or not, an offline leaves the active references of other batches active, and those that were present present |
| `PrivilegeReferences.NamedOnceIsNeverTorn` | extracted-app/src/recovery_service/services/batch_authorization.py:950-998 | in every run whose imports name no privilege twice, no batch is ever torn |
| `PrivilegeReferences.ExtendIsSafeIff` | extracted-app/src/recovery_service/services/batch_authorization.py:1003-1015 | exact condition for an extension: whatever Doris holds, it keeps active references present if and only if the batch counts already, does not count afterwards, or all its standing rows are referenced elsewhere |
| `PrivilegeOwnership.AcquireIsHonestIff` | extracted-app/src/recovery_service/services/batch_authorization.py:681-727 | an acquire claims somebody else's privilege exactly if its check fails on a lease that was revoked while owned and whose privilege is there again |
| `PrivilegeOwnership.OutsideGrantIsHonestIff` | extracted-app/src/recovery_service/services/batch_authorization.py:690-709 | somebody else's grant is taken for this system's exactly if the lease is live although the privilege is gone |
| `PrivilegeOwnership.RunIsHonest` | extracted-app/src/recovery_service/services/batch_authorization.py:390-1152 | without these two, in every run, what exists under a live system lease came from this system's own GRANT |
| `PrivilegeOwnership.RevokesOnlyOwnGrants` | extracted-app/src/recovery_service/services/batch_authorization.py:792-808 | so every REVOKE an offline issues for an existing privilege, at any row of any table, is for one this system granted |
| `PrivilegeHazards.ExtensionRevivesARevokedReference` | extracted-app/src/recovery_service/services/batch_authorization.py:1003-1015 | a batch that expired, was passed over by another batch's revoke, and is then extended refers to a privilege that is gone |
| `PrivilegeHazards.PartialBatchLosesItsPrivilege` | extracted-app/src/recovery_service/services/batch_authorization.py:530-540 | a batch whose only table is partial is marked failed, and an unexpired granted row of it loses its privilege |
| `PrivilegeHazards.TwiceNamedPrivilegeIsLost` | extracted-app/src/recovery_service/services/batch_authorization.py:954-998 | after an import that names a privilege twice, an offline in which the revoke of the first row fails leaves that row active without the privilege |
| `PrivilegeHazards.ForgedLeaseIsLive` | extracted-app/src/recovery_service/services/batch_authorization.py:723-727 | a failed check makes a revoked lease live again, and the next import keeps somebody else's privilege under it |
| `PrivilegeHazards.ForgedLeaseRevokesSomebodyElses` | extracted-app/src/recovery_service/services/batch_authorization.py:681-727 | and the next offline then revokes it |
| `DispatchOutbox.Outbox.Register` | extracted-app/src/recovery_service/services/data_automation.py:92-116 | returns the row of this idempotency key, adding one only if there is none; each key keeps one row |
| `DispatchOutbox.Outbox.ResetStaleRows` | extracted-app/src/recovery_service/services/data_automation.py:237-244 | claims older than two minutes become pending and due, and the outbox invariants hold on |
| `DispatchOutbox.Outbox.ReconcileWithTargets` | extracted-app/src/recovery_service/services/data_automation.py:175-191 | open rows take over what their target says, and the outbox invariants hold on |
| `DispatchOutbox.Outbox.ClaimRow` | extracted-app/src/recovery_service/services/data_automation.py:260-282 | the compare-and-set claim: it succeeds exactly for a due row |
| `DispatchOutbox.Outbox.DispatchRow` | extracted-app/src/recovery_service/services/data_automation.py:260-316 | claim, send, record, defer or retry of one row; one that gets past dispatching was launched |
| `DispatchOutbox.Outbox.SelectDue` | extracted-app/src/recovery_service/services/data_automation.py:247-258 | the due rows, oldest first, up to the limit |
| `DispatchOutbox.Outbox.DispatchPending` | extracted-app/src/recovery_service/services/data_automation.py:231-317 | a whole pass: stale claims, reconciliation, then the oldest due rows up to the limit; it keeps the outbox invariants |
| `DispatchSafety.StepKeepsSafe` | extracted-app/src/recovery_service/services/data_automation.py:92-317 | every step of any number of dispatchers, consumers and targets keeps the outbox invariants |
| `DispatchSafety.PassKeepsSafe` | extracted-app/src/recovery_service/services/data_automation.py:259-316 | so does every uninterrupted pass |
| `DispatchSafety.OneRowForEachStage` | extracted-app/src/recovery_service/services/data_automation.py:92-116 | in every run two rows with the same batch, stage and target are the same row |
| `DispatchSafety.BodyStartsAtMostOnce` | extracted-app/src/recovery_service/services/data_platform.py:709-736 | in every run, with any duplicate deliveries, the body of a component or workflow run starts at most once, and only for a row some dispatcher claimed |
| `DispatchSafety.DispatchedMeansLaunched` | extracted-app/src/recovery_service/services/data_automation.py:286-306 | a row past dispatching was sent, or its target has left its first state |
| `DispatchSafety.StaleClaimIsRetried` | extracted-app/src/recovery_service/services/data_automation.py:237-244 | the row of a dispatcher that died is due again at the next reset after two minutes |
| `DispatchSafety.OldestDueRowsFirst` | extracted-app/src/recovery_service/services/data_automation.py:247-258 | a due row is left out of a pass only if the limit is used up by older rows |
| `DispatchSafety.RetryDelayIsMonotone` | extracted-app/src/recovery_service/services/data_automation.py:310 | the delay never falls with more attempts and lies between 5 and 300 seconds |
| `DispatchSafety.FailedRowWaits` | extracted-app/src/recovery_service/services/data_automation.py:307-315 | after a failed send the row can be claimed exactly once its delay is over |
| `DispatchSafety.ReconcileAgreesWithTargets` | extracted-app/src/recovery_service/services/data_automation.py:119-191 | what an open row says after reconciling, for each kind and state of its target; a settled row stays, and reconciling again changes nothing |
| `DispatchSafety.RetryDelays` | extracted-app/src/recovery_service/services/data_automation.py:310 | 5, 10, 20, 40, 80, 160 and then 300 seconds |
| `DispatchOutcomes.RegisteredOnce` | extracted-app/src/recovery_service/services/data_automation.py:92-116 | a stage is registered once, as a row due at once |
| `DispatchOutcomes.ClaimIsCounted` | extracted-app/src/recovery_service/services/data_automation.py:260-278 | a claim counts the attempt and its time; where it cannot be had nothing changes |
| `DispatchOutcomes.SentRowIsDispatched` | extracted-app/src/recovery_service/services/data_automation.py:286-306 | claimed, sent and recorded, a row is dispatched, its target sent and its claim given up |
| `DispatchOutcomes.JobRowTakesOver` | extracted-app/src/recovery_service/services/data_automation.py:288-301 | the row of an SM4 job takes over what the job says, or is due again after 30 seconds |
| `DispatchOutcomes.NothingIsRecordedUnsent` | extracted-app/src/recovery_service/services/data_automation.py:286-306 | no dispatch is recorded without a send |
| `DispatchOutcomes.RefusedRowWaits` | extracted-app/src/recovery_service/services/data_automation.py:307-315 | a refused row is due again after the delay for this attempt |
| `DispatchOutcomes.StaleClaimIsGivenBack` | extracted-app/src/recovery_service/services/data_automation.py:237-244 | a claim older than 120 seconds is given back and due at once; every other row stays |
| `DispatchOutcomes.DeliveryStartsOnce` | extracted-app/src/recovery_service/services/data_platform.py:709-736 | a message starts a component or workflow run that has not begun, and nothing else |
| `DispatchOutcomes.PassHandsOverEach` | extracted-app/src/recovery_service/services/data_automation.py:259-316 | an uninterrupted pass hands over each selected row once, dispatched or waiting as the broker took or refused it, and touches no other |
| `DispatchOutcomes.DueRowsIncrease` | extracted-app/src/recovery_service/services/data_automation.py:247-258 | the selected rows are distinct, the older before the younger |
| `ProtectedFlow.BatchRecord.CompleteSm4` | extracted-app/src/recovery_service/services/data_automation.py:2046-2078 | waits, fails back, or activates access and queues standardising; it may raise after the stage was set; a protected batch starts to standardise only if a job has succeeded |
| `ProtectedFlow.BatchRecord.RestoreStep` | extracted-app/src/recovery_service/services/data_automation.py:1832-1868 | the restore branch with each exit, none of which starts to standardise a protected batch |
| `ProtectedFlow.BatchRecord.SyncStep` | extracted-app/src/recovery_service/services/data_automation.py:1869-1891 | the synchronisation branch: a protected batch is planned for encryption and never queued for standardising |
| `ProtectedFlow.BatchRecord.StandardStep` | extracted-app/src/recovery_service/services/data_automation.py:1892-1920 | the standardising branch with each exit, for a run that has been started |
| `ProtectedFlow.BatchRecord.Advance` | extracted-app/src/recovery_service/services/data_automation.py:656-669 | a step of the loop, with its exception handler keeping what was assigned; a protected batch starts to standardise only if a job has succeeded |
| `ProtectedFlow.BatchRecord.ResumeFromStage` | extracted-app/src/recovery_service/services/data_automation.py:575-646 | resuming from the resume stage, or from the present one, in any state; it never starts to standardise a protected batch |
| `ProtectedFlow.BatchRecord.ActivateAccess` | extracted-app/src/recovery_service/services/data_automation.py:1621-1641 | activation in any state; an exception keeps nothing; a protected batch starts to standardise only if a job has succeeded |
| `ProtectedFlow.BatchRecord.SubmitRequest` | extracted-app/src/recovery_service/services/data_automation.py:1603-1616 | submission only when encryption is ready, which never starts to standardise a protected batch |
| `ProtectedFlow.CompleteEncryptionKeeps` | extracted-app/src/recovery_service/services/data_automation.py:2046-2076 | the step that starts standardising has just seen the batch's SM4 job succeed |
| `ProtectedFlow.StepKeeps` | extracted-app/src/recovery_service/services/data_automation.py:575-2078 | every event keeps: a protected batch that standardises has had a successful SM4 job |
| `ProtectedFlow.EncryptsBeforeStandardising` | extracted-app/src/recovery_service/services/data_automation.py:575-2078 | in every run of a batch created protected, a standardising run, state or resume stage implies that an SM4 job of the batch has succeeded |
| `ProtectedFlow.StaysIffStuck` | extracted-app/src/recovery_service/services/data_automation.py:1825-1929 | the loop leaves a batch alone, whatever it learns, exactly if no branch applies to its stage and records |
| `ProtectedFlow.DeadEnds` | extracted-app/src/recovery_service/services/data_automation.py:1825-1929 | raw_ready, restored and security_access_active are such stages |
| `ProtectedFlow.ActivationCanStrand` | extracted-app/src/recovery_service/services/data_automation.py:2069-2076 | an exception after the stage was set leaves a failed batch that every resume puts into a stage the loop does not leave |
| `ProtectedFlow.AccessIsLeftBy` | extracted-app/src/recovery_service/services/data_automation.py:575-2078 | exactly what moves it on, in every run: a batch in security_access_active leaves it only by an activation request that finds the job broken or prepares standardising without an exception, or by blueprint matching, and goes where the lemma says; the loop, a resume, a submission and a plan change nothing of it |
| `ProtectedFlow.ProtectedFlowCompletes` | extracted-app/src/recovery_service/services/data_automation.py:1825-2078 | the protected flow can complete: restore, synchronise, encrypt, standardise |
| `ProtectedRecovery.LoopShowsTheRun` | extracted-app/src/recovery_service/services/data_automation.py:1836-1906 | while the run of a stage waits or works, the loop shows just that |
| `ProtectedRecovery.PartFailsIff` | extracted-app/src/recovery_service/services/data_automation.py:1825-1929 | exactly when a step over a run fails the batch: a bad reading, an exception before, or one after the new stage was set |
| `ProtectedRecovery.FailedPartIsRedone` | extracted-app/src/recovery_service/services/data_automation.py:575-669 | protected or not, after a bad reading, or an exception before the new stage was set, a resume hands the same stage over again under a new identifier and leaves no resume stage, or is refused and leaves the failed batch |
| `ProtectedRecovery.BadReadingIsMarked` | extracted-app/src/recovery_service/services/data_automation.py:1844-1898 | a bad reading marks the stage it was read for, whatever was marked before |
| `ProtectedRecovery.ExceptionKeepsTheMark` | extracted-app/src/recovery_service/services/data_automation.py:656-669 | an exception leaves an earlier resume stage in place |
| `ProtectedRecovery.LateExceptionIsNotRedone` | extracted-app/src/recovery_service/services/data_automation.py:656-669 | an exception after the new stage was set is resumed in that stage, where the run is not done again |
| `ProtectedRecovery.InBetweenIsADeadEnd` | extracted-app/src/recovery_service/services/data_automation.py:1825-1929 | there the loop leaves a restored or synchronised batch for good, and completes a standardised one unencrypted |
| `ProtectedRecovery.RestoreGoesOn` | extracted-app/src/recovery_service/services/data_automation.py:1844-1868 | a good restore: blocked without a schema, handed over for synchronising, or raw |
| `ProtectedRecovery.SyncGoesOn` | extracted-app/src/recovery_service/services/data_automation.py:1879-1891 | a good synchronisation: planned for encryption if protected, otherwise handed over to be standardised, or raw |
| `ProtectedRecovery.StandardGoesOn` | extracted-app/src/recovery_service/services/data_automation.py:1900-1920 | a good standardisation: completed if protected, otherwise ready, planned for encryption or blocked |
| `ProtectedRecovery.EncryptionIsSubmitted` | extracted-app/src/recovery_service/services/data_automation.py:1921-1923 | in every run a submission opens a new job; what cannot be submitted is resumed there |
| `ProtectedRecovery.JobDecides` | extracted-app/src/recovery_service/services/data_automation.py:2046-2078 | an open job leaves the batch alone, a broken one fails it, a good one completes an unprotected batch |
| `ProtectedRecovery.JobEndIsRecorded` | extracted-app/src/recovery_service/services/data_automation.py:2051-2062 | the end of a job is recorded as it is and leaves the batch to its next step |
| `ProtectedRecovery.BrokenJobIsRedone` | extracted-app/src/recovery_service/services/data_automation.py:2062-2066 | a broken job is resumed before the encryption |
| `ProtectedRecovery.SucceededJobGoesOn` | extracted-app/src/recovery_service/services/data_automation.py:2067-2078 | a protected batch is handed over to be standardised; what cannot be recorded is tried again |
| `ProtectedRecovery.RequestSubmitsLikeTheLoop` | extracted-app/src/recovery_service/services/data_automation.py:1603-1616 | the request submits what the loop would, and changes nothing else |
| `ProtectedRecovery.ActivationIsAStepOfTheLoop` | extracted-app/src/recovery_service/services/data_automation.py:1621-1641 | a request to activate access is the loop's step, but takes nothing half way |
| `ProtectedRecovery.PlanComesBeforeCompletion` | extracted-app/src/recovery_service/services/data_automation.py:1926-1928 | the loop completes a batch that is ready, unless it was planned for encryption before |
| `ProtectedRecovery.ScanThenResume` | extracted-app/src/recovery_service/services/data_automation.py:575-646 | a discovered batch that is resumed is where a scan that restores puts it |
| `ProtectedCompletion.CompletedWentThroughAll` | extracted-app/src/recovery_service/services/data_automation.py:575-2078 | in every run, whatever fails, is resumed, activated, planned or matched, a completed batch had a good reading of its restore, after it of its synchronisation, and after that of its standardisation; and a protected one a successful job |
| `ProtectedCompletion.CanCompleteIff` | extracted-app/src/recovery_service/services/data_automation.py:575-2078 | exact condition in every run: some continuation completes the batch if and only if a job of it was ever submitted, or its stage or resume stage is none of eight dead ends |
| `AssistantExecution.AssistantBatch.ClaimStage` | extracted-app/src/recovery_service/services/assistant_execution.py:46-57 | the compare-and-set: it succeeds exactly in the expected state, and is paid for by an entry of the stage |
| `AssistantExecution.AssistantBatch.Submit` | extracted-app/src/recovery_service/services/assistant_execution.py:78-89 | a submission with its unknown outcome, and the restore stage's write back after a failed dispatch; payment, order and single claims hold on |
| `AssistantExecution.AssistantBatch.Advance` | extracted-app/src/recovery_service/services/assistant_execution.py:60-191 | what the batch becomes on each reading of its stage: passed and logged, failed with its resume stage, handed over, or left alone; and payment, order and single claims hold on |
| `AssistantExecution.AssistantBatch.Fail` | extracted-app/src/recovery_service/services/assistant_execution.py:217-222 | the failed stage becomes the resume stage; an exception keeps an earlier one |
| `AssistantExecution.AssistantBatch.ResumeFailed` | extracted-app/src/recovery_service/services/assistant_execution.py:225-246 | accepted exactly for a failed batch with one of the four stages, and the resume stage is kept |
| `AssistantExecution.StepKeepsPaid` | extracted-app/src/recovery_service/services/assistant_execution.py:46-191 | each claim uses up an entry of its stage, each recorded submission a claim, each success a recorded submission |
| `AssistantExecution.SubmittedOncePerResume` | extracted-app/src/recovery_service/services/assistant_execution.py:46-246 | in every run, however late workers write, each stage is claimed for submission at most once, plus once for each resume of it or of a stage before it |
| `AssistantExecution.StepKeepsOrdered` | extracted-app/src/recovery_service/services/assistant_execution.py:60-246 | no state, claim or resume stage is ahead of the stages that have succeeded in order |
| `AssistantExecution.CompletedInOrder` | extracted-app/src/recovery_service/services/assistant_execution.py:177-190 | a completed batch was restored, synchronised, standardised and encrypted, in this order |
| `AssistantExecution.UnknownIsFinal` | extracted-app/src/recovery_service/services/assistant_execution.py:66-68 | after a submission of unknown outcome no stage is ever claimed or submitted again, as long as workers write punctually; the batch stays as it is exactly as long as no request from outside moves it, and then it comes to rest |
| `AssistantExecution.SubmittingIsLeftByItsClaimer` | extracted-app/src/recovery_service/services/assistant_execution.py:66-68 | after a timely run a submitting batch is left exactly by the write of the worker that claimed it, and by the requests from outside |
| `AssistantExecution.SubmittingIsLeftIff` | extracted-app/src/recovery_service/services/assistant_execution.py:60-246 | in every run, timely or not, exactly which writes take a batch out of submitting: that of a worker that claimed a stage; a late failure or exception of a stage that was ever submitted; a late failure of a batch found ready to be standardised; a late exception of one found ready to be restored; a failed dispatch of the restore while a later stage is submitting; an activation request that finds the job of an earlier encryption ended; blueprint matching |
| `AssistantExecution.ActivationEndsAnUnknownSubmission` | extracted-app/src/recovery_service/services/data_automation.py:2057-2066 | a timely run in which the second encryption may have been submitted, after which an activation request reads the failed first job and fails the batch for good |
| `AssistantExecution.LateFailureFreesASubmission` | extracted-app/src/recovery_service/services/assistant_execution.py:217-222 | a late failure of the stage itself frees its submission exactly if the stage had been submitted before; a resume and a claim then put one more submission of it under way |
| `AssistantExecution.SlowFailureSubmitsTwice` | extracted-app/src/recovery_service/services/assistant_execution.py:217-246 | a run from the start after which two submissions of one stage are under way |
| `AssistantExecution.ExceptionResumesAtTheOldStage` | extracted-app/src/recovery_service/services/assistant_execution.py:236-243 | after an exception a batch can be resumed exactly if an earlier failure left its stage, and then resumes there, never ahead of where it was |
| `AssistantExecution.ExceptionRedoesAnEarlierStage` | extracted-app/src/recovery_service/services/assistant_execution.py:236-243 | a timely run in which an exception while standardising sends the batch back to synchronise |
| `AssistantProgress.GoodStageIsPassed` | extracted-app/src/recovery_service/services/assistant_execution.py:102-183 | a stage found succeeded and recorded is logged; the next is ready, after the fourth the batch is completed |
| `AssistantProgress.BadStageIsRetried` | extracted-app/src/recovery_service/services/assistant_execution.py:217-246 | a stage found failed fails the batch with this stage to resume, and the retry makes it ready again |
| `AssistantProgress.RaisedStageKeepsTheMark` | extracted-app/src/recovery_service/services/assistant_execution.py:217-246 | an exception keeps an earlier resume stage; without one no retry is accepted |
| `AssistantProgress.OpenIsLeftAlone` | extracted-app/src/recovery_service/services/assistant_execution.py:60-191 | what is open, submitting or ended is left alone |
| `AssistantProgress.ReadyStageIsSubmitted` | extracted-app/src/recovery_service/services/assistant_execution.py:72-171 | a ready stage whose source is good is claimed and handed over |
| `AssistantProgress.UnsentStaysSubmitting` | extracted-app/src/recovery_service/services/assistant_execution.py:84-89 | a submission that raises, or a restore whose dispatch fails, stays submitting |
| `AssistantProgress.ActivationReadsTheJob` | extracted-app/src/recovery_service/services/data_automation.py:2046-2078 | a request to activate access completes or fails the batch by its job, whatever its stage |
| `AssistantProgress.GoodTurnsComplete` | extracted-app/src/recovery_service/services/assistant_execution.py:60-191 | from wherever the batch is on its way, each turn with good readings takes it one step on and the stages succeed in order |
| `AssistantProgress.NewBatchCompletes` | extracted-app/src/recovery_service/services/assistant_execution.py:60-191 | eight such turns complete a new batch with the four stages in the log |
| `AssistantProgress.CountersCount` | extracted-app/src/recovery_service/services/assistant_execution.py:46-246 | in every run the counters count the claims, retries and recorded submissions, and each claim is recorded, lost or in flight |
| `AssistantProgress.DispatchesAreCounted` | extracted-app/src/recovery_service/services/assistant_execution.py:78-89 | each recorded restore is dispatched once, or is still being dispatched |
| `AssistantProgress.ClaimedOncePerRetry` | extracted-app/src/recovery_service/services/assistant_execution.py:46-246 | over the events of any run: a stage is claimed once, plus once for each retry of it or of a stage before it |
| `LineageTrace.TraceLineage` | extracted-app/src/recovery_service/services/data_automation.py:909-937 | exactly the assets within the depth, clamped to 1..20, and each edge whose near end is closer than that exactly once, on any graph |
| `LineageTrace.Expand` | extracted-app/src/recovery_service/services/data_automation.py:914-927 | one level lists every edge that leaves the frontier and finds the assets not seen before |
| `LineageTrace.LevelAddsOne` | extracted-app/src/recovery_service/services/data_automation.py:913-927 | a level turns the trace to depth d into the trace to depth d+1 |
| `LineageTrace.TraceIsComplete` | extracted-app/src/recovery_service/services/data_automation.py:913-915 | stopping at an empty frontier loses nothing |
| `LineageTrace.BallIsWithin` | extracted-app/src/recovery_service/services/data_automation.py:913-927 | being found within d levels is being led to by at most d edges |
| `LineagePaths.UpstreamShowsSources` | extracted-app/src/recovery_service/services/data_automation.py:909-932 | upstream, an asset is within a distance of the root exactly if data flows from it to the root over at most that many stored edges, of the batch if one is named |
| `LineagePaths.DownstreamShowsTargets` | extracted-app/src/recovery_service/services/data_automation.py:909-932 | downstream, exactly if data flows from the root to it |
| `LineagePaths.DirectionsAgree` | extracted-app/src/recovery_service/services/data_automation.py:917-925 | one asset is upstream of another exactly if that one is downstream of it, at the same distance |
| `LineagePaths.DepthIsClamped` | extracted-app/src/recovery_service/services/data_automation.py:913 | the depth is the one asked for, at least 1 and at most 20 |

## Left out

- SSH, Docker, HTTP, the text of SQL statements, Celery and SQLAlchemy: each call is a step that succeeds or fails; a failed GRANT or REVOKE has no effect.
- Database isolation: each committed transaction is one step at one instant, so the unlocked check in `prepare_workflow_run` and the snapshots a long transaction may read are not modelled; nor are crashes inside a transaction.
- Reading SHOW GRANTS by substring: the check for an existing privilege is exact membership.
- Hashes and lower-casing of lease keys: a lease key is one normalised value; rows without a lease identifier, which only older data has, are not modelled.
- The cached `active_reference_count` of a lease, which no decision reads.
- PrivilegeOffline.OfflineIsSafeIff: visits the rows of a table by increasing identifier, as the service does, and tables in insertion order, whereas the service sorts them by a creation time that the tables of one import may share; the condition names no order.
- PrivilegeLedger.Ledger.SweepExpired: the order by expiry in which the query picks due batches is a parameter.
- PlatformGraph.TopologicalOrder: does not fix the order among ready siblings, which the service sorts by key; every order it may choose is covered.
- ApiExecution.ExecuteRun: the guard that skips an already visited key is not kept, because the queue is proved never to hold a key twice; what nodes compute is a function of the key.
- WorkflowRun.ExecuteRun: an exception of the executor outside a node, which marks the run failed, is not modelled.
- ApiGraph.ValidateGraph: whether a mapping template is valid is a flag of the node.
- Schedule.NextScheduleTime: text parsing of `run_time` and the overflow after year 9999 are not modelled.
- The comparison of monitored values and the condition logic of a change trigger: whether the conditions match is a parameter, so the properties hold for any outcome; a change of the trigger's configuration by publishing it again is not modelled.
- DispatchOutbox.Outbox.DispatchPending: runs one uninterrupted pass; interleaved dispatchers are covered by the events of `DispatchSafety`. The consumer of recovery tasks, which claims nothing, is not counted.
- ProtectedFlow: two workers that advance the same batch at the same time overwrite each other; each advance is taken as one transaction. Blueprint matching is an event that may set its three states at any time.
- Blueprint scoring, classification, OpenLineage and OpenMetadata projection, ledgers and response builders: serialisation or heuristics.
- Approvals, authentication, audit, settings, sessions, the user interface and the restore pipelines: input and output, configuration or thin record keeping.
