# Verification of the pursuit workflow and the agent run

A Dafny model of two state machines of this repository and of two smaller cores, with
proofs over every reachable state.

**The pursuit on the workflow runtime.** A pursuit works through legs; each leg has
attempts, each attempt one plan and a graph of work items. `DependencyGraph` is the cycle
check, `PursuitState` and `PursuitProgress` say how plans are validated, nodes dispatched,
settlements applied, blocks spread and legs closed. `WorkflowRun` is the runtime around it:
entries, submissions, reports, interrupts and the deadlock check. The files
`PursuitInvariant` to `WorkflowInvariant` carry the invariant, `PursuitTheorems` the results:
`Exec(args, bound, ops)` is the run after any sequence of submissions, reports and
interrupts. `WorkflowRecords`, `PursuitAccounts` and `PursuitChanges` tie every run to what was
submitted and reported: which plan an attempt holds, which verdict stands on an item, who runs
and why, what each operation changes; `PursuitEffects` says the same of one step, and
`PursuitWitnesses` plays a concrete run.
`PursuitDraft` and `WorkflowInstance` are the same operations as code that updates a cloned
state and a run object in place, each proved equal to its specification.

**The agent run.** `AgentRun` is the protocol of loop, handle, mailbox, task registry, tool
batch and submission gate. Every stretch of code between two awaits is one atomic step;
`ExecRun(config, moves)` is the run after any interleaving of model turns, steers, publishes,
task endings, interrupts, hook decisions and verdicts. Its parts are `Notifications`,
`NotificationText`, `RunHistory`, `ToolBatch`, `TaskRegistry`, `RunEvents` and `Wakeups`, the
waits of a parked loop: each park is one race of three wakers, kept at handle, mailbox and
registry and hooked to the abort signal. Its invariant is kept group by group in
`AgentRunInvariant`, `AgentRunDelivery`, `AgentRunParking`, `AgentRunCommit` and
`AgentRunOutcome`; `AgentRunTheorems` holds the results, `AgentRunWitnesses` concrete runs.
`AgentRunAccounts`, `BatchResults`, `AgentRunAnswers`, `AgentRunEndings`, `AgentRunLog` and
`AgentRunTasks` compare what a run holds, answers, decides, logs and settles with the moves that
came in.
`RunHandles`, `TaskSupervisor`, `ToolExecutor` and `AgentLoop` are the objects whose fields the
source updates: each public method of `AgentLoop.Loop` is one stretch between awaits, equals
one `RunStep` and keeps the whole invariant of the run. The loop holds the executor of the batch
at work and calls it, so the two are proved together; `AgentLoopFacts` are its facts on values.

**Retry and decoding.** `ResponsesDecoder` folds one responses stream, `WireReading` says what is
on the wire and proves that the decoder forwards exactly that; `RetryGate` wraps attempts that
use it.

**Canonical JSON.** `JsonText` prints JSON values unit by UTF-16 unit and reads them back by the
grammar of RFC 8259, `CanonicalJson` sorts keys, proves that the text decides equality and reads
back as the same value, and applies it to the advisor pass registry.

## How to read the model

- A minted id is the number of the call that minted it, written in decimal; only
  distinctness and the absence of colons are used.
- `bound` says that both role bindings of a workflow definition are configured; the source
  treats them together.
- An endless run is a function from step numbers to operations; `QuietFrom(u)` says that no
  settlement reaches the pursuit after step `u`.
- The ledger of an agent run (accepted steers, publishes, accepted submissions, requests,
  usages, steers of the gap, steers thrown away) and the stamps on notes exist to state
  properties; no decision reads them.
- A waker names the closure that one wait leaves behind, by its race and its source; the
  races of a run are numbered. Dispatching an abort runs the wakers hooked to it, in any order.
  The closures reach across handle, mailbox and registry, so `AgentLoop.Loop` runs them.
- What a model, a host, a hook, a clock or a random source decides is a parameter of a step.
  The completion timeout is a completion that returns, the idle guard a stream that breaks,
  the backoff sleep is skipped except for its abort check.
- A JSON number is held as the numeral the run time prints for it; that finite numbers print
  to different numerals, up to the sign of zero, is a fact of ECMAScript and not proved here.

## Where the code and its own words differ

- `disposeAll` says it leaves the registry empty. It does so under every schedule exactly if
  no task was settling when it was called (`TaskRegistry.DisposalEmptiesExactly`).
- The terminal binding says that nothing can stop the finish once `onSubmit` accepts. An
  interrupt before the result comes back does (`AgentRunWitnesses.AcceptedYetCancelled`), and
  `AgentRunTheorems.AcceptedSubmissionDecides` gives the exact condition.
- The loop says that at every exit a late steer is never accepted and then dropped. Every
  finish but the budget exit drops what is queued before its last step, and that is all that
  is dropped (`AgentRunTheorems.FinishLosesExactly`). A text completion has nothing queued
  then; a completion by submission drops the steers accepted between gate check and latch
  (`AgentRunTheorems.OnlyGapSteersAreLost`, `AgentRunWitnesses.GapSteerIsLost`); a failed or
  cancelled run drops its queue (`AgentRunWitnesses.FailedRunDropsSteer`,
  `AgentRunWitnesses.CancelledRunDropsSteer`).
- An interrupt is called the one stop semantic. A turn that still arrives completes a text run
  (`AgentRunWitnesses.InterruptedTextCompletes`); `AgentRunTheorems.InterruptedFinish` says
  which finishes an interrupted run can have.
- A failed planner's reason can be of the kind `context_composition_failed`; with the text the
  settlement produces it never is (`PursuitTheorems.PlannerFailureKindIsFixed`).
- A message that repeats a tool-use id can hide the accepted submission's result from the loop
  (`RunHistory.DuplicateIdsShadowResults`). Such a run can no longer complete nor take a steer
  (`AgentRunTheorems.HiddenSubmissionNeverCompletes`, `AgentRunWitnesses.HiddenSubmission`); the
  deciding theorem assumes distinct ids, and `AgentRunTheorems.BatchCompletesExactly` says when a
  batch completes the run whatever the ids.

## Model

| member | source | states |
|---|---|---|
| `PursuitTheorems.NeverDeadlocks` | packages/agent-core/src/agentic-workflows/workflow-runtime.ts:266-400 | in every reachable run of a pursuit with both roles bound no deadlock is ever reported, and until the run is finished some node is running |
| `PursuitTheorems.DeadlocksExactlyWhenUnbound` | packages/coding-agent/.ephai/agentic-workflows/pursuit/workflow.mjs:88-115 | a run ends in deadlock if and only if a role has no node bound to it |
| `PursuitApply.OpenPursuitDispatches` | packages/coding-agent/.ephai/agentic-workflows/pursuit/workflow.mjs:88-115 | a reconciled, unfinished pursuit with nothing running always has a node to launch: needs acyclic plans, complete block spreading and resolved dependencies together |
| `PursuitTheorems.WorkersRunAfterDependencies` | packages/coding-agent/.ephai/agentic-workflows/pursuit/workflow.mjs:107-112 | every worker ever launched was launched for an item whose dependencies have all succeeded, and they still have in every later state |
| `PursuitAccounts.RunningExactlyReady` | packages/coding-agent/.ephai/agentic-workflows/pursuit/workflow.mjs:93-113 | in every reachable unfinished run, whatever leg and attempt an item is in: a worker entry runs for it if and only if it is waiting and each id it depends on has an item of its goal version that succeeded, so a ready item is never left waiting |
| `PursuitAccounts.PlannerRunsExactlyForPending` | packages/coding-agent/.ephai/agentic-workflows/pursuit/workflow.mjs:93-106 | in every reachable unfinished run a planner entry runs for an attempt's plan if and only if that plan is pending |
| `PursuitAccounts.RunningEntriesName` | packages/coding-agent/.ephai/agentic-workflows/pursuit/workflow.mjs:256-294 | every running entry carries the leg, attempt, plan or item names of something in the state |
| `PursuitAccounts.AcceptedPlanIsHeld` | packages/coding-agent/.ephai/agentic-workflows/pursuit/workflow.mjs:403-444 | an accepted plan is what the attempt named by the entry holds, right after the submission and in every continuation: item by item the submitted ids and dependencies, in order; right after it the leg's goals follow the plan and each item is waiting, or blocked if and only if a dependency path leads to a failed item |
| `PursuitWitnesses.BlockedOnArrival` | packages/coding-agent/.ephai/agentic-workflows/pursuit/workflow.mjs:492-515 | with a second attempt to spend, any pursuit has a run in which an accepted plan's item is blocked in the very state that first holds it: it depends on an item of the first attempt that failed |
| `PursuitAccounts.PlansComeFromSubmissions` | packages/coding-agent/.ephai/agentic-workflows/pursuit/workflow.mjs:403-444 | conversely every plan and every item of a reachable state was submitted with an accepted plan, as it stands there |
| `PursuitAccounts.WorkersStartAfterPasses` | packages/coding-agent/.ephai/agentic-workflows/pursuit/workflow.mjs:107-112 | dependency order said of submitted payloads: every launched worker's item is one of an accepted plan's, and for each id that plan made it depend on a worker of the same leg and goal version had been launched before and had submitted a pass |
| `PursuitAccounts.VerdictsDecideItems` | packages/coding-agent/.ephai/agentic-workflows/pursuit/workflow.mjs:445-471 | an item succeeded if and only if the applied worker entry with its key completed with a pass, and failed if and only if that entry completed without one or ended otherwise; a completed entry's summary and outcome stand on it; an item no such entry stands behind has not settled |
| `PursuitAccounts.EveryVerdictIsHeld` | packages/coding-agent/.ephai/agentic-workflows/pursuit/workflow.mjs:445-471 | every applied worker entry left exactly its own verdict on the item it was launched for, for ever |
| `PursuitAccounts.SuccessRestsOnPasses` | packages/coding-agent/.ephai/agentic-workflows/pursuit/workflow.mjs:544-583 | in a successful run every leg's last plan was an accepted submission and each of its items was passed by a worker's submission; the outcome's summary is that of the last plan |
| `PursuitTheorems.SettledItemsStay` | packages/coding-agent/.ephai/agentic-workflows/pursuit/workflow.mjs:445-471 | an item that has settled or is blocked is the same item, unchanged, in every later state of the run |
| `PursuitTheorems.BlockedExactlyBelowFailures` | packages/coding-agent/.ephai/agentic-workflows/pursuit/workflow.mjs:492-515 | in every reachable state an item is Blocked if and only if a path of dependencies leads from it to a Failed item |
| `PursuitTheorems.OpenIsReconciled` | packages/coding-agent/.ephai/agentic-workflows/pursuit/workflow.mjs:472-491 | an open pursuit is a fixpoint of reconciling, whatever is running |
| `PursuitTheorems.ReconcileIsIdempotent` | packages/coding-agent/.ephai/agentic-workflows/pursuit/workflow.mjs:472-491 | reconciling a second time, even with another running set, changes nothing |
| `PursuitReconcile.ReconcileSettles` | packages/coding-agent/.ephai/agentic-workflows/pursuit/workflow.mjs:472-583 | reconciling any state between two steps yields a pursuit that is open and settled, won, or lost, and only extends the legs it had |
| `PursuitInvariant.SpreadBlocksComplete` | packages/coding-agent/.ephai/agentic-workflows/pursuit/workflow.mjs:492-515 | after spreading blocks no waiting, idle item has a failed or blocked dependency left |
| `PursuitTheorems.LegEnds` | packages/coding-agent/.ephai/agentic-workflows/pursuit/workflow.mjs:388-583 | under any endless sequence of operations, after finitely many of them either no further settlement reaches the pursuit or another leg has opened: no leg takes settlements for ever |
| `PursuitTheorems.SettlementsEnd` | packages/coding-agent/.ephai/agentic-workflows/pursuit/workflow.mjs:516-583 | with predefined goals every run, however it is driven, takes finitely many settlements |
| `PursuitTheorems.SettlementLowersMeasure` | packages/coding-agent/.ephai/agentic-workflows/pursuit/workflow.mjs:388-583 | after any operations, a step in which a settlement reaches the pursuit lowers (legs left, attempts left, plan pending, items waiting) in lexicographic order when the goals are predefined; in either mode the last three drop, unless another leg opens or the pursuit closes |
| `PursuitTheorems.SuccessMeansAllLegsWon` | packages/coding-agent/.ephai/agentic-workflows/pursuit/workflow.mjs:544-583 | a successful run won every leg; with predefined goals the legs are exactly those goals in order; in dynamic mode the last leg queued no next goal |
| `PursuitTheorems.FailureMeansBudgetSpent` | packages/coding-agent/.ephai/agentic-workflows/pursuit/workflow.mjs:533-543 | a failed pursuit won all its earlier legs, and its last leg has exactly the allowed number of attempts, all failed |
| `PursuitChanges.SubmissionAcceptedExactly` | packages/agent-core/src/agentic-workflows/workflow-runtime.ts:169-215 | a submission is accepted if and only if it is acceptable, said of entry, role, payload and state; then its entry completes with it and it reaches the pursuit, otherwise neither entries nor pursuit change |
| `PursuitChanges.ReportAcceptedExactly` | packages/agent-core/src/agentic-workflows/workflow-runtime.ts:217-235 | the report of a running node's end always reaches the pursuit with the status of that end; any other report changes nothing |
| `PursuitChanges.InterruptStopsRun` | packages/agent-core/src/agentic-workflows/workflow-runtime.ts:414-448 | an interrupt ends an unfinished run with its reason: running entries become cancelled, everything else stays |
| `PursuitChanges.AttemptStatusExactly` | packages/coding-agent/.ephai/agentic-workflows/pursuit/workflow.mjs:516-552 | an attempt won if and only if its plan was accepted and all its items succeeded, failed if and only if its planner gave up or all items ended and not all well, and is at work otherwise; a failed one lists a reason for its planner or for each of its failed and blocked items, in order |
| `PursuitChanges.LegStatusExactly` | packages/coding-agent/.ephai/agentic-workflows/pursuit/workflow.mjs:516-583 | a leg won if and only if its last attempt did, is lost if and only if that failed with the attempt limit reached, and is at work otherwise; a failed attempt with attempts left is retried, and only the last leg can be at work or lost |
| `PursuitChanges.FirstGoal` | packages/coding-agent/.ephai/agentic-workflows/pursuit/workflow.mjs:190-220 | the first leg pursues the first predefined goal, or the pursuit's own goal in dynamic mode |
| `PursuitChanges.GoalsFollowPlans` | packages/coding-agent/.ephai/agentic-workflows/pursuit/workflow.mjs:404-416 | in any step the goals of the current leg change by an accepted plan alone and as it says, replaced with a new version or the next one queued; a leg that opens takes the queued goal in dynamic mode and the next predefined one otherwise |
| `PursuitChanges.FailuresAreListed` | packages/coding-agent/.ephai/agentic-workflows/pursuit/workflow.mjs:533-543 | in any step the list of failures grows by the text of a node that gave up and by the first reason of an attempt that failed with it, and by nothing else |
| `PursuitChanges.GivenUpNodeFails` | packages/coding-agent/.ephai/agentic-workflows/pursuit/workflow.mjs:392-461 | a node that ends without a submission fails its plan or its item with the text of its end |
| `PursuitChanges.TimelineTellsSteps` | packages/agent-core/src/agentic-workflows/workflow-runtime.ts:237-264 | each operation adds to the timeline and the state version exactly what it did: an outcome received, transitions, a snapshot, dispatches or the finish |
| `PursuitTheorems.AppliedAtMostOnce` | packages/agent-core/src/agentic-workflows/workflow-runtime.ts:169-254 | an entry leaves the running state at most once and its settlement reaches the pursuit at most once, with a fixed accepted payload when it completed |
| `PursuitTheorems.LegsChangeOnlyByApplication` | packages/agent-core/src/agentic-workflows/workflow-runtime.ts:237-264 | the legs change only in a step that applies one entry's settlement, one never applied before |
| `PursuitTheorems.FinishedRunIsFinal` | packages/agent-core/src/agentic-workflows/workflow-runtime.ts:402-448 | after a finish, also by interrupt, no entry runs, nothing ever changes again, and the timeline carries one finish at most |
| `PursuitTheorems.SecondSubmissionIsHarmless` | packages/agent-engine/src/nodes/node-runner.ts:97-114 | a node that submits its outcome again after an accepted submission changes nothing and still settles as done, whatever happened in between |
| `PursuitTheorems.LateReportIsIgnored` | packages/agent-core/src/agentic-workflows/workflow-runtime.ts:330-348 | whatever a node reports after its accepted submission, even a cancelled agent run, the payload stays applied and the run unchanged |
| `PursuitTheorems.DoneNodeAppliedExactly` | packages/agent-engine/src/nodes/node-runner.ts:97-114 | when a node settles as done its entry has ended for good, and its payload reached the pursuit, now or ever, if and only if the entry is completed; otherwise the entry had ended before without one and the submission changed nothing |
| `PursuitTheorems.CutOffNodeSettlesAsDone` | packages/agent-engine/src/nodes/node-runner.ts:102-114 | every node whose entry an interrupt cancelled settles as done when its agent run completes, although its payload never reaches the pursuit |
| `PursuitTheorems.InFlightIsUnique` | packages/agent-core/src/agentic-workflows/workflow-runtime.ts:266-290 | no plan id and no work item key is held by two running entries |
| `PursuitTheorems.KeysIdentifyItems` | packages/coding-agent/.ephai/agentic-workflows/pursuit/workflow.mjs:782-784 | a work item key names one item across all legs, attempts and goal versions of a run |
| `PursuitTheorems.VersionsStayConsistent` | packages/coding-agent/.ephai/agentic-workflows/pursuit/workflow.mjs:403-438 | an attempt is marked consistent exactly when its version is the leg's; every dependency resolves no later than its own attempt, and the lookup finds the one item of that id and version |
| `PursuitTheorems.PlannerFailureKindIsFixed` | packages/coding-agent/.ephai/agentic-workflows/pursuit/workflow.mjs:767-775 | the context-composition kind is never chosen for a failed planner, because the failure text always starts with the role |
| `PursuitState.WorkItemKeyInjective` | packages/coding-agent/.ephai/agentic-workflows/pursuit/workflow.mjs:782-784 | keys are injective over (leg, version, item) for leg ids without a colon |
| `PursuitState.WorkItemKeyCollidesWithColons` | packages/coding-agent/.ephai/agentic-workflows/pursuit/workflow.mjs:782-784 | with a colon in a leg id two different items can share a key |
| `PursuitState.PlanAcceptedExactlyWhenFit` | packages/coding-agent/.ephai/agentic-workflows/pursuit/workflow.mjs:584-631 | a plan is accepted if and only if its ids are new and distinct, each dependency is in the plan or in earlier work of the current goal, goals are unlocked, and its dependency graph has no cycle |
| `DependencyGraph.SearchIsExact` | packages/coding-agent/.ephai/agentic-workflows/pursuit/workflow.mjs:632-657 | the depth-first check reports a cycle if and only if the graph has one, and otherwise finishes ids in a topological order |
| `DependencyGraph.CurrentGraphCycle` | packages/coding-agent/.ephai/agentic-workflows/pursuit/workflow.mjs:632-657 | the check as it runs, over mutable done and visiting sets, answers exactly whether the plan has a cycle |
| `DependencyGraph.CycleFinder.Explore` | packages/coding-agent/.ephai/agentic-workflows/pursuit/workflow.mjs:642-652 | one recursive visit updates done and visiting as the specification's visit does |
| `PursuitDraft.CheckPlan` | packages/coding-agent/.ephai/agentic-workflows/pursuit/workflow.mjs:584-631 | the checks in their order return the specified first error, and none exactly for a fit plan |
| `PursuitDraft.Draft.PropagateDependencyBlocks` | packages/coding-agent/.ephai/agentic-workflows/pursuit/workflow.mjs:492-515 | the repeated in-place sweep reaches the specified fixpoint and reports whether it changed anything |
| `PursuitDraft.Draft.ReconcileLeg` | packages/coding-agent/.ephai/agentic-workflows/pursuit/workflow.mjs:516-552 | closing an attempt in place, then retrying, opening the next leg or closing the pursuit, as specified |
| `PursuitDraft.ReconcilePursuitProgress` | packages/coding-agent/.ephai/agentic-workflows/pursuit/workflow.mjs:472-491 | the loop over a growing list of legs computes the specified reconciled state and leaves the input as it was when nothing changed |
| `PursuitDraft.ApplyPlannerSettlement` | packages/coding-agent/.ephai/agentic-workflows/pursuit/workflow.mjs:388-444 | field by field, the clone ends as the specified successor: a refocus bumps the version and unmarks the other attempts |
| `PursuitDraft.ApplyWorkerSettlement` | packages/coding-agent/.ephai/agentic-workflows/pursuit/workflow.mjs:445-471 | field by field, the clone ends as the specified successor, failure text included |
| `PursuitDraft.Dispatch` | packages/coding-agent/.ephai/agentic-workflows/pursuit/workflow.mjs:88-115 | the nested loops return the specified dispatches in order |
| `WorkflowInstance.WorkflowRunInstance.Start` | packages/agent-core/src/agentic-workflows/workflow-runtime.ts:132-146 | starting records the snapshot and dispatches; the run's invariant holds from then on |
| `WorkflowInstance.WorkflowRunInstance.SubmitNodeCompletion` | packages/agent-core/src/agentic-workflows/workflow-runtime.ts:169-215 | exact refusal and exact new state of a submission, keeping the run's invariant |
| `WorkflowInstance.WorkflowRunInstance.SettleNodeRun` | packages/agent-core/src/agentic-workflows/workflow-runtime.ts:217-235 | exact new state for a node that ended otherwise, keeping the run's invariant |
| `WorkflowInstance.WorkflowRunInstance.ApplyValidatedSettlement` | packages/agent-core/src/agentic-workflows/workflow-runtime.ts:237-254 | apply, evaluate, snapshot, then finish or dispatch, as specified |
| `WorkflowInstance.WorkflowRunInstance.Dispatch` | packages/agent-core/src/agentic-workflows/workflow-runtime.ts:266-295 | one claimed entry per dispatch, or the deadlock check when there is none |
| `WorkflowInstance.WorkflowRunInstance.Interrupt` | packages/agent-core/src/agentic-workflows/workflow-runtime.ts:414-448 | every running entry becomes cancelled and the run is finished, keeping the invariant |
| `AgentRunTheorems.SingleCommit` | packages/agent-core/src/agents/tool/terminal.ts:58-129 | over any interleaving at most one submission is accepted, and a run with a terminal tool completes only with exactly that value |
| `AgentRunTheorems.NoTerminalWithoutSubmission` | packages/agent-core/src/agents/engine/agent-loop.ts:211-227 | after a batch the loop never takes the branch for a terminal result without an accepted submission |
| `AgentRunTheorems.AcceptedSubmissionDecides` | packages/agent-core/src/agents/tool/executor.ts:53-57 | when the accepted submission's result comes back the outcome is decided for good: completed with the accepted value if and only if the run had not been interrupted by then, cancelled otherwise (tool-use ids distinct within a message) |
| `AgentRunTheorems.BatchCompletesExactly` | packages/agent-core/src/agents/engine/agent-loop.ts:202-227 | whatever ids the calls carry, after a batch the run completes, with the accepted value, if and only if a terminal result is there that no later call with its id hides |
| `AgentRunTheorems.HiddenSubmissionNeverCompletes` | packages/agent-core/src/agents/agent-runtime.ts:132-152 | once a batch has returned with an accepted submission but no unhidden terminal result, nothing more is accepted, no steer is taken and the run never completes, whatever comes after |
| `AgentRunWitnesses.HiddenSubmission` | packages/agent-core/src/agents/engine/agent-loop.ts:277-284 | a concrete uninterrupted run: two submissions with one id, the first accepted, the second denied by the closed gate; it never completes |
| `AgentRunWitnesses.AcceptedYetCancelled` | packages/agent-core/src/agents/tool/terminal.ts:90-128 | a concrete run that is interrupted while its submission is with the host, which then accepts: it ends cancelled |
| `AgentRunTheorems.TextExitGate` | packages/agent-core/src/agents/engine/agent-loop.ts:179-195 | a text run that completed has no task open and nothing queued; every accepted steer is in its history in order, and a publish is there if and only if no later one replaced it while pending; its outcome is the text of its last turn, which made no calls |
| `AgentRunTheorems.NothingIsLost` | packages/agent-core/src/agents/engine/agent-loop.ts:123-131 | at every moment of a live run the accepted steers are the history's steers followed by the queue; in every run a publish is in the history if and only if its window has been drained and none replaced it, and pending if and only if its window is the current one and none replaced it; none is held twice |
| `AgentRunTheorems.SteersPrecedeNotes` | packages/agent-core/src/agents/engine/agent-loop.ts:122-131 | in the history of any run, between two neighbouring assistant or tool-result messages every steer stands before every note; its notes are the queues found by the drains so far, in drain and queue order, and its steers a prefix of the accepted ones |
| `AgentRunTheorems.OnlyGapSteersAreLost` | packages/agent-core/src/agents/tool/terminal.ts:72-90 | a completed run with a terminal tool lost exactly the steers accepted between the gate check and the latch; none if and only if none arrived there |
| `AgentRunWitnesses.GapSteerIsLost` | packages/agent-core/src/agents/tool/terminal.ts:72-90 | a concrete run that completes although an accepted steer never reached its history |
| `AgentRunTheorems.FinishLosesExactly` | packages/agent-core/src/agents/engine/run-handle.ts:290-298 | whatever the outcome of a finished run: the steers its finish threw away are those queued before the finishing step, none if it spent its turns; every accepted steer is in the history if and only if it spent its turns or that queue was empty; an undelivered publish is one pending then or one replaced while pending |
| `AgentRunTheorems.SomeStepFinishes` | packages/agent-core/src/agents/engine/agent-loop.ts:98-247 | every finished run was finished by one of its steps, unless it had no turn to spend |
| `AgentRunEndings.NextDecides` | packages/agent-core/src/agents/engine/agent-loop.ts:113-234 | in any reachable run the next move decides by the history alone: a text turn completes a text run if and only if nothing is queued and no task open; at the top of the loop an interrupted run is cancelled, a run that rests on a text turn waits for its tasks or completes with that text, and any other takes a turn or, with none left, fails; what the loop does not wait for decides nothing |
| `AgentRunEndings.OutcomeTells` | packages/agent-core/src/agents/engine/agent-loop.ts:105-112 | the outcome of a finished run says why its finishing step ended it, with the error of the turn that failed, the text or the submission that completed it, and carries the run's turns and usage |
| `AgentRunEndings.RequestsTellHistory` | packages/agent-core/src/agents/engine/agent-loop.ts:156-165 | every request sent to the provider is the whole history of its moment: for a turn that came, everything before that turn |
| `AgentRunEndings.InitialFirst` | packages/agent-core/src/agents/engine/conversation.ts:33-39 | every history starts with the messages the run was started with, and holds none of that kind later |
| `AgentRunAccounts.LedgerTellsMoves` | packages/agent-core/src/agents/engine/agent-loop.ts:123-167 | the assistant messages of the history are the turns that arrived while a request was out, in order; the accepted steers, publishes, usages and submitted values are those that came in |
| `AgentRunAccounts.UsageIsTheSum` | packages/agent-core/src/agents/engine/agent-loop.ts:166-167 | each of the four fields of the reported usage is the sum of that field over the turns that arrived |
| `AgentRunAccounts.AbortedExactly` | packages/agent-core/src/agents/engine/run-handle.ts:227-230 | a run is aborted if and only if an interrupt came before its finish |
| `AgentRunAccounts.NotesKeepPlaces` | packages/agent-core/src/agents/notification/inbox.ts:22-39 | the delivered and pending notes stand by drain, and for one drain in the order in which their keys were first published: a replacing note has the place of the one it replaced |
| `AgentRunAnswers.AnswersCameIn` | packages/agent-core/src/agents/engine/agent-loop.ts:202-210 | in the history of any run each tool result answers a call of the message before it; with distinct ids its content and error flag are what that call's tool returned while the call was in a lane, or what refusal, denial or host said of a submission, or the run was interrupted; with repeated ids it is that of the last call with the id |
| `AgentRunLog.LogTells` | packages/agent-core/src/agents/engine/run-handle.ts:236-298 | in any step the log grows by exactly what the step announces: the delta that streams, each call put to work, each result recorded, each task adopted and settled, the turn a request is sent for, the outcome of the finish |
| `AgentRunTasks.OutcomesTell` | packages/agent-core/src/agents/background/background-task-supervisor.ts:100-237 | every settled task in the log, and every task whose handling is under way, has the outcome that one step decided while the task ran: its own, its cancellation's with the given or the default reason, or the cancellation by the finish |
| `AgentRunTasks.DecidedOnce` | packages/agent-core/src/agents/background/background-task-supervisor.ts:184-237 | over any run only one step ever decides a task, and for one outcome |
| `AgentRunTheorems.RunNeverSticks` | packages/agent-core/src/agents/engine/agent-loop.ts:114-270 | in every reachable unfinished run some move of the loop is enabled; only a parked, unwoken loop needs the outside, and then a task is open and at most two of its moves wake the loop |
| `AgentRunTheorems.FinishedRunStays` | packages/agent-core/src/agents/engine/run-handle.ts:217-298 | after its finish a run only settles tasks and logs that: outcome, history, queues and latch stay as they are |
| `AgentRunWitnesses.FailedRunDropsSteer` | packages/agent-core/src/agents/engine/run-handle.ts:290-298 | any run with a turn to spend whose first turn fails after a steer was accepted never delivers that steer |
| `AgentRunWitnesses.CancelledRunDropsSteer` | packages/agent-core/src/agents/engine/run-handle.ts:290-298 | nor does one that an interrupt cancels |
| `AgentRunTheorems.InterruptedFinish` | packages/agent-core/src/agents/engine/agent-loop.ts:114-234 | the step that finishes an interrupted run completes it with the text of a turn that still arrived or with the accepted submission of a terminal result on record, and otherwise cancels it |
| `AgentRunTheorems.InterruptedNeverFails` | packages/agent-core/src/agents/engine/agent-loop.ts:114-242 | whatever comes after an interrupt, the run stays aborted and never ends failed |
| `AgentRunWitnesses.InterruptedTextCompletes` | packages/agent-core/src/agents/engine/agent-loop.ts:159-195 | a text turn that arrives after the interrupt, with nothing queued, completes any text run |
| `AgentRunTheorems.NoLostWakeUp` | packages/agent-core/src/agents/engine/agent-loop.ts:119-149 | the race of a parked loop is won if and only if steers or notes are queued, the run is aborted or a task went since the capture; until then its wakers are hooked at handle, mailbox, registry and signal, and some task is open |
| `AgentRunTheorems.EverySourceWakes` | packages/agent-core/src/agents/engine/agent-loop.ts:249-270 | whatever happens next to a parked, unwoken loop: exactly the promises of the sources it concerns resolve (one for a steer, publish or settled task, all three for an interrupt, none for anything else), the other waits stay hooked, and the race is won if and only if one resolved |
| `AgentRunTheorems.NoWakerLeaks` | packages/agent-core/src/agents/engine/agent-loop.ts:249-270 | whenever a run is not parked, no waker is left at any source or signal and the promises of all its parks have resolved, losers included |
| `AgentRunTheorems.ResumeCleansUp` | packages/agent-core/src/agents/engine/agent-loop.ts:259-269 | resuming unhooks every waker of the won race, hands both queues to the history or cancels an aborted run, and a loop that parks again does so with a fresh race and a fresh capture that nothing has won |
| `AgentRunTheorems.ParkIsLevelTriggered` | packages/agent-core/src/agents/background/background-task-supervisor.ts:143-159 | from any state and for any captured count, the park resolves at once if and only if steers or notes are pending, the run is aborted or the counter has moved since the capture; otherwise all its waits are hooked |
| `AgentRunParking.StepWakes` | packages/agent-core/src/agents/engine/agent-loop.ts:249-270 | every step of a run keeps the account of wakers: hooked to the signal exactly while in a source's set, resolved exactly when out of both, out only for the race of a parked loop, which is won exactly if something came up |
| `AgentRunTheorems.RequestsAreAnswered` | packages/agent-core/src/agents/engine/agent-loop.ts:151-210 | in every provider request each assistant message with tool uses is followed at once by one message answering exactly those in order; neither requests nor committed turns ever exceed the turn budget; usage is the sum over committed turns |
| `AgentRunTheorems.EventsAreOrdered` | packages/agent-core/src/agents/engine/run-handle.ts:236-298 | sequence numbers are dense, the finish is reported exactly once and only settled tasks follow it; the registry is disposed exactly when the run has finished |
| `AgentRunTheorems.TaskLifecycleHolds` | packages/agent-core/src/agents/background/background-task-supervisor.ts:63-237 | in every reachable run open tags are unique, tasks settle and are handled at most once, adopted minus settled is the registry's size and settled is the change counter; after the finish nothing is adopted and all that is open is settling |
| `RunHistory.NormalizedAnswers` | packages/agent-core/src/agents/engine/agent-loop.ts:277-295 | whatever the executor returned, the recorded batch answers exactly the calls in order |
| `RunHistory.NormalizeIsIdentity` | packages/agent-core/src/agents/engine/agent-loop.ts:277-295 | with distinct ids a complete batch passes through unchanged |
| `RunHistory.DuplicateIdsShadowResults` | packages/agent-core/src/agents/engine/agent-loop.ts:281-284 | with a repeated id an earlier result, even the terminal one, is shadowed by a later one |
| `RunHistory.NormalizeResults` | packages/agent-core/src/agents/engine/agent-loop.ts:277-295 | the map-building loop computes the normalized batch |
| `RunHistory.Conversation.AppendAssistant` | packages/agent-core/src/agents/engine/conversation.ts:47-51 | an assistant turn is appended and leaves the history answered or open for exactly its calls |
| `RunHistory.Conversation.AppendToolResults` | packages/agent-core/src/agents/engine/conversation.ts:53-58 | answers appended to an open history close it |
| `RunHistory.Conversation.AppendUser` | packages/agent-core/src/agents/engine/conversation.ts:41-45 | a user message is appended and keeps an answered history answered |
| `Notifications.NotificationInbox.Publish` | packages/agent-core/src/agents/notification/inbox.ts:22-31 | a pending note with the same key is replaced where it stands, any other publish queues; the account of all publishes is kept |
| `Notifications.NotificationInbox.Drain` | packages/agent-core/src/agents/notification/inbox.ts:34-39 | everything pending is returned in queue order and nothing stays; the account is kept |
| `Notifications.PublishFate` | packages/agent-core/src/agents/notification/inbox.ts:22-39 | the drained notes are, window by window, and the pending ones of the current window, exactly the publishes that no later one of their window and key replaced, each once |
| `Notifications.PublishKeeps` | packages/agent-core/src/agents/notification/inbox.ts:22-31 | publishing keeps the account: delivered is what the drains took, window by window in queue order, pending the queue of the current window |
| `Notifications.QueueInOrder` | packages/agent-core/src/agents/notification/inbox.ts:22-31 | a window's queue stands in the order in which its keys were first published there, and holds each of them |
| `NotificationText.TagsCannotBeSpoofed` | packages/agent-core/src/agents/notification/inbox.ts:73-93 | the rendering of any note holds exactly two `<`, at the beginnings of its two tags |
| `NotificationText.RenderReadsBack` | packages/agent-core/src/agents/notification/inbox.ts:73-93 | read as JSON, what stands between the tags of a rendering is the object carrying the message, whatever the message is |
| `NotificationText.RenderInjective` | packages/agent-core/src/agents/notification/inbox.ts:82-93 | a rendering determines the note |
| `RunHandles.RunHandle.Emit` | packages/agent-core/src/agents/engine/run-handle.ts:236-241 | each event is stamped with the next number and reaches log and stream |
| `RunHandles.RunHandle.Finish` | packages/agent-core/src/agents/engine/run-handle.ts:290-298 | the first finish latches, clears the queue, reports itself and closes the stream; later calls change nothing |
| `RunHandles.EventStream.Next` | packages/agent-core/src/agents/engine/run-handle.ts:142-152 | a consumer receives the buffered events in order and ends only after a close has drained or a detach |
| `RunEvents.StreamEndsWithFinish` | packages/agent-core/src/agents/engine/run-handle.ts:290-298 | read to its end, the stream of a finished run is a prefix of its log whose last and only finish event comes last |
| `TaskRegistry.TasksSettleOnce` | packages/agent-core/src/agents/background/background-task-supervisor.ts:184-237 | over any schedule each task settles at most once, its handler runs at most once, exactly once when it settled and has one, never for a silent task |
| `TaskRegistry.MoveAdvances` | packages/agent-core/src/agents/background/background-task-supervisor.ts:200-237 | one move settles at most one task, and the change counter advances exactly then; a disposed registry adopts nothing |
| `TaskRegistry.DisposalLeavesOnlySettling` | packages/agent-core/src/agents/background/background-task-supervisor.ts:167-179 | whatever is open when the disposal returns was already settling when it was called |
| `TaskRegistry.DisposalEmptiesExactly` | packages/agent-core/src/agents/background/background-task-supervisor.ts:161-179 | the registry is empty whenever the disposal returns, under every schedule, if and only if no task was settling when it was called |
| `TaskSupervisor.RunBackgroundTaskSupervisor.Register` | packages/agent-core/src/agents/background/background-task-supervisor.ts:63-98 | a task is adopted exactly if the registry is not disposed and its tag is free; the new registry is as specified and its lifecycle kept |
| `TaskSupervisor.RunBackgroundTaskSupervisor.Settle` | packages/agent-core/src/agents/background/background-task-supervisor.ts:184-189 | a natural settle of a settling or unknown task changes nothing, otherwise completion begins |
| `TaskSupervisor.RunBackgroundTaskSupervisor.Cancel` | packages/agent-core/src/agents/background/background-task-supervisor.ts:104-108 | true exactly when a running task moved to its teardown |
| `TaskSupervisor.RunBackgroundTaskSupervisor.CompletionReturned` | packages/agent-core/src/agents/background/background-task-supervisor.ts:226-237 | the task is removed, counted and reported once |
| `TaskSupervisor.RunBackgroundTaskSupervisor.DisposeAll` | packages/agent-core/src/agents/background/background-task-supervisor.ts:167-172 | the registry is latched and exactly the running tasks start their teardown |
| `ToolBatch.CallsStartOnce` | packages/agent-core/src/agents/tool/executor.ts:72-94 | in any interleaving each call is dispatched at most once, ordinary calls before terminal ones and each kind in call order |
| `ToolBatch.AtMostEightInFlight` | packages/agent-core/src/agents/tool/executor.ts:72-88 | at most eight ordinary calls are in flight, and without an abort every dispatched, unsettled one is |
| `ToolBatch.TerminalCallsComeLast` | packages/agent-core/src/agents/tool/executor.ts:90-93 | a terminal call starts only when every ordinary call has settled and earlier terminal calls have returned |
| `ToolBatch.BatchAnswers` | packages/agent-core/src/agents/tool/executor.ts:95-97 | results match the calls one to one in order; without an abort a finished batch has a recorded result for each call |
| `BatchResults.ResultsWereGiven` | packages/agent-core/src/agents/tool/executor.ts:53-57 | in any interleaving every result in a batch was given for that call: by the return of the lane at work on it, with its content and error flag, or for a terminal call by a refusal, a denial or the host's verdict |
| `BatchResults.GivenIsKept` | packages/agent-core/src/agents/tool/executor.ts:53-57 | what a tool returns to a batch that goes on is that call's result for good, whatever follows |
| `BatchResults.GateGiftWaits` | packages/agent-core/src/agents/tool/terminal.ts:58-129 | what refusal, denial or host gives to a submission waits there for its return and is recorded next |
| `ToolBatch.BatchAlwaysReturns` | packages/agent-core/src/agents/tool/executor.ts:72-97 | until a batch has returned some move takes it further, and in any interleaving, aborted or not, at most six moves a call and sixteen more change it |
| `ToolExecutor.BatchExecution.constructor` | packages/agent-core/src/agents/tool/executor.ts:38-43 | the calls are sorted by kind in call order and the lanes stand ready |
| `ToolExecutor.BatchExecution.LanePick` | packages/agent-core/src/agents/tool/executor.ts:73-79 | a lane takes the next ordinary call from the shared cursor, or ends |
| `ToolExecutor.BatchExecution.LaneReturn` | packages/agent-core/src/agents/tool/executor.ts:53-70 | a returned result is recorded at its call, or dropped after an abort |
| `ToolExecutor.BatchExecution.TerminalReturn` | packages/agent-core/src/agents/tool/executor.ts:90-93 | a terminal result is recorded and the next one may start, or the batch ends by abort |
| `ToolExecutor.BatchExecution.Collect` | packages/agent-core/src/agents/tool/executor.ts:95-97 | the returned list has one result per call with its id |
| `AgentLoop.Loop.Finish` | packages/agent-core/src/agents/engine/agent-loop.ts:105-112 | one classified finish with usage and turns, and the registry disposed at once |
| `AgentLoop.Loop.WakeEach` | packages/agent-core/src/agents/engine/run-handle.ts:217-225 | the loop over a copied waker set runs each closure once: all of them leave their source and signal and resolve, nothing else does |
| `AgentLoop.Loop.HookReturned` | packages/agent-core/src/agents/engine/agent-loop.ts:114-164 | from the top of the loop to its next await: cancelled if aborted, else both queues in the history, steers first, and parked only with every wait hooked and a task open; a completed outcome holds what it claims; the run's whole invariant is kept |
| `AgentLoop.Loop.WakeUp` | packages/agent-core/src/agents/engine/agent-loop.ts:255-270 | resuming leaves no waker of the race behind and goes to the top of the loop, with the same guarantees |
| `AgentLoop.Loop.TurnArrived` | packages/agent-core/src/agents/engine/agent-loop.ts:165-200 | the run finishes if and only if it is a text run and the turn made no calls with nothing queued and no task open; then every accepted steer has been delivered; else the history is answered, or open for exactly the turn's calls |
| `AgentLoop.Loop.TurnFailed` | packages/agent-core/src/agents/engine/agent-loop.ts:233-234 | a turn that does not arrive ends the run: cancelled if and only if it was aborted, failed otherwise |
| `AgentLoop.Loop.CallsHookReturned` | packages/agent-core/src/agents/engine/agent-loop.ts:201-209 | the loop holds a fresh executor for exactly the calls the history is open for; invariant kept |
| `AgentLoop.Loop.PickNext` | packages/agent-core/src/agents/tool/executor.ts:72-79 | a free lane takes the next call or ends, and ends if and only if none is left or the run was interrupted; executor and loop stay linked and the whole invariant is kept |
| `AgentLoop.Loop.CallReturned` | packages/agent-core/src/agents/tool/executor.ts:53-70 | the executor keeps or drops a result and the lane ends exactly after an interrupt; its event reaches the handle; invariant kept |
| `AgentLoop.Loop.LanesEnded` | packages/agent-core/src/agents/tool/executor.ts:80-88 | once all lanes have ended, or at an interrupt, the terminal calls' turn comes; invariant kept |
| `AgentLoop.Loop.NextTerminal` | packages/agent-core/src/agents/tool/executor.ts:90-97 | the executor returns, with exactly one result per call in order, if and only if no terminal call is left or the run was interrupted; else the next one has started; invariant kept |
| `AgentLoop.Loop.TerminalReturned` | packages/agent-core/src/agents/tool/executor.ts:53-97 | a terminal result is recorded, and the executor returns with one result per call if and only if the run was interrupted; invariant kept |
| `AgentLoop.Loop.BatchArrived` | packages/agent-core/src/agents/engine/agent-loop.ts:202-231 | the history is answered again; a run with a terminal tool completes if and only if a terminal result is there that no later one hides, and then with its one accepted submission |
| `AgentLoop.Loop.PreHooksReturned` | packages/agent-core/src/agents/tool/terminal.ts:76-85 | a submission passes if and only if no hook denied it and the gate is open; then nothing is queued, no task is open and no submission was ever accepted |
| `AgentLoop.Loop.PostHooksReturned` | packages/agent-core/src/agents/tool/terminal.ts:87-90 | a submission that goes to the host closes the run to steers; a denied one leaves it open |
| `AgentLoop.Loop.HostAnswered` | packages/agent-core/src/agents/tool/terminal.ts:91-128 | an accepting host makes this the run's only accepted submission and its result the terminal one; any other answer reopens the run to steers |
| `AgentLoop.Loop.Steer` | packages/agent-core/src/agents/engine/run-handle.ts:217-225 | a steer is taken if and only if the run is neither finishing nor finished; a taken one is queued last and makes a parked loop due to resume, a refused one changes nothing |
| `AgentLoop.Loop.Interrupt` | packages/agent-core/src/agents/engine/run-handle.ts:227-230 | an interrupt before the finish empties every signal's listeners and makes a parked loop due to resume; after it nothing changes |
| `AgentLoop.Loop.TaskMoved` | packages/agent-core/src/agents/background/background-task-supervisor.ts:200-237 | a settled task makes a parked loop due to resume, its event is logged, and the run's invariant is kept |
| `AgentLoop.Loop.Publish` | packages/agent-core/src/agents/agent-runtime.ts:109-114 | a publish before the finish is pending afterwards and makes a parked loop due to resume; after it nothing changes |
| `AgentRunCommit.TerminalResultIsAccepted` | packages/agent-core/src/agents/engine/agent-loop.ts:211-216 | a terminal result among the normalized answers comes with the accepted submission |
| `RetryGate.RetryIsTransparent` | packages/agent-core/src/agents/llm-client/retry.ts:71-98 | for any behaviour of the provider the consumer sees the last attempt's output alone, after at most 1 + max_retries attempts; on success exactly one completion, in last place, holding what was streamed |
| `RetryGate.TransparentExactly` | packages/agent-core/src/agents/llm-client/retry.ts:71-98 | for arbitrary attempts the forwarded stream is the last attempt's alone if and only if the retried ones forwarded nothing |
| `RetryGate.CompletedAttemptRepeats` | packages/agent-core/src/agents/llm-client/retry.ts:7-13 | a bare attempt that completes its message and then fails is retried, so two completions are forwarded |
| `RetryGate.OnlyInvisibleIsRetried` | packages/agent-core/src/agents/llm-client/retry.ts:85-95 | an attempt is followed by another only if it failed with a retryable provider error and forwarded nothing visible |
| `RetryGate.RetriesExactly` | packages/agent-core/src/agents/llm-client/retry.ts:24-98 | attempt `t` is made if and only if the retry limit allows it, no abort came before it, and every earlier one forwarded nothing visible and failed for want of a connection, by a stream cut short, or by a rate limit or server error with a listed status code; the outcome is the last attempt's unless an abort kept the next away |
| `RetryGate.AttemptTellsWire` | packages/agent-core/src/agents/llm-client/stream-client.ts:73-116 | an attempt forwards exactly what its wire said up to the terminal event, text, reasoning and calls concatenated per delta, and then one completion made of it; a stream that stops earlier fails for the stated reason with what it had forwarded |
| `RetryGate.RetryTellsWire` | packages/agent-core/src/agents/llm-client/retry.ts:71-98 | a stream that succeeds tells exactly what the last attempt's wire said |
| `RetryGate.AttemptsAreBounded` | packages/agent-core/src/agents/llm-client/retry.ts:77-95 | there are never more than 1 + max_retries attempts |
| `RetryGate.RetryLoop` | packages/agent-core/src/agents/llm-client/retry.ts:71-98 | the loop with its one flag across attempts computes the specified outcome |
| `RetryGate.StreamAttempt` | packages/agent-core/src/agents/llm-client/stream-client.ts:73-116 | one attempt decodes until the terminal event; a clean end without it is a truncated stream |
| `RetryGate.AttemptOutcome` | packages/agent-core/src/agents/llm-client/stream-client.ts:73-116 | a successful attempt ends with its one completion; one the provider failed has none |
| `ResponsesDecoder.DecodeKeeps` | packages/agent-core/src/agents/llm-client/wires/openai-responses.ts:171-277 | after any events the decoder holds exactly what it forwarded: text and reasoning deltas concatenate, tool deltas are the tool uses, and the completion's message is made of them |
| `WireReading.StreamIsRead` | packages/agent-core/src/agents/llm-client/wires/openai-responses.ts:171-240 | whatever was on the wire, the decoder forwards one delta per text, reasoning and closed call event, the call with the id and name of its opening and all arguments since, and a completion if and only if a terminal event was reached first; else it fails for the stated reason |
| `WireReading.OutputsHold` | packages/agent-core/src/agents/llm-client/wires/openai-responses.ts:171-240 | read back, the forwarded deltas are the concatenated text and reasoning of the wire and its calls in closing order |
| `WireReading.OpenAiDecoder.Handle` | packages/agent-core/src/agents/llm-client/wires/openai-responses.ts:171-240 | one wire event yields what the wire says at that place and nothing else; the buffers are the text, reasoning and calls of all events so far, and the completion is made of them; a failure comes with no output |
| `CanonicalJson.CanonicalDecidesEquality` | packages/agent-engine/src/agents/outcome-advisory.ts:38-41 | two JSON values have the same canonical text if and only if they are equal up to object key order |
| `CanonicalJson.SortKeysDecides` | packages/agent-engine/src/agents/outcome-advisory.ts:95-104 | key sorting, with the own-property order of the rebuilt objects, yields the same value exactly for values equal up to key order |
| `CanonicalJson.CanonicalReadsBack` | packages/agent-engine/src/agents/outcome-advisory.ts:38-41 | read as JSON, the canonical text of a value is that value up to the order of keys, every object listing its keys in the sorted order |
| `JsonText.PrintReadsBack` | packages/agent-engine/src/agents/outcome-advisory.ts:39-41 | a reader of RFC 8259 texts without white space gives every printed value back, with nothing left |
| `JsonText.PrintInjective` | packages/agent-engine/src/agents/outcome-advisory.ts:39-41 | the printer of JSON texts (grammar of sections 2 to 7 of RFC 8259, escapes as ECMAScript writes them) is injective |
| `CanonicalJson.SubmissionText` | packages/agent-engine/src/agents/outcome-advisory.ts:13-16 | two submissions have the same key exactly if tool names are equal and payloads equal up to key order |
| `CanonicalJson.AdvisorPassRegistry.RecordPass` | packages/agent-engine/src/agents/outcome-advisory.ts:26-31 | a pass is added to the run's record and nothing else changes |
| `CanonicalJson.AdvisorPassRegistry.HasPass` | packages/agent-engine/src/agents/outcome-advisory.ts:33-35 | true if and only if an equal submission was recorded for that run |

## Left out

- Launch errors: a launch succeeds, and a node that fails to start is reported later. In the code a failed launch inside a batch of dispatches dispatches again before the rest of the batch is claimed, so in-flight uniqueness does not extend to it.
- PursuitTheorems.AppliedAtMostOnce: covers one workflow run; the node stores that persist events are not part of this model.
- AgentRunTheorems.AcceptedSubmissionDecides: assumes that tool-use ids are distinct within one assistant message, which the source leaves to the provider; AgentRunTheorems.BatchCompletesExactly is the condition without that assumption.
- AgentRunTheorems.TextExitGate: the reasoning and text blocks of a message are one text; usage fields that were never reported count as zero.
- AgentRunTheorems.NoLostWakeUp: host code that the run calls inside one stretch, the event tap and the conversation observer, does not call back into the run; AgentRunTheorems.ParkIsLevelTriggered says what a park meets whatever happened before it.
- ToolBatch: the first eight calls start in separate steps instead of one, which only adds interleavings.
- ToolExecutor.BatchExecution.LaneReturn: a batch whose executor throws is not modelled: `projectContent` stands outside any try in `dispatch` (executor.ts:58-62), so a result that JSON refuses to stringify fails the run as internal while other lanes are still at work.
- RetryGate: delays and the idle timer are choices of the environment, no times are modelled.
- ResponsesDecoder: tool arguments are forwarded as the accumulated text; parsing them is left out.
- CanonicalJson: values that are not JSON (undefined, functions, non-finite numbers) are left out; submissions come from parsed JSON.
- The objects hold values where the source shares references: what cloning protects from, aliasing between states, is not captured.
- WorkflowInstance.WorkflowRunInstance.Start: runs to its end as one step; its only dispatch is the first planner, so nothing else is claimed meanwhile.
- Node handles, their status, event writes and the node run store; the delegated workflow node.
- Agent names, titles, specs, provenance, origin and close times of a pursuit; transition records, snapshots' contents and last-dispatch records.
- Prompt texts, context projection and search of the pursuit; the other workflow module.
- Partial assistant messages salvaged for observers; the history holds notes, their rendering is modelled apart.
- Failure texts are modelled; the wording of refusals is a constructor instead of a sentence.
- The agent factory, tool profiles, hooks, request encoders, credentials, the other wires and the command line.
