# Verified core of kruntimes

A Dafny model of the parts of kruntimes whose correctness depends on state kept
over time, with proofs about every run of them. `dafny verify dfyconfig.toml`
checks everything.

## What is modelled

**WorkflowRun engine.** `JobGraph` is the three-colour validation of job needs.
`WorkflowDerive` projects child results onto steps, Action steps, jobs and the
WorkflowRun; `WorkflowResources` is the same derivation as loops over one record updated
in place, proved equal to it. `SkipPropagation` is the bounded skip loop. `WorkflowPlan`
plans and applies; `WorkflowController` is its loop form. `WorkflowMachine` interleaves
reconciles with child progress and cancellation in any order; `WorkflowTheorems` and
`WorkflowProgress` hold what every run satisfies. `WorkflowExpressions` says what
expressions see and yield, `WorkflowOutcome` when jobs, steps and calls succeed or fail,
`WorkflowOutputs` what they then carry, and `WorkflowEffects` what a reconcile does to
the children. `WorkflowLag` lets the listing of children lag behind them and
`WorkflowListing` lets it miss some. `WorkflowLossy` adds steps that lose their status
patch; `WorkflowLossyEnds` and `WorkflowStalls` say how such runs end or do not, and
`WorkflowLosses` and `WorkflowLossyFailure` have concrete ones. `WorkflowEnvironment` is
environment inheritance between steps; `WorkflowTransparency` carries it over every run.

**Session operations.** `SessionJournal` is the operation store: durable journals,
volatile active set, subscribers and bounded channels. `SessionReplay` runs it with any
number of readers, slow readers, cancelled streams, failed writes and process restarts.
`SessionProxy` is the owner's streaming loop, the non-owner's forwarding loop and
resuming; `SessionOutcome` says from the stream and the API server's answers alone how
an operation ends, and `SessionGiveUp` lets its caller leave while the worker goes on.
`SessionCaller` is what that caller receives, and `SessionAnswers` what the store
answers over whole runs. `SessionQueue` is one queue entry as a machine with its
submitters, worker, Drain and Close, one lock-protected region or blocking step at a
time; `SessionWork` says which operations it executes, and `SessionEntry` is the entry
as an object, each operation a run of that machine.

**Scheduler assumption cache.** `ResourceUsage` and `AssumedReservations` are the
cache and its accounting; `SchedulerMachine` interleaves it with Run progress and
an informer that lags arbitrarily; `SchedulerCycle` shows that a cycle over the cache is
a step of that machine; `SchedulerTheorems` bounds every Pod.

**Retries.** `RunRetry` lets runtimed, the stale reaper and the scheduler write one
Run's status from possibly stale copies under optimistic concurrency.

**Logs.** `OutputCursor` compares incremental line emission with one batch split.
`LogFollow` compares a follower that reconnects with the record sequence.

## Conventions

- Iteration in sorted or map order is modelled as any order, so results hold for
  every order. The one exception is `DeriveStepStatusesFromChildRuns`, which looks
  at an inline Run before Action Runs of the same step, as the sorted keys do.
- Hashes (child names, journal names, content prefixes, log cursors) are taken to be
  injective; JSON and protobuf values are abstract. An event is as long as its value.
- Expression resolution is an arbitrary partial function, and the test that a Run's
  environment outputs are well formed is an arbitrary predicate in the workflow
  machine; `WorkflowEnvironment` gives the actual test.
- API reads and writes are atomic and may fail. Clocks, backoff delays and timeouts
  are steps that may happen at any time.

## Hypotheses of the run theorems

- `WorkflowMachine`: step names are distinct within a job, Action-local step names
  and child names are not empty, call names are injective (`NamesDistinct`); a
  reconcile's child creations and status patch are one step; children are not
  deleted and finished children do not change. A reconcile reads its own status and
  the children as they are. `WorkflowLag` drops the latter for the progress of
  children: the listing may show any earlier state of each. `WorkflowListing` lets it
  miss children, and `WorkflowLossy` lets the patch of a reconcile be lost.
- `SchedulerMachine`: cycles are serialized, requests and capacity do not change,
  only a bind makes a Run occupy a Pod, a bind succeeds only from the version it
  read. A Run is hidden when it occupies a Pod the informer does not yet show it on.
  `Disciplined` adds the two things the scheduler does not check: a synchronisation
  against one namespace finds no hidden Run of another, and a hidden Run is not
  admitted again. `StepSoundIff` shows that nothing weaker would do.
- `SessionReplay`: a write that reports failure was not applied; one process owns
  the store at a time.
- `RunRetry`: the policy is defaulted and its limit is an int32.

## Where the code does less than it seems to promise

Each of these has a counterexample and a lemma that says exactly when the promise
holds.

- A scheduling cycle synchronises the cache against the Runs of one namespace, which
  drops reservations of every other namespace. `ForeignSnapshotOvercommits` is a run
  that then over-commits a Pod; `SyncSoundIff` and `StepSoundIff` say when it is sound.
- Planning a bound but not yet observed Run again and losing the write releases the
  reservation that covers it: `ReplanningOvercommits`, `ReleaseSoundIff`.
- An event that cannot be persisted uses up its sequence number, so the failure event
  after it is refused and the operation stays open: `LostWriteLeavesOpen`,
  `LeftOpenIff`.
- A stream that starts with 127 events none of which ends it fills the journal of 128,
  and then nothing can close the operation, although nothing failed:
  `FullJournalReached`, `HealthyLeftOpenIff`, `InterruptedEndsIff`.
- The failure event may be sent after an event whose sending failed, so what a caller has
  received need not be a prefix of the journal and its last sequence number not a safe
  cursor: `MissedEventThenFailure`, `CursorIsSafeIff`.
- A caller that gives up while the worker holds an event it has numbered and not stored
  leaves the operation open, although every write succeeds: `GiveUpLeavesOpen`,
  `GiveUpRecordedIff`.
- A Pod that does not own the Session forwards only streams that start at sequence 1,
  so a resume through it delivers nothing: `ForwardedReplayIff`.
- A cursor past the retained end does not keep earlier events away: `PastEndRun`,
  `CursorHoldsIff`.
- A second Close that runs concurrently returns before the first has cancelled the
  running operation: `SecondCloseIsEarly`, `SecondCloseUnsafeIff`.
- Drain reports true for an entry that Close has removed while its operation still
  runs: `RemovedDrainIsEarly`, `DrainEarlyIff`.
- If the children of a job end before any status patch that records them lands, the job
  is never closed nor planned, and only cancellation ends its WorkflowRun:
  `LostPatchReached`, `UnrecordedJobStallsIff`, `UnrecordedStallsForever`.
- If the patch that records a called workflow is lost and the workflow is then deleted,
  the WorkflowRun fails over the running child: `LostPatchFailsEarly`,
  `CallFailsEarlyIff`. Success and cancellation are never too early: `LossyEndIsQuiet`.
- The controller lists children through a cache. A cancelled WorkflowRun whose listing
  misses a child just created becomes Cancelled while that child is active:
  `MissedChildCancelsEarly`. From its status and the listing the controller could tell:
  `CancelledEarlyIff`.
- An Action that declares an output under the reserved environment prefix leaks it
  into the environment of later steps: `DeclaredReservedOutputLeaks`,
  `ActionTransparentIff`.
- A log that lost its beginning refuses a cursor, unless a record identical in every
  field, timestamp included, has moved into the cursor's place:
  `IdenticalRecordSkips`, `RotatedResumeIff`. When records are dropped between the
  snapshot and the stream of one request it is accepted and stays silent:
  `DroppedBetweenIsSilent`.
- A follower that has read past the byte limit of a snapshot is refused whenever it
  reconnects: `PastLimitRefused`, `ConnectionContinues`.

## Model

| member | source | states |
|---|---|---|
| `JobGraph.AcyclicIffOrdered` | internal/controller/workflowrun_controller.go:400-442 | a graph whose needs all exist has no cycle exactly when its jobs can be listed so that every job comes after its needs |
| `JobGraph.Validator.Visit` | internal/controller/workflowrun_controller.go:409-434 | the recursive colouring visit keeps the colouring, extends the finished order, and any rejection comes with a missing need or a genuine closed path |
| `JobGraph.ValidateJobGraph` | internal/controller/workflowrun_controller.go:400-442 | accepts exactly the graphs whose needs all name existing jobs and which have no cycle; a reported cycle is a closed path of needs edges |
| `SkipPropagation.BlockedStep` | internal/controller/workflowrun_controller.go:1216-1224 | an unstarted job is blocked exactly when one of its needs is Failed or Skipped or itself blocked |
| `SkipPropagation.DeriveSkippedJobStatuses` | internal/controller/workflowrun_controller.go:1187-1214 | in any visiting order, within as many rounds as there are jobs, marks Skipped exactly the jobs with a path of unstarted predecessors to a Failed or Skipped one |
| `SkipPropagation.SettledIsSkipped` | internal/controller/workflowrun_controller.go:1187-1214 | a sound result in which no unstarted job has a failed need is the least fixed point |
| `SkipPropagation.SkippedIdempotent` | internal/controller/workflowrun_controller.go:1187-1214 | skipping twice is skipping once |
| `WorkflowEnvironment.LastWriteWins` | internal/controller/workflow_environment.go:30-43 | merging environments in order gives each variable the value of its last publisher |
| `WorkflowEnvironment.ReservedNamespace.WorkflowEnvironmentOutputs` | internal/controller/workflow_environment.go:15-28 | extracts exactly the outputs under the reserved prefix, and fails exactly when one of their names is not a C identifier |
| `WorkflowEnvironment.ReservedNamespace.MergeWorkflowEnvironment` | internal/controller/workflow_environment.go:30-43 | overlays the published variables, or fails when one is invalid |
| `WorkflowEnvironment.ReservedNamespace.WorkflowStepEnvironment` | internal/controller/workflow_environment.go:45-70 | a target inherits the merge, in order, of every earlier succeeded step and Action-local step, and fails exactly when one of those published an invalid name |
| `WorkflowEnvironment.ReservedNamespace.StepInherits` | internal/controller/workflow_environment.go:45-70 | a target finds each variable as the last succeeded step before it left it, the earlier steps of its own Action coming last |
| `WorkflowEnvironment.ReservedNamespace.PublicWorkflowOutputs` | internal/controller/workflow_environment.go:75-89 | removes exactly the reserved outputs |
| `WorkflowEnvironment.ReservedNamespace.OutputsSplit` | internal/controller/workflow_environment.go:15-28 | outputs split into a public and a reserved half with nothing lost; the public half publishes nothing and the reserved half everything |
| `WorkflowEnvironment.ReservedNamespace.CollectedEnvironment` | internal/controller/workflowrun_controller.go:1354-1388 | the environment an Action call publishes is what it declares overlaid with the merge of its inner steps |
| `WorkflowEnvironment.ReservedNamespace.ActionTransparentIff` | internal/controller/workflowrun_controller.go:1354-1388 | an Action call publishes what its inlined steps would exactly when every reserved output it declares is also written by an inner step |
| `WorkflowEnvironment.ReservedNamespace.DeclaredReservedOutputLeaks` | internal/controller/workflowrun_controller.go:1354-1388 | an Action with a succeeded inner step that publishes nothing leaks the reserved output it declares, a variable that inlining would not publish |
| `WorkflowTransparency.EnvironmentIsInlined` | internal/controller/workflow_environment.go:45-70 | in every reachable state, for a job whose Actions declare no reserved output, the environment any step or Action-local step inherits is that of the workflow with every Action call replaced by its inner steps |
| `WorkflowTransparency.DerivedCallRecorded` | internal/controller/workflowrun_controller.go:1354-1388 | derivation gives a finished Action call exactly the outputs its Action declares together with what its inner steps published |
| `WorkflowTransparency.BehaviourRecorded` | internal/controller/workflowrun_controller.go:983-1022 | in every reachable state a succeeded Action-local step carries the outputs of its finished Run, and a succeeded Action call its declared outputs overlaid with what those steps published |
| `WorkflowResources.RunAdded` | internal/controller/workflowrun_controller.go:1252-1281 | projecting one more child Run changes exactly the step it names |
| `WorkflowResources.Resources.DeriveStepStatusesFromChildRuns` | internal/controller/workflowrun_controller.go:1238-1281 | the loop over child Runs projects all of them, whatever the order of different steps |
| `WorkflowResources.Resources.DeriveActionStepsForJob` | internal/controller/workflowrun_controller.go:1335-1352 | decides the job's Action calls in order, later ones seeing earlier decisions |
| `WorkflowResources.Resources.DeriveActionStepStatuses` | internal/controller/workflowrun_controller.go:1321-1333 | decides the Action calls of every job, independently of the order of jobs |
| `WorkflowResources.Resources.DeriveWorkflowCallStatuses` | internal/controller/workflowrun_controller.go:996-1022 | every calling job takes over its finished child's result, in any order |
| `WorkflowResources.Resources.DeriveJobStatuses` | internal/controller/workflowrun_controller.go:1136-1159 | closes exactly the Running jobs whose steps decide them, in any order, with the phases and outputs that `JobOutcome` states |
| `WorkflowResources.Resources.DeriveCancelledWorkflowRunStatus` | internal/controller/workflowrun_controller.go:1049-1065 | a cancelled WorkflowRun becomes Cancelled only when no child is active |
| `WorkflowResources.Resources.DeriveWorkflowRunStatus` | internal/controller/workflowrun_controller.go:983-994 | the in-place derivation equals the functional one and changes nothing but the status |
| `WorkflowExpressions.ActionInputsAre` | internal/controller/workflowrun_controller.go:874-898 | an Action's inputs resolve exactly when nothing undeclared is given, every given expression resolves and no required input without default is missing; they are then the given values and the defaults |
| `WorkflowExpressions.ActionOutputsAre` | internal/controller/workflowrun_controller.go:1413-1440 | an Action's outputs resolve exactly when its inputs and every output expression over them do; they are then exactly those values |
| `WorkflowExpressions.StepContextIs` | internal/controller/workflowrun_controller.go:859-872 | an expression sees, under the name of each succeeded step with outputs, its public outputs, and nothing else |
| `WorkflowExpressions.ActionContextIs` | internal/controller/workflowrun_controller.go:1413-1440 | the same for the steps inside an Action |
| `WorkflowExpressions.JobContextIs` | internal/controller/workflowrun_controller.go:849-857 | and for the succeeded jobs |
| `WorkflowExpressions.CollectedPublic` | internal/controller/workflowrun_controller.go:1354-1388 | what an Action call collects from its steps leaves the public outputs it declares as they are |
| `WorkflowOutcome.JobOutcome` | internal/controller/workflowrun_controller.go:1136-1185 | in every reachable state a reconcile makes a Running job with steps succeed exactly when all its steps have and every declared output resolves over their public outputs, whose values it then has; fail exactly when a step failed or an output does not resolve; else it stays Running |
| `WorkflowOutcome.CallOutcome` | internal/controller/workflowrun_controller.go:996-1047 | a Running job that calls a workflow succeeds exactly when its child has and its outputs resolve, which it takes over; it fails exactly when the child ended otherwise |
| `WorkflowOutcome.InlineStepOutcome` | internal/controller/workflowrun_controller.go:1238-1309 | in every reachable state an inline step succeeds exactly when its Run did with well-formed environment outputs, and carries its outputs; it fails exactly when the Run ended otherwise or it failed before it had one |
| `WorkflowOutcome.ActionCallOutcome` | internal/controller/workflowrun_controller.go:1321-1440 | an open Action call succeeds exactly when all its Runs have and its expressions resolve, with the declared outputs and what its Runs published; it fails exactly when a Run ended otherwise or an expression does not resolve; its inner steps succeed exactly with their Runs |
| `WorkflowOutcome.SucceedsWithItsChildren` | internal/controller/workflowrun_controller.go:1118-1134 | in every reachable, uncancelled state with no failed job: when every child of every job has succeeded and every expression resolves, the derived phase is Succeeded, and the reconcile stores that |
| `WorkflowOutputs.StepOutputsAreItsRuns` | internal/controller/workflowrun_controller.go:1301-1309 | in every reachable state a succeeded inline step carries the outputs of its finished Run |
| `WorkflowOutputs.CallOutputsAreDeclared` | internal/controller/workflowrun_controller.go:1354-1388 | in every reachable state a succeeded Action call shows to expressions exactly the public outputs it declares, resolved |
| `WorkflowOutputs.JobOutputsAre` | internal/controller/workflowrun_controller.go:1136-1185 | in every reachable state a succeeded job carries exactly the values of its declared outputs over its steps, or the outputs of the workflow it called |
| `WorkflowIdempotence.DeriveIsIdempotent` | internal/controller/workflowrun_controller.go:983-1022 | for every status and every set of children, deriving twice equals deriving once |
| `WorkflowController.NextRunnableWorkflowStep` | internal/controller/workflowrun_controller.go:785-797 | finds the first step that has not succeeded, unless it failed |
| `WorkflowController.NextRunnableActionStep` | internal/controller/workflowrun_controller.go:817-829 | finds the first Action-local step that has not succeeded, if it is pending |
| `WorkflowController.NextStepRunTarget` | internal/controller/workflowrun_controller.go:771-811 | the next target of a job is its first unsucceeded step or Action-local step when that has no Run yet |
| `WorkflowController.StepTargetsOf` | internal/controller/workflowrun_controller.go:747-769 | one target for each running or ready job that has one, in visiting order |
| `WorkflowController.CallTargetsOf` | internal/controller/workflowrun_controller.go:831-847 | one target for each ready calling job without a child |
| `WorkflowController.CalculateWorkflowRunPlan` | internal/controller/workflowrun_controller.go:201-252 | derives in place, then plans initialization, cancellation of active children, the runnable targets, or nothing; `InitializedIff`, `CancellationReachesChildren`, `DueStepIsStarted` and `ChildrenLeftAlone` state what each plan does |
| `WorkflowController.Applier.RecordStepRunInPlace` | internal/controller/workflowrun_controller.go:722-736 | records the Run in exactly the targeted step or Action-local step and marks step, job and WorkflowRun Running |
| `WorkflowController.Applier.StartTarget` | internal/controller/workflowrun_controller.go:592-745 | starts one target, reusing an existing child, or records its validation failure |
| `WorkflowController.Applier.StartRunnableTargets` | internal/controller/workflowrun_controller.go:558-590 | starts the planned targets in order and stops at the first one the API server fails on, leaving the rest untouched; each start leaves the others startable |
| `WorkflowStart.TargetsReady` | internal/controller/workflowrun_controller.go:747-847 | every planned target is at the frontier of a job whose needs have all succeeded, and there is at most one per job |
| `WorkflowStart.StartAllOk` | internal/controller/workflowrun_controller.go:558-745 | starting ready targets keeps the invariant of the WorkflowRun |
| `WorkflowMachine.DeriveOk` | internal/controller/workflowrun_controller.go:983-1159 | derivation keeps the invariant, advances jobs only forwards, and never leaves a terminal phase |
| `WorkflowMachine.SkippedTracesToFailed` | internal/controller/workflowrun_controller.go:1187-1224 | whenever some job is Skipped, some job is Failed, by descent along the acyclic needs |
| `WorkflowMachine.ReconcileKeepsInv` | internal/controller/workflowrun_controller.go:201-306 | a reconcile keeps the invariant, a terminal phase and the cancel request, and creates nothing once terminal or cancelled |
| `WorkflowMachine.BehaviourKeepsInv` | internal/controller/workflowrun_controller.go:112-306 | the invariant holds in every state of every run |
| `WorkflowTheorems.ChildRunsStartInOrder` | internal/controller/workflowrun_controller.go:722-829 | in every reachable state a child Run exists only if all needs of its job succeeded and every earlier step and Action-local step succeeded |
| `WorkflowTheorems.AtMostOneActiveRunPerJob` | internal/controller/workflowrun_controller.go:747-829 | in every reachable state each job has at most one unfinished child Run |
| `WorkflowTheorems.EndedMeansQuiet` | internal/controller/workflowrun_controller.go:1049-1159 | in every reachable terminal state all child Runs and child WorkflowRuns have finished, when no listing misses a running child |
| `WorkflowTheorems.EndedIsFinal` | internal/controller/workflowrun_controller.go:201-252 | a terminal phase never changes and no child is created after it |
| `WorkflowTheorems.NoChildAfterCancellation` | internal/controller/workflowrun_controller.go:201-252 | once cancellation is requested no child is ever created |
| `WorkflowTheorems.SucceededMeansEveryJob` | internal/controller/workflowrun_controller.go:1118-1134 | a reachable Succeeded WorkflowRun has every job Succeeded, although the terminal check also accepts Skipped |
| `WorkflowEffects.CancellationReachesChildren` | internal/controller/workflowrun_controller.go:1076-1116 | a reconcile of a cancelled WorkflowRun leaves every unfinished child Run terminating and every unfinished child WorkflowRun with its cancellation requested, and creates none |
| `WorkflowEffects.CancellationEnds` | internal/controller/workflowrun_controller.go:1049-1065 | once the children have finished, the next reconcile of a cancelled, unfinished WorkflowRun makes it Cancelled |
| `WorkflowEffects.ChildrenLeftAlone` | internal/controller/workflowrun_controller.go:201-252 | without a cancellation a reconcile changes no child that exists |
| `WorkflowEffects.DueIsTarget` | internal/controller/workflowrun_controller.go:747-847 | the planner picks exactly the step or call that is due: the first unfinished one, untouched, of a Running job or one whose needs have all succeeded |
| `WorkflowEffects.DueStepIsStarted` | internal/controller/workflowrun_controller.go:558-745 | a reconcile starts every step that is due: its Run is created, new and under its own name, and recorded; or the step is recorded as failed without one when it is rejected |
| `WorkflowEffects.DueCallIsStarted` | internal/controller/workflowrun_controller.go:592-661 | likewise every workflow call that is due |
| `WorkflowEffects.InitializedIff` | internal/controller/workflowrun_controller.go:254-306 | the first reconcile accepts a WorkflowRun exactly when it is well formed and its Actions could be read, with every job, need and step in place and untouched; otherwise it fails it |
| `WorkflowLag.LagIsHarmless` | internal/controller/workflowrun_controller.go:173-199 | when each child may be listed in any earlier state, what the controller knows is always a reachable state of the protocol without lag, and never ahead of the children |
| `WorkflowLag.LaggingEndedMeansQuiet` | internal/controller/workflowrun_controller.go:1049-1159 | however far the listing lags, an ended WorkflowRun has no unfinished child |
| `WorkflowLag.LaggingAtMostOneActive` | internal/controller/workflowrun_controller.go:747-829 | however far the listing lags, a job has at most one child Run that has not really finished |
| `WorkflowLag.LaggingStartsInOrder` | internal/controller/workflowrun_controller.go:722-829 | however far the listing lags, a child Run exists only after everything it waits for has succeeded |
| `WorkflowListing.CancelledEarlyIff` | internal/controller/workflowrun_controller.go:1049-1065 | the status and a listing can belong to a WorkflowRun with an unfinished child and yet derive Cancelled exactly when the listing shows no unfinished child and does not show some child the status records as running |
| `WorkflowListing.ListedRunsAreSafe` | internal/controller/workflowrun_controller.go:1049-1065 | in every reachable state, any listing that shows every child recorded as running derives Cancelled only when all children have finished |
| `WorkflowListing.UnlistedMayBeUnfinished` | internal/controller/workflowrun_controller.go:1049-1065 | otherwise there is a consistent WorkflowRun with the same status and the same listing that becomes Cancelled over an unfinished child |
| `WorkflowListing.CompleteListingMeetsIt` | internal/controller/workflowrun_controller.go:173-199 | a listing that is late but complete shows every child recorded as running |
| `WorkflowListing.MissedChildrenMatterOnlyWhenCancelling` | internal/controller/workflowrun_controller.go:983-1022 | without cancellation a listing that misses unfinished children derives the same status as the children themselves |
| `WorkflowLosses.MissedChildCancelsEarly` | internal/controller/workflowrun_controller.go:173-199 | a run of three steps after which a listing that misses the new Run derives Cancelled while that Run is active |
| `WorkflowProgress.NeverStuck` | internal/controller/workflowrun_controller.go:201-236 | a reachable, uncancelled, unfinished WorkflowRun has an active child or a target to start; when no job runs it has a target |
| `WorkflowProgress.UnrecordedJobStallsIff` | internal/controller/workflowrun_controller.go:1136-1159 | a ready job whose child results arrived unrecorded is left alone by derivation, and cannot be planned exactly when its steps already decide it |
| `WorkflowLosses.LostPatchStallsForever` | internal/controller/workflowrun_controller.go:1136-1159 | a one-step job whose Run succeeded unrecorded reconciles to a state that every further reconcile keeps: unfinished, with nothing to start |
| `WorkflowLosses.LostPatchReached` | internal/controller/workflowrun_controller.go:112-139 | that state is reached from a new WorkflowRun: initialize, start the Run but lose the status patch, let the Run succeed, reconcile |
| `WorkflowStalls.UnrecordedStallsForever` | internal/controller/workflowrun_controller.go:1136-1159 | over every run, patches lost or not: a startable job that was never recorded as started and whose steps are over stays so for ever, and its WorkflowRun ends only by cancellation |
| `WorkflowStalls.StuckIsNeverPlanned` | internal/controller/workflowrun_controller.go:747-811 | such a job is given no target and is not closed |
| `WorkflowLossy.BehaviourKeepsInv` | internal/controller/workflowrun_controller.go:112-139 | when any reconcile may create some of its children and lose its patch, a status still never claims a success its children do not have |
| `WorkflowLossy.LossyStartsInOrder` | internal/controller/workflowrun_controller.go:722-829 | whatever patches are lost, a child Run exists only when every Run before it in its job and every child of the jobs it needs has succeeded |
| `WorkflowLossy.LossyCallsInOrder` | internal/controller/workflowrun_controller.go:831-847 | whatever patches are lost, a child WorkflowRun exists only when every child of the jobs it needs has succeeded |
| `WorkflowLossy.LossyAtMostOneActive` | internal/controller/workflowrun_controller.go:747-829 | whatever patches are lost, a job has at most one child Run that has not finished |
| `WorkflowLossyEnds.LossyEndIsQuiet` | internal/controller/workflowrun_controller.go:1049-1134 | whatever patches are lost, a WorkflowRun that succeeded has every child of every job succeeded, and one that was cancelled has no unfinished child |
| `WorkflowLossyEnds.CallFailsEarlyIff` | internal/controller/workflowrun_controller.go:592-650 | in every reachable state, patches lost or not: a reconcile records a calling job as failed over its unfinished child exactly when its status says it is still to be started and the call is rejected |
| `WorkflowLossyFailure.LostPatchFailsEarly` | internal/controller/workflowrun_controller.go:592-650 | a run in which a lost patch and a deleted reusable workflow let the WorkflowRun fail while its child is active |
| `ResourceUsage.AddUsage` | internal/scheduler/assumed_reservation_cache.go:154-165 | adds the request to one Pod's usage and leaves the others |
| `ResourceUsage.MergeUsage` | internal/scheduler/assumed_reservation_cache.go:143-152 | sums two usages Pod by Pod and resource by resource |
| `ResourceUsage.Fits` | internal/runtimepod/status.go:90-106 | true exactly when every requested resource exists and stays within capacity |
| `AssumedReservations.AssignedRunUsage` | internal/scheduler/reconciler.go:233-263 | observed usage of a Pod is the sum of requests of the Runs shown as consuming it |
| `AssumedReservations.AssumedReservationCache.SyncLocked` | internal/scheduler/assumed_reservation_cache.go:115-129 | keeps exactly the reservations whose Run is listed, pending, unassigned and of the same name |
| `AssumedReservations.AssumedReservationCache.UsageLocked` | internal/scheduler/assumed_reservation_cache.go:131-137 | assumed usage of a Pod is the sum of the requests reserved on it |
| `AssumedReservations.AssumedReservationCache.Snapshot` | internal/scheduler/assumed_reservation_cache.go:47-63 | synchronises, then reports observed plus assumed usage |
| `AssumedReservations.AssumedReservationCache.Reserve` | internal/scheduler/assumed_reservation_cache.go:65-76 | reserves exactly when the Pod is ready and has room beside observed and assumed usage; otherwise only synchronises |
| `AssumedReservations.AssumedReservationCache.Observe` | internal/scheduler/assumed_reservation_cache.go:78-86 | drops the reservation of a Run seen assigned or no longer pending |
| `AssumedReservations.ObservedIsSynced` | internal/scheduler/assumed_reservation_cache.go:78-86 | observing a Run settles its reservation as the next synchronisation would, and no other |
| `AssumedReservations.AssumedReservationCache.Release` | internal/scheduler/assumed_reservation_cache.go:88-92 | removes one reservation and nothing else |
| `SchedulerCycle.LoadSnapshot` | internal/scheduler/framework.go:126-166 | loading a snapshot through the cache is the synchronisation step of the machine and reports observed plus assumed usage |
| `SchedulerCycle.ReserveForRun` | internal/scheduler/reconciler.go:99-145 | listing, counting and reserving through the cache ends in the state of the machine's reservation step, and goes on to bind exactly when the machine has a bind in flight |
| `SchedulerCycle.ReleaseAfterFailedBind` | internal/scheduler/reservation.go:46-52 | releasing through the cache after a lost bind write is the failed bind of the machine |
| `SchedulerCycle.ObserveRun` | internal/scheduler/reservation.go:56-58 | showing the cache a Run is the observation step of the machine |
| `SchedulerTheorems.TenantsAccounted` | internal/scheduler/assumed_reservation_cache.go:47-137 | every Run that really occupies a Pod is shown there by the informer or reserved there |
| `SchedulerTheorems.CountedIsEnough` | internal/scheduler/assumed_reservation_cache.go:65-76 | what a cycle counts is at least what really occupies the Pod |
| `SchedulerTheorems.BindKeepsInv` | internal/scheduler/reservation.go:34-54 | a successful bind keeps every Pod within capacity and the new tenant accounted for |
| `SchedulerTheorems.BindFailedKeepsInv` | internal/scheduler/reservation.go:46-52 | a failed bind releases a reservation no tenant depends on |
| `SchedulerTheorems.StepKeepsInv` | internal/scheduler/reservation.go:22-62 | every disciplined step keeps the accounts right, with reservations of any number of namespaces |
| `SchedulerTheorems.StepSoundIff` | internal/scheduler/reservation.go:22-62 | from a sound state a step keeps the accounts right exactly when it is disciplined |
| `SchedulerTheorems.NeverOvercommitted` | internal/scheduler/assumed_reservation_cache.go:47-165 | over every interleaving of disciplined steps of all namespaces, the summed requests of the Runs assigned to a Pod stay within its capacity in every resource |
| `SchedulerTheorems.CountedExactlyOnce` | internal/scheduler/assumed_reservation_cache.go:47-137 | in every reachable state a synchronisation leaves every Run on a Pod of its namespace counted as observed or as assumed, never both and never neither |
| `SchedulerTheorems.SyncSoundIff` | internal/scheduler/assumed_reservation_cache.go:115-129 | a synchronisation against one namespace keeps the accounts right exactly when no Run of another namespace is bound, reserved and not yet shown |
| `SchedulerTheorems.ReleaseSoundIff` | internal/scheduler/assumed_reservation_cache.go:88-92 | releasing a reservation is sound exactly when its Run is not bound and unseen |
| `SchedulerCounterexamples.ForeignSnapshotOvercommits` | internal/scheduler/assumed_reservation_cache.go:115-129 | a nine-step run in which a snapshot for another namespace makes the scheduler over-commit a Pod |
| `SchedulerCounterexamples.ReplanningOvercommits` | internal/scheduler/reservation.go:46-52 | a run in which replanning a bound Run and losing the write over-commits a Pod |
| `SessionJournal.EventsAfter` | internal/runtimed/session_operation_store.go:345-361 | returns the retained events above the cursor, in order |
| `SessionJournal.SessionOperationStore.Begin` | internal/runtimed/session_operation_store.go:81-152 | creates the journal and marks the key active, or reports an existing one, a digest mismatch or an API failure and changes nothing; a journal created since the first read counts as existing; `BeginAnswers` says over whole runs which answer is given |
| `SessionJournal.SessionOperationStore.Append` | internal/runtimed/session_operation_store.go:171-227 | stores the event only if it is the next one, fits every limit and is written, as `AppendAcceptsIff` states; then offers it to the subscribers and retires the key on a terminal event |
| `SessionJournal.SessionOperationStore.BroadcastLocked` | internal/runtimed/session_operation_store.go:327-343 | every subscriber with space gets the event, full ones are detached and closed, and a terminal event closes all |
| `SessionJournal.SessionOperationStore.Subscribe` | internal/runtimed/session_operation_store.go:269-304 | returns the events after the cursor with a registered channel, or a closed one for a terminal journal |
| `SessionJournal.SessionOperationStore.Cancel` | internal/runtimed/session_operation_store.go:293-302 | unregisters and closes the channel once, and is harmless afterwards |
| `SessionReplay.AfterIsSuffix` | internal/runtimed/session_operation_store.go:345-361 | in a numbered journal the events after a cursor are a suffix |
| `SessionReplay.StepKeepsInv` | internal/runtimed/session_operation_store.go:81-343 | every step keeps journals numbered, registered channels open and every reader's deliveries one block |
| `SessionReplay.JournalGrows` | internal/runtimed/session_operation_store.go:171-227 | journals are never lost, only grow, keep their digest and stop changing once terminal |
| `SessionReplay.AtMostOneCreated` | internal/runtimed/session_operation_store.go:81-167 | over all callers and restarts at most one Begin of a key is told it created the operation |
| `SessionReplay.JournalIsNumbered` | internal/runtimed/session_operation_store.go:247-264 | every reachable journal is numbered 1..n with n at most 128, its only terminal event is its last, and an active key has none |
| `SessionReplay.ExactlyOnceReplay` | internal/runtimed/session_operation_store.go:266-361 | over any subscriptions, detaches, cancellations and restarts a reader's deliveries are a gap-free, duplicate-free block of the journal, and all of it from its start once a terminal event is delivered |
| `SessionReplay.DeliveriesFollowCursor` | internal/runtimed/session_operation_store.go:269-304 | for a reader that joins with a cursor inside the journal that block starts right after the cursor |
| `SessionReplay.LiveReaderMissesNothing` | internal/runtimed/session_operation_store.go:327-343 | a reader that is still registered has the whole rest of the journal delivered or on the way |
| `SessionReplay.ResumingCompletes` | internal/runtimed/proxy_session.go:277-327 | resuming from the last delivered sequence puts everything the reader lacks on the way |
| `SessionReplay.CursorHoldsIff` | internal/runtimed/session_operation_store.go:269-304 | in every reachable subscription, with any cursor: all further deliveries stay above the cursor in every continuation exactly when the cursor is not past the journal, or the journal is terminal or full |
| `SessionReplay.PastEndRun` | internal/runtimed/session_operation_store.go:269-304 | a run in which a reader that asks for events after sequence 1 of an empty journal is delivered sequence 1 |
| `SessionAnswers.BeginAnswers` | internal/runtimed/session_operation_store.go:81-167 | the answer to every Begin of every run: created for the first request that asks, found again by the same request, refused as AlreadyExists exactly when the operation was created for another digest |
| `SessionAnswers.LetInToItsOwn` | internal/runtimed/session_operation_store.go:81-167 | a caller that is answered Ok finds the journal of its own request ever after |
| `SessionAnswers.KeyIsOfOneRequest` | internal/runtimed/session_operation_store.go:81-167 | over all callers and restarts an idempotency key is never accepted for two different requests |
| `SessionAnswers.ActiveIff` | internal/runtimed/session_operation_store.go:81-152 | an operation is active exactly until it ends or the process that created it does |
| `SessionAnswers.AppendAcceptsIff` | internal/runtimed/session_operation_store.go:171-264 | an event is stored exactly when its number is the next one, its journal is known and open, and it fits the limits of 8192 bytes, 128 events and the encoded size |
| `SessionAnswers.AppendRefusals` | internal/runtimed/session_operation_store.go:171-264 | each error of Append with exactly the inputs that give it |
| `SessionAnswers.JournalHoldsAccepted` | internal/runtimed/session_operation_store.go:171-264 | in every run a journal changes only by the events accepted for it, one after the other |
| `SessionAnswers.EventsFit` | internal/runtimed/session_operation_store.go:171-188 | no stored event is longer than 8192 bytes |
| `SessionAnswers.AttachedReaderIsServed` | internal/runtimed/session_operation_store.go:327-343 | an accepted event reaches every attached reader with fewer than sixteen waiting; a full one keeps what it has and is detached, and a terminal event detaches all |
| `SessionAnswers.OpenIffServed` | internal/runtimed/session_operation_store.go:269-343 | in every reachable state a reader's channel is open exactly while it is registered for the reader's own operation, which has not ended: nobody waits on a channel that will get nothing |
| `SessionAnswers.SubscriberIsAttached` | internal/runtimed/session_operation_store.go:269-304 | a subscription is attached exactly when no terminal event is stored, and starts with an empty channel |
| `SessionAnswers.DetachIsComplete` | internal/runtimed/session_operation_store.go:293-302 | a reader that leaves is registered nowhere and finds its channel closed |
| `SessionAnswers.DetachSparesOthers` | internal/runtimed/session_operation_store.go:293-302 | and no other reader notices |
| `SessionProxy.ForwardSessionOperationEvents` | internal/runtimed/proxy_session.go:216-275 | the owner's loop numbers, persists and sends each event, and stops at the first refusal, lost write or broken caller; `ForwardIsPrefix` states the journal and `ForwardDelivers` what was sent |
| `SessionProxy.StreamSessionOperation` | internal/runtimed/proxy_session.go:143-214 | admission, execution and the failure event of one created operation whose caller waits for it; `OwnerJournal` states the journal and `CallerReceives` what was sent |
| `SessionProxy.ForwardIsPrefix` | internal/runtimed/proxy_session.go:216-275 | the journal gains exactly a renumbered prefix of the Runtime Server's events; success means all of them and a terminal end, refusal says where they stop |
| `SessionProxy.OwnerJournal` | internal/runtimed/proxy_session.go:156-214 | the journal of a created operation is well formed: nothing, or the accepted event and a renumbered prefix, and then at most one failure |
| `SessionGiveUp.WaitingIsStreamed` | internal/runtimed/proxy_session.go:156-214 | with a caller that waits, the worker and the caller step by step leave the journal that the whole call leaves |
| `SessionGiveUp.StepKeepsInv` | internal/runtimed/proxy_session.go:160-214 | every load, count, numbering and store of either thread keeps the journal in one piece |
| `SessionGiveUp.GivenUpJournal` | internal/runtimed/proxy_session.go:160-275 | over every interleaving of the worker with a caller that gives up at any time, sharing one unlocked counter, the journal is well formed: the accepted event, a renumbered prefix of the stream and at most one failure |
| `SessionGiveUp.GiveUpRecordedIff` | internal/runtimed/proxy_session.go:209-214 | in every reachable state a caller that gives up undisturbed has its failure recorded exactly when the worker has not counted an event it has yet to store, has not lost one, and the journal has room |
| `SessionGiveUp.GiveUpLeavesOpen` | internal/runtimed/proxy_session.go:209-214 | a run in which every write succeeds, both threads end and the operation stays open |
| `SessionProxy.FailureRecordedIff` | internal/runtimed/proxy_session.go:209-214 | with a healthy API server a failure is recorded exactly when no event was lost before it and the journal is not full |
| `SessionOutcome.LeftOpenIff` | internal/runtimed/proxy_session.go:156-214 | for every stream, every pattern of failing writes and sends and every failure text, an operation is left without a terminal event exactly when a condition on these inputs holds: its accepted event does not get through; or, after the events that do, the next one is not stored; or that one is stored and not sent, or the stream breaks off, and the failure event is not stored |
| `SessionOutcome.HealthyLeftOpenIff` | internal/runtimed/proxy_session.go:156-214 | when every write and send succeeds, an operation is left open exactly when it runs and its stream starts with at least 127 events that do not end it |
| `SessionOutcome.LongStreamNeverEnds` | internal/runtimed/session_operation_store.go:171-227 | such an operation ends with a full open journal to which no event can be appended |
| `SessionOutcome.FullJournalReached` | internal/runtimed/session_operation_store.go:171-227 | 127 pieces of output and a healthy API server are such an operation |
| `SessionProxy.LostWriteLeavesOpen` | internal/runtimed/proxy_session.go:209-214 | one lost write leaves an operation open although every later write would succeed |
| `SessionCaller.CallerReceives` | internal/runtimed/proxy_session.go:156-214 | whatever is stored, lost or sent, the caller receives exactly the stored events whose sending succeeds, in journal order |
| `SessionCaller.WaitingCallerReceivesAll` | internal/runtimed/proxy_session.go:156-214 | when every sending succeeds that is the whole journal |
| `SessionCaller.ForwardDelivers` | internal/runtimed/proxy_session.go:216-275 | the same for the forwarding loop alone |
| `SessionCaller.CursorIsSafeIff` | internal/runtimed/proxy_session.go:156-214 | the caller holds a prefix of the journal exactly when no stored event was sent after one that could not be |
| `SessionCaller.MissedEventThenFailure` | internal/runtimed/proxy_session.go:209-214 | an operation whose caller receives events 1 and 3 |
| `SessionCaller.CompletedOperation` | internal/runtimed/proxy_session.go:156-275 | an operation that goes well ends with the acceptance and everything the Runtime Server emitted, numbered on, both in its journal and with its caller |
| `SessionCaller.OnlyTheOwnerDecides` | internal/runtimed/proxy_session.go:216-275 | whatever the Runtime Server emits, the acceptance is first, a failure is last and the owner's own, and everything else is progress, output or completion as emitted |
| `SessionProxy.ForwardPeerEvents` | internal/runtimed/proxy_session.go:227-254 | a non-owner passes on exactly the contiguous events from sequence 1 up to a terminal one, and succeeds exactly when that is the whole stream |
| `SessionProxy.ContiguousMeans` | internal/runtimed/proxy_session.go:245-254 | what is passed on is a prefix, numbered on, ends with its only terminal event if it has one, and could not be longer |
| `SessionProxy.ForwardedReplayIff` | internal/runtimed/proxy_session.go:245-254 | a replay through a non-owner, from any cursor up to the live tail, arrives whole when it starts at the beginning and otherwise not at all |
| `SessionProxy.ResumeSessionOperation` | internal/runtimed/proxy_session.go:277-327 | succeeds exactly for a readable, known operation that is active, has ended or can be closed as interrupted, and then subscribes to it; every error leaves the store as it was |
| `SessionProxy.InterruptedEndsIff` | internal/runtimed/proxy_session.go:288-303 | an interrupted operation can be closed exactly when its journal is not full; `FullJournalReached` fills one |
| `SessionEntry.Entry.Submit` | internal/runtimed/session_queue.go:162-201 | refuses with the right error exactly when the entry is closed or draining, or full; otherwise the job joins the end of the outstanding work; a refusal leaves no trace |
| `SessionEntry.Entry.Drain` | internal/runtimed/session_queue.go:214-225 | stops admission and reports true exactly when no accepted work is outstanding, queued or held |
| `SessionEntry.Entry.Take` | internal/runtimed/session_queue.go:268-285 | the worker takes the first outstanding job, which stays outstanding |
| `SessionEntry.Entry.Finish` | internal/runtimed/session_queue.go:285-309 | exactly the held job stops being outstanding, and nothing is cancellable any more |
| `SessionEntry.Entry.Close` | internal/runtimed/session_queue.go:230-245 | closes the entry and names the operation to cancel, which can only be the job in the worker's hands |
| `SessionEntry.SubmitToEntry` | internal/runtimed/session_queue.go:162-201 | a submission is no step of the queue machine when refused, three when admitted, and four that come back to where they began when the queue is full |
| `SessionEntry.DrainEntry` | internal/runtimed/session_queue.go:214-225 | Drain is one step of the machine, and answers true exactly when the machine has nothing queued or held |
| `SessionEntry.TakeFromEntry` | internal/runtimed/session_queue.go:268-269 | taking a job is the worker's receive |
| `SessionEntry.ArmEntry` | internal/runtimed/session_queue.go:292-298 | registering the operation is the worker's arming step, which goes on to execute exactly when it succeeds |
| `SessionEntry.FinishInEntry` | internal/runtimed/session_queue.go:299-307 | finishing a job is the worker's run to its reply and completion |
| `SessionEntry.CloseEntry` | internal/runtimed/session_queue.go:230-245 | Close is six steps of the machine after which the entry is removed, its channel closed and the running operation cancelled |
| `SessionQueue.StepKeepsInv` | internal/runtimed/session_queue.go:142-309 | every step of submitters, worker, Drain and Close keeps the invariant |
| `SessionQueue.CloseCancelsRunning` | internal/runtimed/session_queue.go:230-245 | after Close has returned, an operation that still runs has a cancelled context |
| `SessionQueue.ClosedStartsNothing` | internal/runtimed/session_queue.go:358-372 | no operation starts once the entry is marked closed |
| `SessionQueue.ChannelIsUsedOpen` | internal/runtimed/session_queue.go:180-243 | the jobs channel is never sent to after closing and never closed twice |
| `SessionQueue.OneReplyPerJob` | internal/runtimed/session_queue.go:268-309 | every job gets one reply, which finds its one-slot channel empty |
| `SessionQueue.PendingIsExact` | internal/runtimed/session_queue.go:180-201 | pending equals queued jobs plus the worker's job plus one mid-submission |
| `SessionQueue.RunsInAdmissionOrder` | internal/runtimed/session_queue.go:268-309 | operations run in admission order and at most once each |
| `SessionWork.StartedIsAdmitted` | internal/runtimed/session_queue.go:268-309 | no operation is executed before its admission has been recorded |
| `SessionWork.AnsweredIsExecuted` | internal/runtimed/session_queue.go:268-309 | an operation is answered without being executed only when its caller is gone or the entry is closed |
| `SessionWork.GoneIsNotStarted` | internal/runtimed/session_queue.go:268-309 | an operation whose caller leaves before the worker last looks for it is never executed |
| `SessionQueue.DrainedRunsNothing` | internal/runtimed/session_queue.go:214-225 | once Drain has reported true nothing ever runs, is queued or is submitted again on the entry |
| `SessionQueue.DrainEarlyIff` | internal/runtimed/session_queue.go:214-225 | whenever Drain reports true, for a present or a removed entry, an operation is ever seen running afterwards exactly when the entry was removed and its operation was running |
| `SessionQueue.RemovedDrainIsEarly` | internal/runtimed/session_queue.go:214-245 | a run in which Drain reports true while an operation runs |
| `SessionQueue.SecondCloseIsEarly` | internal/runtimed/session_queue.go:230-245 | a run in which a second Close can return while an operation runs uncancelled |
| `SessionQueue.SecondCloseUnsafeIff` | internal/runtimed/session_queue.go:230-245 | in every reachable state in which a second Close would return while an operation runs that neither its caller nor its deadline ended, that operation is uncancelled exactly while the first Close has not returned |
| `RunRetry.WithDefaults` | internal/retry/retry.go:29-44 | a missing or non-positive limit is one attempt, a missing or non-positive backoff one second; the retryable reasons and every value that was set are kept |
| `RunRetry.WriteSteps` | internal/retry/retry.go:55-77 | a status write never lowers the attempt and raises the current one by one exactly when it retries, without int32 wrap-around |
| `RunRetry.RunCopy.ApplyFailure` | internal/runtimed/controller.go:936-974 | a failed attempt is retried in place or ended; `FailureEndsIff` states which and with what status |
| `RunRetry.RunCopy.HandleStaleRun` | internal/controller/stale_reaper.go:126-145 | a stale Run is reset or failed; `FailureEndsIff` states which and with what status |
| `RunRetry.AttemptIsMonotone` | internal/runtimed/controller.go:936-994 | over every interleaving of writers with stale copies the attempt never decreases nor exceeds the policy |
| `RunRetry.RetriesAreCounted` | internal/controller/stale_reaper.go:126-145 | the current attempt is always one plus the retries so far, so retries stay below the limit |
| `RunRetry.TerminalIsLast` | internal/runtimed/controller.go:1004-1022 | a terminal version is the last one whatever stale writers of runtimed, the reaper and the scheduler try, the scheduler's refusals included, and a cancelled failure is terminal |
| `RunRetry.FailureUsesAnAttempt` | internal/runtimed/controller.go:936-994 | every applied failure or reaping ends the Run with the right phase or uses up exactly one remaining attempt |
| `RunRetry.FailureEndsIff` | internal/retry/retry.go:55-66 | over every interleaving an applied failure or reaping ends the Run exactly when it was cancelled, its reason is not retryable or the attempt is the last; otherwise the next attempt begins, in place after a failure, Pending without a Pod after a reaping |
| `RunRetry.EveryAttemptIsUsed` | internal/runtimed/controller.go:936-994 | a Run whose reason may be retried is ended by failures in its last attempt only |
| `OutputCursor.Emitter.EmitOutputDelta` | internal/runtimed/execution_logs.go:72-106 | writes the complete lines of pending plus new text, keeps the unfinished line, and flushes it when terminal; starts over when the earlier text is gone |
| `OutputCursor.Emitter.WriteLines` | internal/runtimed/execution_logs.go:93-97 | writes the non-empty lines of a text without trailing carriage returns |
| `OutputCursor.LinesExtend` | internal/runtimed/execution_logs.go:86-101 | the complete lines of a longer text are those of the shorter one and those its unfinished line completes |
| `OutputCursor.SplitJoins` | internal/runtimed/execution_logs.go:93-97 | the pieces of a text hold no newline and joined by newlines give it back |
| `OutputCursor.WrittenWhole` | internal/runtimed/execution_logs.go:93-97 | lines that are not empty and have no carriage return are written as they stand |
| `OutputCursor.SinceResetIsComplete` | internal/runtimed/execution_logs.go:72-106 | for arbitrary polls the lines written since the last reset are exactly the complete lines of the latest content |
| `OutputCursor.IncrementalIsBatch` | internal/runtimed/execution_logs.go:72-106 | growing polls and a final flush write exactly the non-empty lines of splitting the final content once |
| `OutputCursor.FlushTwiceWritesOnce` | internal/runtimed/execution_logs.go:102-105 | flushing the same final content again writes nothing |
| `LogFollow.Snapshot` | internal/runextensionapi/server.go:414-428 | numbers the records from one and gives each its cursor |
| `LogFollow.Stream` | internal/runextensionapi/server.go:430-496 | sends the tail and what follows it, or what follows the requested cursor, or refuses a cursor that is not retained |
| `LogFollow.ResumeIsSuffix` | internal/runextensionapi/server.go:436-451 | in an append-only log a resume sends everything after its position, and is refused exactly when the snapshot does not reach that position |
| `LogFollow.FirstIsSuffix` | internal/runextensionapi/server.go:452-470 | a first request sends everything from the start of its tail on, without a gap between snapshot and stream |
| `LogFollow.FollowAggregatedRunLogs` | internal/krt/logs.go:74-158 | the reconnect loop delivers what its connections send, one after the other, each from the last delivered cursor, until one is refused, and prints exactly the stdout and stderr messages of what it delivers |
| `LogFollow.ConnectionContinues` | internal/krt/logs.go:74-93 | a connection is refused exactly when its snapshot ends before the cursor; otherwise it continues the delivered block, and up to the end of what it read unless it is cut |
| `LogFollow.FollowedIsOneBlock` | internal/krt/logs.go:74-93 | over any number of reconnects, each cut anywhere, the delivered records are one contiguous block without gap or duplicate |
| `LogFollow.WriteFollowRunLogsWithCursor` | internal/krt/logs.go:110-158 | prints the messages of the stdout and stderr records as lines and returns the cursor of the last record of any kind |
| `LogFollow.RotatedResumeIff` | internal/runextensionapi/server.go:436-451 | for every cursor and whatever parts of the log the snapshot and the stream read: refused unless the snapshot has a record equal in every field, timestamp included, in the cursor's place; otherwise everything after that place is sent, or nothing if the stream does not have it there |
| `LogFollow.DistinctStampsResume` | internal/runextensionapi/server.go:436-451 | with distinct timestamps a resume is refused exactly when records were lost before the snapshot or it ends before the cursor, silent exactly when they were lost after it, and otherwise complete |
| `LogFollow.DroppedBetweenIsSilent` | internal/runextensionapi/server.go:472-495 | two records of which the delivered one is dropped between snapshot and stream: the resume is accepted and sends nothing |
| `LogFollow.FittingIsLargest` | internal/runextensionapi/server.go:414-428 | a snapshot holds the longest run of leading records within its byte limit |
| `LogFollow.IdenticalRecordSkips` | internal/runextensionapi/server.go:498-504 | three identical records of which the first is delivered and dropped: the resume skips one |
| `LogFollow.PastLimitRefused` | internal/runextensionapi/server.go:414-428 | a follower that has read past what a snapshot's byte limit holds is refused when it reconnects |

## Left out

- Kubernetes clients, watches, finalizers, metrics, events, and gRPC, HTTP and WebSocket transport: I/O around the modelled steps.
- Runtime, RBAC, NetworkPolicy and Deployment reconciliation, the console, krt commands other than log following, packaging and tooling: field copying and UI.
- Expression syntax and workflow templates: resolution is an arbitrary partial function.
- Status messages, conditions, timestamps and lease heartbeats: no modelled decision reads them except the Running condition that delays a retry, which is `waiting` in `RunRetry`.
- Artifact dependency validation, workspaces and output parsing: short single-function checks.
- Pod scoring, affinity and the other scheduling filters: any Pod may be chosen.
- Retry backoff durations: a backoff may end at any time.
- The in-memory store that the operation store uses without an API client.
- A journal write that is applied but reported as failed.
- With lost status patches a failed WorkflowRun need not be quiet; `CallFailsEarlyIff` gives the exact condition for calling jobs, and for jobs with steps it is left out.
- CloseCancelsRunning: speaks of the Close that closed the entry; `SecondCloseUnsafeIff` covers a concurrent second one.
- NeverOvercommitted: assumes disciplined steps; without them it is false, as the two counterexamples show, and by `StepSoundIff` no weaker condition keeps the accounts right.
- EndedMeansQuiet: assumes that no listing misses a running child; `CancelledEarlyIff` says exactly when the controller could rely on its listing.
- Snapshot: leaves out the affinity targets it also returns, because Pod affinity is not modelled.
- DeriveJobStatuses: leaves out the artifacts it copies into a job status, because no modelled decision reads them.
- FollowAggregatedRunLogs: a failing terminal, which ends the loop with an error, is left out.
- ResumeSessionOperation: its reads, append and subscription are one call here; `SessionReplay` interleaves them with everything else.
