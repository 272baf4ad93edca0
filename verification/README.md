# A verified model of the SPLAI scheduler

This project models the control plane of SPLAI in Dafny and proves what its scheduling core guarantees:

- the **scheduler engine** with its in-memory store and queue, as one state machine: submitting, polling, reporting,
  heartbeats, lease expiry, preemption, cancelling, archiving, reviving dead letters;
- the **Redis form of the queue** and its RESP2 framing;
- the **limiters** in front of the API, the **task-graph rewrites** made before a submission, and the **dead-letter
  dry run**;
- the **worker's reports** and their idempotency keys;
- the **local hybrid retrieval ranking**, over exact reals.

## How it is laid out

Each imperative part has two forms. A specification on values says what one operation does to the whole state, and the
laws are proved about it. A class with the source's fields and loops carries the operations out step by step, and each
method is proved to do exactly what the specification says.

| part | specification and laws | the source's own form |
|---|---|---|
| engine | `Scheduler`, `Placement`, `Leases`, `Policy`; laws of single calls: `RecordLaws`, `AssignmentLaws`, `PlacementLaws`, `StageLaws`, `PolicyLaws`, `PreemptionLaws`, `ClaimOrder`, `LeaseLaws`, `ReportLaws`; laws of runs: `Invariants` to `Runs`, `JobRuns`, `OutputRuns`, `LeaseRuns`, `RunningJobs`, `Quota`, `QuotaRuns`, `RunInstances`, `ExpiryInstance` | `SchedulerEngine.Engine`, `EngineRuns` |
| memory queue | `QueueModel`, `QueueLaws`, `StrikeLaws` | `MemoryQueue.MemoryQueue` |
| memory store | `Records`, `Scheduler` (queries) | `MemoryStore.MemoryStore` |
| Redis queue | `RedisModel`, `RedisLaws`, `RedisStrikes` | `RedisQueue.RedisQueue` |
| engine over the Redis queue | `RedisEngine`, `RedisRuns` | |
| RESP framing | `Resp` | `Resp.Conn` |
| limiters | `SlidingWindow`, `RateLimit` | `RateLimit.SubmitLimiter`, `AdminSafety.AdminLimiter` |
| graph rewrites | `Dag`, `GraphRewrite` | the methods of `GraphRewrite` |
| dry run | `DeadLetterAdmin`, `Counters` | `DeadLetterAdmin.CountMatchingRefs` |
| worker reports | `WorkerRuntime` | `WorkerRuntime.PollAndRun` |
| retrieval | `Vectors`, `Retrieval`, `RetrievalLaws` | the methods of `Vectors` and `Retrieval` |

`EngineRuns.Serve` closes the loop: any history of calls on the engine object is a `Runs.Run` of the state machine, so
every theorem about runs is a theorem about the object.

`dafny verify dfyconfig.toml` checks the whole project.

## What is assumed

- Each engine call is one atomic step that reads the clock once. `Engine` has no lock of its own
  (internal/scheduler/engine.go:80-88); interleaving inside a call is not part of this model.
- The clock does not go backwards, is positive and fits 64 bits in nanoseconds (`Scheduler.Legal`).
- Where Go ranges over a map, the order is an argument of the step (`listing`), so a theorem covers every order. The
  engine object returns the order it took as a ghost result.
- Store faults while a claim is tried are an input, per claim (`Choice.fault`): a faulting claim changes nothing.
- The tie hashes, the token hash and the square root are arbitrary functions (the square root with its defining law).
- *Unique job ids* (`UNIQUE`): no submission reuses a job id, because the store overwrites on reuse
  (internal/state/memory_store.go:39-40). Theorems that need it name it.
- *No reopening* (`Runs.NoReopening`): no report of the run meets `ReportLaws.Reopens`, the exact condition under which a
  report breaks the tie between job and task statuses. *No reviving* (`Runs.NoReviving`): none makes a finished job run
  again. Orderly reports (no report for a task already Completed or Failed, except a replay of its last key) satisfy both
  (`Runs.OrderlyRuns`). Theorems that name neither hold for all reports.

## Where the code falls short, and exactly when

- A late Running report can set a finished task Running again while its job stays Completed or Failed:
  `ReportLaws.ReportKeepsStatusesIff` gives the exact condition for one report, `Runs.StatusesHoldIff` for a whole run,
  `RunInstances.ReopenedJob` a run from the empty state.
- The quota on a tenant's running jobs is checked only on submission. In a run without reopening reports it holds exactly as
  long as no report revives a job of the tenant while the quota is used up (`QuotaRuns.QuotaHoldsIff`);
  `RunInstances.QuotaExceeded` is a run in which one does. A reopening report can exceed it as well, through the next poll
  that finds a lease of the job expired (`ExpiryInstance.ExpiryExceedsQuota`, a run without reviving reports). In every run
  it holds unless some call meets `Quota.Overruns` (`QuotaRuns.WithinUnlessOverrun`).
- Running jobs are counted under the tenant's name as given, the quota is looked up under the trimmed one. The API server
  trims tenants (internal/api/server.go:1372-1382), but the scheduler's own submission endpoint passes them on as they come
  (cmd/scheduler/main.go:101-110): `RunInstances.TwoSpellings`. All spellings of a name together stay within a limit exactly
  as long as no submission under any of them is accepted, and no report revives a job of theirs, while they reach it
  (`QuotaRuns.LimitIff` for `Quota.Under`). If all submissions spell the name alike, its quota bounds them together, exactly
  as it bounds that spelling (`QuotaRuns.OneSpellingIff`).
- The model-install rewrite repeats an id exactly when both its ids are taken (`GraphRewrite.InstallUniqueIff`). It makes a
  cycle exactly when the task already carrying the id it uses needs, through dependencies, an llm_inference task of another
  id (`GraphRewrite.InstallAcyclicIff`). `GraphRewrite.TakenFallbackBreaksGraph` has both,
  `GraphRewrite.TakenFallbackMayStayAcyclic` only the repeated id.
- The dead-letter dry run can promise less than the requeue moves: `DeadLetterAdmin.DryRunPredicts` (if and only if),
  `DeadLetterAdmin.DryRunCanFallShort`.
- A Redis claim whose receipt is already in use overwrites the payload filed there. `RedisLaws.RunBalances` keeps the books
  of any run with what is lost; `RedisLaws.RunConserves` says that a run conserves if and only if nothing is lost so;
  `RedisLaws.DistinctReadingsLoseNothing` says when a caller can be sure of it, and `RedisLaws.SameReadingLoses` is a run
  that loses a payload. A single engine is safe whatever the clock reads: `RedisEngine.NoRunnableTaskLost`.
- `decodeTaskRef` inverts `encodeTaskRef` on exactly the refs that `RedisModel.WellFormed` describes.

## Model

| member | source | states |
|---|---|---|
| `Runs.NoRunnableTaskLost` | internal/scheduler/engine.go:374-457 | In every state of every run, each queued task whose dependencies are all completed has its ref waiting, claimed or dead-lettered; no assumption on reports or ids |
| `Runs.NoClaimOutstanding` | internal/scheduler/engine.go:445-454 | Between engine calls no claim is outstanding: every poll settles all it claimed |
| `Runs.RunnableIsWaiting` | internal/scheduler/engine.go:961-980 | So a runnable task is in the pending list or among the dead letters |
| `NoLost.StepNoLoss` | internal/scheduler/engine.go:139-1063 | Each single engine call keeps every runnable task's ref in the queue, through duplicates, acks and preemption inside a poll |
| `NoLost.AssigningAcksSafe` | internal/scheduler/engine.go:428-447 | Every claim a poll acks is the one filed in flight under its receipt, and its task is no longer queued, so acking cannot drop the last ref of a runnable task |
| `Runs.NoDeadlock` | internal/scheduler/engine.go:961-1016 | With a closed, ranked graph and whatever reports arrive, a Running job with nothing assigned or running has a ready task whose ref is in the queue |
| `JobRuns.SubmittedJobNeverStuck` | internal/scheduler/engine.go:139-236 | The same for every later state of a job submitted with a closed, acyclic graph, given unique job ids |
| `Runs.RunningJobUnfinished` | internal/scheduler/engine.go:982-1016 | In every state of every run, whatever reports arrive, a Running job with tasks has no failed task and one that is not completed |
| `RunningJobs.StepRunningOk` | internal/scheduler/engine.go:139-1063 | Each engine call keeps that |
| `Runs.GraphStays` | internal/scheduler/engine.go:181-224 | The stored dependency graph of a job stays closed and ranked in every later state |
| `Runs.JobStatusFollowsTasks` | internal/scheduler/engine.go:982-1016 | In a run without a reopening report, an open job with tasks is Failed iff a task failed, Completed iff all completed, Running otherwise |
| `Runs.StatusesHoldIff` | internal/scheduler/engine.go:897-1016 | Over any run, all job statuses follow from the tasks in every state if and only if no report of the run reopens a job |
| `Runs.OrderlyRuns` | internal/scheduler/engine.go:897-921 | A run whose reports are orderly has no reopening and no reviving report |
| `ReportLaws.ReportKeepsStatusesIff` | internal/scheduler/engine.go:897-921 | One report breaks the tie between job and task statuses if and only if it is an accepted Running report on the task that decided its job |
| `ReportLaws.LateRunningReportAccepted` | internal/scheduler/engine.go:901-921 | A worker's own Running report, delivered after its task was Completed or Failed, is accepted and sets the task Running; it reopens the job iff the task was its only failure or all its tasks were completed |
| `ReportLaws.OrderlyNeverReopens` | internal/scheduler/engine.go:897-921 | An orderly report never reopens a job |
| `RunInstances.ReopenedJob` | internal/scheduler/engine.go:897-921 | A run from the empty state that ends with a Completed job whose only task is Running |
| `RunInstances.QuotaExceeded` | internal/scheduler/engine.go:925-1016 | A run from the empty state that ends with two Running jobs under a quota of one, by a report that revives a job at the limit |
| `ExpiryInstance.ExpiryExceedsQuota` | internal/scheduler/engine.go:1019-1063 | A run that ends so without a reviving report: a reopened task leaves a Failed job without a failed task, and the next expired lease makes it Running |
| `RunInstances.TwoSpellings` | internal/policy/engine.go:127-147 | A run that ends with two Running jobs under a quota of one, submitted under two spellings of one tenant |
| `Runs.ClosedJobsStayClosed` | internal/scheduler/engine.go:292-342 | Canceled and archived jobs never leave those two states |
| `Runs.ClosedJobsNotHandedOut` | internal/scheduler/engine.go:459-466 | No task of a job is handed out once the job is closed |
| `Runs.AttemptsAccounted` | internal/scheduler/engine.go:552-554 | A task's attempt is at most max(MaxRetries, 0) + 1 plus its preemptions and non-timeout expiries, and strictly less while it is queued |
| `Runs.LeaseIffAssigned` | internal/scheduler/engine.go:552-562 | In every reachable state a task has a lease id iff it is Assigned |
| `Runs.LeasesFenced` | internal/scheduler/engine.go:552-562 | Lease ids handed out for one task over a run are pairwise distinct with growing attempts, and while a lease is held a report with an earlier one changes nothing but the clock |
| `LeaseLaws.StaleReportIgnored` | internal/scheduler/engine.go:904-906 | The fencing step: an earlier hand-out's lease is refused while a later one is held |
| `LeaseLaws.HandOutsDiffer` | internal/scheduler/engine.go:1094-1096 | Two hand-outs of one task differ in lease id even if ids contain colons |
| `LeaseLaws.HeartbeatOnlyExtends` | internal/scheduler/engine.go:1146-1173 | A heartbeat never moves an expiry back, nor past the attempt's start plus its timeout |
| `LeaseLaws.HeartbeatRenews` | internal/scheduler/engine.go:1146-1184 | A heartbeat of a worker gives each of its live leases exactly one lease length from now, or the attempt's start, read from the lease id, plus its timeout if that is sooner |
| `LeaseLaws.HeartbeatSpares` | internal/scheduler/engine.go:1146-1173 | It leaves every other task as it was: those of other workers, without a lease, or whose lease has run out |
| `LeaseRuns.GivenHeld` | internal/scheduler/engine.go:552-571 | At the end of a poll each task it returned is held by the worker under the returned lease, for exactly a lease length or until the attempt's deadline |
| `LeaseRuns.HeartbeatsKeepLease` | internal/scheduler/engine.go:1019-1063 | Over a run: as long as heartbeats of the worker come less than a lease apart and the attempt's deadline is ahead, no poll takes the task away from it for an expired lease |
| `LeaseLaws.PollClearsDeadlines` | internal/scheduler/engine.go:1019-1063 | After a poll no lease has lapsed and none has outlived its attempt's deadline |
| `Leases.LeaseStartRoundTrip` | internal/scheduler/engine.go:1186-1196 | leaseStartFromID recovers the time newLeaseID encoded, for all worker and task ids |
| `Leases.LeaseIdAttempt` | internal/scheduler/engine.go:1094-1096 | Equal lease ids of one task have equal attempts and times, colons notwithstanding |
| `Leases.BackoffRange` | internal/scheduler/engine.go:1198-1204 | Retry backoff starts at one second, doubles, and is capped at 32 |
| `LeaseLaws.PollHonoursBackoff` | internal/scheduler/engine.go:474-476 | Until its retry time a queued task is left untouched by every poll |
| `LeaseLaws.FailureBacksOff` | internal/scheduler/engine.go:925-931 | A failed attempt with retries left is held back for exactly its backoff, one to 32 seconds |
| `RecordLaws.LapsedLeases` | internal/scheduler/engine.go:1019-1063 | A lapsed lease takes the task from its worker: back to the queue at once, or after its backoff if the attempt was overdue, or to Failed if that was the last attempt; every other task is left alone |
| `RecordLaws.OverdueFailsJob` | internal/scheduler/engine.go:1019-1063 | A job whose task is overdue in its last attempt fails with it |
| `Settlement.PollIsConsistent` | internal/scheduler/engine.go:374-457 | A poll returns at most max assignments for distinct tasks, each still Assigned to that worker under the returned lease at the end, and leaves in flight only what was there before claiming |
| `Settlement.ClaimsSettledOnce` | internal/scheduler/engine.go:424-454 | Acks, nacks and error nacks of a poll are together exactly its claims, as multisets |
| `PollConsistency.AssignAllOk` | internal/scheduler/engine.go:428-444 | The assignment loop, tried in priority order, never preempts what it has just handed out |
| `PollConsistency.ClaimOrderStrictWeak` | internal/scheduler/engine.go:409-421 | The claim order (priority, age, tie hash) is a strict weak order, so sorting by it is well defined |
| `PollConsistency.SortedByRank` | internal/scheduler/engine.go:409-421 | The sorted claims are a permutation of the claims in non-increasing priority |
| `ClaimOrder.PriorityOrder` | internal/scheduler/engine.go:846-857 | Interactive and high go before standard and medium, and those before batch and low |
| `ClaimOrder.PriorityFolds` | internal/scheduler/engine.go:846-857 | Case and surrounding space do not matter, and an unknown priority counts as standard |
| `ClaimOrder.TriedInOrder` | internal/scheduler/engine.go:409-421 | Claims are tried in non-increasing priority, and of two with equal priority the one whose task was created earlier, or at the same time |
| `ClaimOrder.LeftForLater` | internal/scheduler/engine.go:428-444 | A claim left untried because the poll is full is of no higher priority than any task handed out, and of equal priority only if its task is not older |
| `AssignmentLaws.ClaimsTaken` | internal/scheduler/engine.go:399-403 | A poll claims from the front of the queue all there is, up to 32 refs for each task asked for, and holds them for one lease |
| `AssignmentLaws.EachTried` | internal/scheduler/engine.go:428-444 | Until the poll is full each claim in turn is tried in the state the earlier ones left, and filed by what comes of it; after that none is tried |
| `Steps.StepFair` | internal/scheduler/engine.go:464-551 | Every hand-out a step logs is of an open job, with all dependencies completed, with the task's type and its own inputs, and with every dependency's stored output URI among them |
| `JobRuns.FairFromStep` | internal/scheduler/engine.go:477-551 | The same for every hand-out of every run; `OutputRuns.HandOutCarriesReports` says where the stored outputs come from |
| `OutputRuns.HandOutCarriesReports` | internal/scheduler/engine.go:542-551 | In every run, the input a hand-out gives for a dependency's output is the URI of the last report accepted on that dependency since its job was submitted, and that report said Completed; told from the calls alone |
| `OutputRuns.StoredOutput` | internal/scheduler/engine.go:908-916 | In every state of every run a task's stored output and status agree with the last report accepted on it, told from the calls alone |
| `Steps.StepKeeps` | internal/scheduler/engine.go:139-1063 | No step changes a task's specification, removes a task or job, reopens a closed job, or rewrites history (given new job ids) |
| `Runs.ReplayChangesNothing` | internal/scheduler/engine.go:901-910 | Re-sending an accepted report's key changes nothing for as long as no other report on the task is processed, whatever other steps ran |
| `LeaseLaws.ReplayIgnored` | internal/scheduler/engine.go:901-903 | A report under the task's last accepted key changes nothing |
| `QuotaRuns.QuotaHoldsIff` | internal/policy/engine.go:127-147 | For a tenant as its submissions spell it (the empty spelling included) with quota q > 0: in a run without reopening reports it has at most q Running jobs in every state if and only if no report revives one of its jobs while it has q |
| `QuotaRuns.QuotaHolds` | internal/policy/engine.go:127-147 | So it never exceeds q in a run without reopening and reviving reports; for a non-empty name these are the jobs the policy check counts |
| `QuotaRuns.LimitIff` | internal/scheduler/engine.go:149-180 | For any selection of tenants, such as all spellings of one name, and any limit: in a run without reopening reports their Running jobs stay within it if and only if no submission of theirs is accepted, and no report revives a job of theirs, while their other jobs reach it |
| `QuotaRuns.OneSpellingIff` | internal/api/server.go:1372-1382 | If all submissions under a name spell it alike, the quota bounds the name as a whole, exactly as it bounds that spelling |
| `QuotaRuns.WithinUnlessOverrun` | internal/scheduler/engine.go:139-1063 | In every run, whatever reports arrive and ids are reused, the selected tenants stay within the limit as long as no call meets `Quota.Overruns` |
| `QuotaRuns.WithinIff` | internal/scheduler/engine.go:139-1063 | And only so long, if no overrunning poll denies an assignment in the same call |
| `Quota.StepWithin` | internal/scheduler/engine.go:139-1063 | For one call: exactly which submissions, reports and polls take the number of Running jobs above a limit, told from the state before (polls that deny an assignment: one way) |
| `Quota.PollRunning` | internal/scheduler/engine.go:1019-1063 | A poll leaves running what its sweep leaves running, less the jobs it denies an assignment |
| `Quota.StepNoneRevived` | internal/scheduler/engine.go:982-1016 | While job statuses are right, no step but an accepted submission or a reviving report makes a job Running that was not |
| `Quota.OrderlyNeverRevives` | internal/scheduler/engine.go:897-1016 | While job statuses are right, an orderly report never revives a job |
| `Policy.FirstMatchDecides` | internal/policy/engine.go:173-208 | The first matching rule decides, whatever follows it |
| `Policy.NoMatchDefaults` | internal/policy/engine.go:173-208 | Without a match the default action decides |
| `Policy.NewFromConfig` | internal/policy/engine.go:100-123 | Rules keep their order and allow iff their effect reads allow up to case and space, quota keys are trimmed, and noop holds iff nothing can be refused |
| `PolicyLaws.SubmissionPermittedIff` | internal/policy/engine.go:127-147 | A submission is accepted iff its tenant's running jobs are below its limit and the first rule about it, or else the default action, allows it; the rule fields, the request and the limit are spelled out |
| `PolicyLaws.GrantPermittedIff` | internal/policy/engine.go:149-171 | A screened task is handed out iff its tenant's running tasks are below its limit and the first rule about task and worker, or else the default action, allows it; if not, the task and its job fail and nothing else changes |
| `PolicyLaws.TaskQuotaHolds` | internal/policy/engine.go:154-161 | After every hand-out the tenant has fewer running tasks than its limit |
| `Placement.ChosenIsNearBest` | internal/scheduler/engine.go:613-646 | Nobody is chosen iff nobody is eligible; otherwise the choice is eligible and within (n - 1) * 0.0001 of the best of the n eligible ones, in every listing order |
| `PlacementLaws.LoadCosts` | internal/scheduler/engine.go:712-744 | Between two workers that differ only in load, the score differs by exactly the queue weight per queued or running task, the latency weight per 100 points of utilisation and, if the stage is spread, the spread weight per task of the stage placed there |
| `PlacementLaws.WarmModelPays` | internal/scheduler/engine.go:723-726 | A worker that comes to hold the task's model gains exactly the warm-model weight |
| `PlacementLaws.LocalityPays` | internal/scheduler/engine.go:727-730 | A worker where the task's data is gains exactly the locality weight |
| `PlacementLaws.ShellPays` | internal/scheduler/engine.go:713-722 | A shell gains the capability weight on a tool task and nothing on any other |
| `PlacementLaws.CapabilityPays` | internal/scheduler/engine.go:713-722 | An inference task scores the capability weight more than a plain one, an embedding four fifths of it |
| `PlacementLaws.WaitingPays` | internal/scheduler/engine.go:733-742 | Each running task of the tenant costs the fairness weight, and each minute of waiting earns the age weight |
| `PlacementLaws.HigherScoreWins` | internal/scheduler/engine.go:613-646 | In every listing order no worker is chosen that an eligible one outscores by more than a ten-thousandth for each other worker |
| `PlacementLaws.LighterLoadWins` | internal/scheduler/engine.go:613-646 | So a worker is not chosen over an eligible one that differs from it only by a load whose weighted cost is lower by more than that |
| `PlacementLaws.GivenToNearBest` | internal/scheduler/engine.go:484-492 | If any worker is eligible, a task is only ever given to an eligible worker that no eligible one outscores by more than that (no worker being registered under the empty name, which stands for nobody) |
| `PlacementLaws.GivenToFit` | internal/scheduler/engine.go:484-492 | So where some worker meets all demands of a task, the worker that gets it does |
| `PlacementLaws.EligibleIff` | internal/scheduler/engine.go:588-632 | A worker is eligible iff it meets the task's demands: the target named, health, a GPU, and for inference the backend and the model, as far as any worker tells what it has; each demand spelled out |
| `PlacementLaws.BackendSynonyms` | internal/scheduler/engine.go:649-658 | Backend names are compared in lower case, remote-api and llamacpp under their other spelling |
| `StageLaws.SameStageIff` | internal/scheduler/engine.go:762-769 | Two tasks are on one stage if they name the same dependencies in any order, and only then if the names are non-empty and hold no bar |
| `StageLaws.StageCounts` | internal/scheduler/engine.go:746-760 | A worker's stage use is the number of tasks of the job with the same dependencies that are placed on it, and a stage is spread iff the job asks for it and another task shares the dependencies |
| `PollPreservation.StepInv` | internal/scheduler/engine.go:139-1063 | Every engine call keeps the invariant of leases, attempts, report keys, hand-outs and statuses |
| `SchedulerEngine.Engine.constructor` | internal/scheduler/engine.go:90-133 | A new engine stands in the initial state, with 15 seconds for a lease that is not positive, an allow-all policy for none, the default for each weight of zero, and preemption unless switched off |
| `RecordLaws.DefaultsApplied` | internal/scheduler/engine.go:90-133 | The default of each option, as a number |
| `SchedulerEngine.Engine.AddJob` | internal/scheduler/engine.go:139-236 | The method refines the submit step and accepts exactly what the policy allows |
| `RecordLaws.SubmissionStored` | internal/scheduler/engine.go:181-224 | An accepted submission stores its job Running and each task as submitted: queued, never attempted, on no worker, as old as now; of two tasks with one id the later one |
| `RecordLaws.SubmissionQueues` | internal/scheduler/engine.go:181-236 | It puts exactly the refs of its tasks without dependencies behind the queue; a refused one changes nothing |
| `SchedulerEngine.Engine.BuildTasks` | internal/scheduler/engine.go:181-224 | The loop builds the task records and the refs of the tasks without dependencies |
| `SchedulerEngine.Engine.Decorate` | internal/scheduler/engine.go:193-219 | The inputs get exactly the submission's, resources' and locality keys |
| `RecordLaws.InputsDecorated` | internal/scheduler/engine.go:196-208 | The stored inputs carry the submission's priority, classification, model and network isolation; what the submission leaves empty stays as the task had it |
| `RecordLaws.ResourcesDecorated` | internal/scheduler/engine.go:209-222 | And the task's own resources and data locality, where it names any |
| `RecordLaws.OtherInputsKept` | internal/scheduler/engine.go:196-222 | Every other input is stored as submitted |
| `SchedulerEngine.Engine.CancelJob` | internal/scheduler/engine.go:292-323 | Refines the cancel step: queued and running tasks are canceled, assigned ones stay |
| `RecordLaws.CancelStops` | internal/scheduler/engine.go:292-323 | After a cancel no task of the job waits or runs; those that did hold no lease, and assigned or finished ones and other jobs' tasks are unchanged |
| `RecordLaws.OnlyOpenJobsCancel` | internal/scheduler/engine.go:292-342 | A finished job is not canceled but archived, and an open one is not archived |
| `SchedulerEngine.Engine.ArchiveJob` | internal/scheduler/engine.go:325-342 | Refines the archive step; it succeeds exactly on terminal jobs |
| `SchedulerEngine.Engine.RegisterWorker` | internal/scheduler/engine.go:344-357 | Refines the register step: the worker is healthy, without load, and its backend names are normalised |
| `SchedulerEngine.Engine.NormalizedBackends` | internal/scheduler/engine.go:660-679 | The loop keeps the distinct non-empty normalised names, sorted |
| `Placement.NormalizedOnce` | internal/scheduler/engine.go:660-679 | A name is kept iff it is the non-empty normal form of one given, and at most once |
| `SchedulerEngine.Engine.Heartbeat` | internal/scheduler/engine.go:359-372 | Refines the heartbeat step |
| `RecordLaws.LoadReported` | internal/scheduler/engine.go:344-372 | A registered worker is healthy and idle, and after a heartbeat has exactly the load and health reported, with what it registered unchanged |
| `SchedulerEngine.Engine.ExtendWorkerLeases` | internal/scheduler/engine.go:1146-1173 | The loop extends exactly the live leases of the worker's tasks, to the expiry `LeaseLaws.HeartbeatRenews` states |
| `SchedulerEngine.Engine.RequeueExpiredLeases` | internal/scheduler/engine.go:1019-1063 | Refines lease expiry: requeued or failed tasks, their refs in listing order, and affected jobs reconciled |
| `SchedulerEngine.Engine.ReconcileJobStatus` | internal/scheduler/engine.go:1233-1274 | Counting a job's records gives the status its tasks give it; closed and missing jobs are left alone |
| `SchedulerEngine.Engine.BestWorkerForTask` | internal/scheduler/engine.go:581-647 | The loop over the workers computes the specified selection for the order it met them in; the worker chosen is eligible and near-optimal among the eligible ones by the score that `PlacementLaws` fixes |
| `SchedulerEngine.Engine.StageUsage` | internal/scheduler/engine.go:746-760 | The counting loop gives each worker's number of tasks on the stage, and whether the stage is parallel |
| `SchedulerEngine.Engine.TryPreemptLowerPriority` | internal/scheduler/engine.go:796-844 | Requeues a task that is on the worker, of lower priority, and the least recently updated of all such tasks; nothing iff there is none |
| `PreemptionLaws.VictimIsOldest` | internal/scheduler/engine.go:811-818 | The victim is on the worker and of lower priority, and no other such task was updated before it |
| `PreemptionLaws.VictimIff` | internal/scheduler/engine.go:796-844 | There is a victim iff the worker holds a running or assigned task of lower priority |
| `PreemptionLaws.PreemptsOldest` | internal/scheduler/engine.go:493-502 | A claim preempts only on a worker at capacity, for a task of higher priority, and only the least recently updated lower one, which goes back to the queue without a lease |
| `PreemptionLaws.CapacityOf` | internal/scheduler/engine.go:779-794 | A worker's capacity is one task per four processors, between one and sixteen, and at least two with a GPU |
| `SchedulerEngine.Engine.DependenciesCompleted` | internal/scheduler/engine.go:1081-1092 | True iff every dependency exists and is completed |
| `SchedulerEngine.Engine.TryAssign` | internal/scheduler/engine.go:459-579 | Refines one try of a claim: screening, preemption, policy, lease |
| `AssignmentLaws.ServedIff` | internal/scheduler/engine.go:459-579 | A claim is served iff the store answers, the job runs, the task is queued, past its backoff and its dependencies completed, no other worker is the better choice, the worker has room or a lower-priority task to give up, and the policy permits it |
| `SchedulerEngine.Engine.SortClaimed` | internal/scheduler/engine.go:409-421 | Sorts the claims in the specified order, looking tasks up in the store; `ClaimOrder.TriedInOrder` says what that order is |
| `SchedulerEngine.Engine.AssignClaims` | internal/scheduler/engine.go:424-444 | The loop files every claim as handed out, not ready or failed, as specified |
| `SchedulerEngine.Engine.PollAssignments` | internal/scheduler/engine.go:374-457 | Refines the poll step, for orders that really list the in-flight claims and the tasks |
| `SchedulerEngine.Engine.ReportTaskResult` | internal/scheduler/engine.go:880-1017 | Refines the report step, and answers with the specified verdict; `RecordLaws.ReportStored` says what is stored |
| `RecordLaws.ReportAcceptedIff` | internal/scheduler/engine.go:880-906 | A report is accepted iff task and job are known, the job is neither canceled nor archived, its key is empty or not the last one accepted, and its lease and the task's agree where both are given; else nothing changes |
| `RecordLaws.ReportStored` | internal/scheduler/engine.go:908-940 | An accepted report stores its output URI and key, ends the lease, and makes the task Running, Completed, queued for a retry, or Failed; other tasks are unchanged |
| `RecordLaws.ReportQueues` | internal/scheduler/engine.go:925-980 | It queues exactly the task itself for a retry, or after a completion the job's tasks that are ready then |
| `SchedulerEngine.Engine.LearnModel` | internal/scheduler/engine.go:944-959 | A completed model_download adds its model to the reporting worker, once |
| `RecordLaws.DownloadLearned` | internal/scheduler/engine.go:944-959 | After a completed download the reporting worker is known to hold the model, listed once more only if it was not before; nothing else of any worker changes |
| `RecordLaws.OnlyDownloadsTeach` | internal/scheduler/engine.go:944-959 | No other report changes what is known of workers |
| `SchedulerEngine.Engine.FindReady` | internal/scheduler/engine.go:967-980 | The loop finds exactly the job's queued tasks whose dependencies are completed |
| `SchedulerEngine.Engine.RequeueDeadLetters` | internal/scheduler/engine.go:1069-1071 | Refines the revive step and returns how many refs it moved |
| `EngineRuns.Perform` | internal/scheduler/engine.go:139-1071 | Every call on the engine object is a legal step of the state machine |
| `EngineRuns.Serve` | internal/scheduler/engine.go:139-1071 | Every history of calls on a new engine object is a run, so its runnable tasks are never lost |
| `MemoryStore.MemoryStore.CreateJobWithTasks` | internal/state/memory_store.go:31-50 | Replaces the job's tasks by the given records, later ones overwriting earlier ones |
| `MemoryStore.MemoryStore.UpdateTask` | internal/state/memory_store.go:105-114 | Writes one record of the two-level table, stamped with the time, and nothing else |
| `MemoryStore.MemoryStore.CountJobsByTenantStatus` | internal/state/memory_store.go:67-81 | The loop counts exactly the jobs of that tenant (any, if empty) and status |
| `MemoryStore.MemoryStore.CountTasksByTenantStatus` | internal/state/memory_store.go:116-136 | The nested loop counts exactly the tasks of existing jobs of that tenant and status |
| `MemoryStore.MemoryStore.ListTasksByJob` | internal/state/memory_store.go:83-92 | Lists each record of the job once |
| `MemoryStore.MemoryStore.ListExpiredLeasedTasks` | internal/state/memory_store.go:138-154 | Lists exactly the leased records past their expiry, in the order the table is ranged over |
| `MemoryStore.MemoryStore.ListTasksByWorkerStatus` | internal/state/memory_store.go:217-233 | Lists exactly the worker's records (everyone's, if empty) of that status |
| `MemoryStore.MemoryStore.UpdateWorkerHeartbeat` | internal/state/memory_store.go:183-198 | Stores the reported load, in a new record for an unknown worker; an empty health becomes healthy |
| `MemoryQueue.MemoryQueue.Claim` | internal/state/memory_queue.go:56-90 | The loop takes refs from the front under new receipts, as the model's Claims does |
| `MemoryQueue.MemoryQueue.Ack` | internal/state/memory_queue.go:92-103 | Ends the claims and forgets their nack counts |
| `MemoryQueue.MemoryQueue.Nack` | internal/state/memory_queue.go:105-130 | Returns refs to the list, or after five error nacks to the dead letters |
| `MemoryQueue.MemoryQueue.RequeueExpired` | internal/state/memory_queue.go:132-151 | Releases the expired claims, at most max of them, in the order the in-flight map is ranged over |
| `MemoryQueue.MemoryQueue.RequeueDeadLetters` | internal/state/memory_queue.go:164-192 | Splits the dead letters by request counts and returns the number moved |
| `QueueLaws.RunConserves` | internal/state/memory_queue.go:42-192 | Over any run of the memory queue: enqueued refs equal pending, claimed, dead and acked refs, as multisets |
| `QueueLaws.StepConserves` | internal/state/memory_queue.go:42-192 | Conservation for each single operation |
| `QueueLaws.RunReceiptsDistinct` | internal/state/memory_queue.go:74-85 | Two claims of a run never carry the same receipt |
| `QueueLaws.ReceiptInjective` | internal/state/memory_queue.go:74-75 | Receipts with different numbers differ, whatever the consumers are called |
| `QueueLaws.ClaimsShape` | internal/state/memory_queue.go:71-86 | The i-th claim is the i-th waiting ref, under the next receipt, held for the time asked or 15 seconds |
| `QueueLaws.ClaimFiled` | internal/state/memory_queue.go:78-85 | Every claim returned is filed in flight under its receipt |
| `QueueLaws.TakeRequestedLaw` | internal/state/memory_queue.go:164-186 | Reviving loses no dead letter and takes the multiset intersection of requested and dead keys |
| `QueueLaws.SweepReleases` | internal/state/memory_queue.go:132-151 | A sweep puts back only claims whose time is up, stops early only at its limit, and leaves the others as they were |
| `StrikeLaws.RunStrikes` | internal/state/memory_queue.go:105-130 | In every state of every run the stored count of a key is the number of its error nacks since its last ack, modulo five |
| `StrikeLaws.DeadAtFifth` | internal/state/memory_queue.go:105-130 | So a nack makes a ref dead iff it is an error and the fifth, tenth and so on since the last ack; otherwise the ref waits again |
| `RedisQueue.RedisQueue.EnqueueMany` | internal/state/redis_queue.go:61-81 | LPUSH of the encoded refs |
| `RedisQueue.RedisQueue.Claim` | internal/state/redis_queue.go:83-144 | The loop of RPOP, HSET and ZADD; undecodable payloads go to the dead list |
| `RedisQueue.RedisQueue.Ack` | internal/state/redis_queue.go:146-186 | HDEL, ZREM and HDEL of the nack count for each claim |
| `RedisQueue.RedisQueue.Nack` | internal/state/redis_queue.go:188-258 | Back to pending, or to the dead list at the maximum; unknown receipts are skipped |
| `RedisQueue.RedisQueue.RequeueExpired` | internal/state/redis_queue.go:260-311 | Releases what ZRANGEBYSCORE answers |
| `RedisQueue.RedisQueue.RequeueDeadLetters` | internal/state/redis_queue.go:344-391 | LREM, LPUSH and HDEL for each ref found dead, counted |
| `RedisLaws.RunPaired` | internal/state/redis_queue.go:83-311 | In every state of every run the claims hash and the visibility set hold the same receipts |
| `RedisLaws.RunBalances` | internal/state/redis_queue.go:61-391 | Over any run: enqueued payloads equal pending, claimed, dead, acked and overwritten payloads, as multisets |
| `RedisLaws.RunConserves` | internal/state/redis_queue.go:61-391 | Over any run, enqueued payloads equal pending, claimed, dead and acked ones if and only if no claim overwrote another |
| `RedisLaws.DistinctReadingsLoseNothing` | internal/state/redis_queue.go:97-119 | If no two Claim calls of one consumer read the same clock in the same turn, nothing is overwritten |
| `RedisLaws.SameReadingLoses` | internal/state/redis_queue.go:119-121 | A run in which two calls read the same clock: the first payload is gone, though nobody acked it |
| `RedisLaws.TakeLastConserves` | internal/state/redis_queue.go:98-133 | A claim loses exactly what its receipt already held: nothing iff it is new |
| `RedisLaws.ReceiptInjective` | internal/state/redis_queue.go:119-119 | Receipts agree iff consumer, clock reading and turn agree, whatever colons the consumers' names hold |
| `RedisLaws.ReviveConserves` | internal/state/redis_queue.go:354-383 | Requeueing dead letters conserves payloads, and the count returned is by how much the dead list shrank |
| `RedisLaws.EnqueueThenClaim` | internal/state/redis_queue.go:61-144 | From an empty pending list refs are claimed in the order enqueued, with their ids intact |
| `RedisLaws.ClaimTimes` | internal/state/redis_queue.go:83-144 | A claim is held for the time asked or 15 seconds, and filed under that time in milliseconds |
| `RedisLaws.SweepReleases` | internal/state/redis_queue.go:260-311 | A sweep puts back only payloads whose time is up, stops early only at its limit (100 by default), and leaves the other claims alone |
| `RedisStrikes.RunStrikes` | internal/state/redis_queue.go:188-258 | In every state of every run under one maximum the stored count of a payload is the number of its error nacks since it was last acked or revived, modulo that maximum |
| `RedisStrikes.DeadAtMax` | internal/state/redis_queue.go:188-258 | So a nack sends a payload to the dead list iff it is an error and fills up the maximum |
| `RedisEngine.NoRunnableTaskLost` | internal/scheduler/engine.go:374-457 | An engine over Redis, fed job ids without a bar: in every state of every run no claim is outstanding and the text of each ready task's ref is pending or dead, however the clock behind the receipts runs |
| `RedisEngine.PerformSound` | internal/scheduler/engine.go:139-1071 | Each engine call over Redis keeps that |
| `RedisEngine.ClaimsFiled` | internal/state/redis_queue.go:97-141 | Every claim of a call is filed under its receipt with the text of its ref, even at one clock reading |
| `RedisEngine.OnlyWellFormedHandedOut` | internal/state/redis_queue.go:113-117 | A poll over Redis hands out only tasks with non-empty ids and no bar in the job id |
| `RedisRuns.NoDeadlock` | internal/scheduler/engine.go:961-1016 | Over Redis too, whatever reports arrive, a Running job with a closed, ranked graph and nothing assigned or running has a ready task whose text is pending or dead |
| `RedisRuns.SubmittedJobNeverStuck` | internal/scheduler/engine.go:139-236 | The same for every later state of a job submitted over Redis with a closed, acyclic graph, given unique job ids |
| `RedisRuns.HandOutsFair` | internal/scheduler/engine.go:477-551 | Over Redis every hand-out of a run is of an open job, with all dependencies completed and their outputs among the inputs |
| `RedisModel.DecodeEncode` | internal/state/redis_queue.go:591-601 | decodeTaskRef inverts encodeTaskRef iff both ids are non-empty and the job id has no bar |
| `RedisModel.Decode` | internal/state/redis_queue.go:595-601 | Whatever decodes, encodes back to the text it came from |
| `Resp.Conn.WriteResp` | internal/state/redis_queue.go:494-504 | Appends exactly the framed command to the stream |
| `Resp.Conn.ReadResp` | internal/state/redis_queue.go:506-563 | Reads one reply as the parser specifies, on all inputs, and terminates |
| `Resp.CommandRoundTrip` | internal/state/redis_queue.go:494-563 | Reading a written command returns the same strings, for all bytes including CR LF, and consumes exactly those bytes |
| `Resp.BulkRoundTrip` | internal/state/redis_queue.go:518-531 | The same for one bulk string |
| `Resp.StreamRoundTrip` | internal/state/redis_queue.go:494-563 | A stream of commands reads back in order with nothing left over |
| `Resp.CommandsSelfDelimiting` | internal/state/redis_queue.go:494-504 | No command is a prefix of a different one |
| `Resp.CommandBytes` | internal/state/redis_queue.go:494-504 | The bytes of a command |
| `Resp.RepliesRead` | internal/state/redis_queue.go:506-563 | Status, number, error and nil replies read as such, whatever follows |
| `GraphRewrite.InjectModelInstallTasks` | internal/api/server.go:1399-1457 | The loops compute the specified rewrite |
| `GraphRewrite.InjectModelBackend` | internal/api/server.go:1459-1476 | The loop sets the backend exactly where an llm_inference task has none |
| `GraphRewrite.InjectJobSpread` | internal/api/server.go:1478-1489 | The loop marks every task |
| `GraphRewrite.InstallWrites` | internal/api/server.go:1399-1457 | The install task's fields and inputs, and what each other task gets: the two inputs and the dependency if it asks for a model, else nothing |
| `GraphRewrite.InstallWritesNothing` | internal/api/server.go:1399-1413 | Without a model to install or a task asking for one the graph is unchanged |
| `GraphRewrite.FlagsWritten` | internal/api/server.go:1459-1489 | A task asking for a model gets the backend iff it names none; the spread flag goes to all; other inputs are kept |
| `GraphRewrite.InstallKeepsGraph` | internal/api/server.go:1399-1457 | Given an unused id, the rewrite keeps ids unique, dependencies closed and the graph acyclic, and every llm_inference task comes to depend on the install task |
| `GraphRewrite.InstallUniqueIff` | internal/api/server.go:1416-1423 | Ids stay unique iff not both install ids are taken |
| `GraphRewrite.InstallAcyclicIff` | internal/api/server.go:1416-1455 | The rewritten graph is acyclic iff the given one is and the task already carrying the install task's id reaches no llm_inference task of another id through dependencies |
| `GraphRewrite.TakenFallbackBreaksGraph` | internal/api/server.go:1416-1423 | A sound graph with both ids taken is rewritten to one with a repeated id and a cycle |
| `GraphRewrite.TakenFallbackMayStayAcyclic` | internal/api/server.go:1416-1423 | A graph with both ids taken is rewritten to an acyclic one with a repeated id |
| `GraphRewrite.ShapeKeepsGraph` | internal/api/server.go:1459-1489 | The backend and spread rewrites keep ids, closedness and rank |
| `JobRuns.InstallPrecedesInference` | internal/api/server.go:1399-1457 | In every run, an llm_inference task of a rewritten job is handed out only when the install task is completed and its inputs carry every dependency's output |
| `SlidingWindow.WindowBound` | internal/api/rate_limit.go:38-65 | A log of entries each accepted within the maximum has no window above it, wherever it starts |
| `RateLimit.SubmitLimiter.Allow` | internal/api/rate_limit.go:38-65 | The pruned limiter decides exactly as the one that counts its whole log, and keeps that log |
| `RateLimit.TrimCutoff` | internal/api/rate_limit.go:67-81 | Drops exactly the leading entries at or before the cutoff, from any list |
| `RateLimit.TrimLeadingRecent` | internal/api/rate_limit.go:67-81 | On a list that never falls, what is left is exactly the recent entries |
| `RateLimit.PrunedTrim` | internal/api/rate_limit.go:49-54 | Trimming a stored history leaves exactly the recent entries of the full log |
| `RateLimit.NoWindowExceeds` | internal/api/rate_limit.go:38-65 | No 60-second window exceeds the tenant or the global maximum |
| `RateLimit.AllowedIff` | internal/api/rate_limit.go:38-65 | A request is accepted iff in the last 60 seconds fewer than the maximum were, of all tenants and of its own, counted one by one |
| `AdminSafety.AdminLimiter.Compact` | internal/api/admin_safety.go:34-40 | The in-place compaction over the array's own storage keeps exactly the recent entries, in order |
| `AdminSafety.AdminLimiter.AllowRequeue` | internal/api/admin_safety.go:28-47 | Decides exactly as counting the whole log over the closed window would |
| `AdminSafety.AdminLimiter.NoWindowExceeds` | internal/api/admin_safety.go:28-47 | No closed 60-second window holds more requeues than the limit |
| `AdminSafety.LimitIff` | internal/api/admin_safety.go:28-47 | Within the limit means fewer than that many let through in the last 60 seconds, both ends counted |
| `DeadLetterAdmin.CountMatchingRefs` | internal/api/server.go:1383-1397 | The two loops compute the size of the multiset intersection of keys |
| `DeadLetterAdmin.MovedIsMatching` | internal/state/memory_queue.go:164-192 | A requeue moves as many refs as that intersection has |
| `DeadLetterAdmin.DryRunPredicts` | internal/api/server.go:1174-1190 | The dry run never exceeds what the requeue moves, and equals it iff every key among the dead letters it did not look at is listed as often as requested |
| `DeadLetterAdmin.DryRunExactWhenShort` | internal/api/server.go:1174-1190 | It is exact with at most four dead letters per request entry |
| `DeadLetterAdmin.DryRunCanFallShort` | internal/api/server.go:1174-1190 | A fifth dead letter is moved though the dry run counts none |
| `WorkerRuntime.PollAndRun` | worker/internal/runtime/runtime.go:86-139 | The loop sends the specified reports for a poll's assignments |
| `WorkerRuntime.SentInOrder` | worker/internal/runtime/runtime.go:94-121 | For each assignment in order, the Running report stands directly before the final one |
| `WorkerRuntime.ReportsLand` | worker/internal/runtime/runtime.go:86-139 | The two reports for an assignment still held are both accepted: the task runs under the worker, then completes with the artifact's URI, or gives the attempt back |
| `WorkerRuntime.ReportKeysDiffer` | worker/internal/runtime/runtime.go:174-176 | For one task, report keys agree only if worker, attempt and phase all agree |
| `WorkerRuntime.GenuineReportNotReplay` | worker/internal/runtime/runtime.go:94-112 | So a genuine later report is never taken for a replay |
| `Vectors.NormalizeL2` | worker/internal/executor/executor.go:1288-1300 | Divides the vector in place by its norm, or leaves a zero vector alone |
| `Vectors.NormalizedUnit` | worker/internal/executor/executor.go:1288-1300 | The result has squared length 1 (0 for a zero vector) and no entry turns negative |
| `Vectors.CosineSimilarity` | worker/internal/executor/executor.go:1302-1311 | The loop computes the dot product, 0 for empty or unequal lengths |
| `Vectors.EmbedText` | worker/internal/executor/executor.go:1240-1262 | Summing the weights of the distinct tokens, in any order, gives each slot its share of all tokens, normalised |
| `Vectors.CosineRange` | worker/internal/executor/executor.go:1302-1311 | The cosine of two embeddings lies in [0, 1] |
| `Vectors.CosineOfSame` | worker/internal/executor/executor.go:1240-1311 | A text with words is at cosine 1 to itself |
| `Retrieval.TokenOverlapScore` | worker/internal/executor/executor.go:1215-1238 | The loops compute common tokens over all distinct tokens |
| `Retrieval.OverlapRange` | worker/internal/executor/executor.go:1215-1238 | The overlap lies in [0, 1] |
| `Retrieval.FilterDocsByMetadata` | worker/internal/executor/executor.go:1189-1200 | Keeps exactly the matching documents, in order |
| `Retrieval.MatchesFilters` | worker/internal/executor/executor.go:1202-1213 | True iff every filter key is present with an equal value, up to space and case |
| `Retrieval.ScoreRange` | worker/internal/executor/executor.go:1140-1153 | Vector, lexical and hybrid scores all lie in [0, 1] |
| `Retrieval.RetrieveLocalHybrid` | worker/internal/executor/executor.go:1120-1169 | Returns exactly min(topK, matching) hits (topK defaulting to 5), best first, and with what it leaves out they are the scored matches as a multiset; nothing left out scores higher; an empty query gives nothing |
| `Retrieval.ReturnedMatch` | worker/internal/executor/executor.go:1120-1169 | Every returned document was given, passes the filters and is scored in [0, 1]; no omitted match scores higher |
| `RetrievalLaws.WordsOf` | worker/internal/executor/executor.go:1264-1277 | A word is its own in lower case, and anything else than a letter or digit parts words |
| `RetrievalLaws.OverlapMeaning` | worker/internal/executor/executor.go:1215-1238 | The overlap is the common words over all words; 1 iff the words are the same, 0 iff none is shared; symmetric |
| `RetrievalLaws.CosineMeaning` | worker/internal/executor/executor.go:1240-1311 | Two texts have a positive cosine iff some word of one falls into the slot of a word of the other; symmetric |
| `RetrievalLaws.MixedScore` | worker/internal/executor/executor.go:1140-1153 | Seven tenths of the score are the cosine over 128 slots, three tenths the overlap |
| `RetrievalLaws.ExtremeScores` | worker/internal/executor/executor.go:1140-1153 | A document with the query's own words scores 1; one scores 0 iff it shares no slot with the query |
| `RetrievalLaws.OmittedNotBetter` | worker/internal/executor/executor.go:1154-1169 | What a returned document lacks in cosine against an omitted match it makes up for in overlap, at seven to three |

## Left out

- HTTP handlers, SSE, OpenAI compatibility, the CLI, controllers, the planner and the model router: no deep property.
- `internal/state/postgres_store.go`: SQL behind a driver; the memory store stands for the store.
- Interleaving inside one engine call, mutexes, and an engine call that reads the clock more than once.
- Store failures after the first write of a call: `Choice.fault` fails a claim before anything is written.
- Redis sockets, AUTH and SELECT, failed commands and crashes between commands: each command succeeds on an abstract list, hash or sorted set.
- RESP lengths that exceed what memory can hold, and the addition n + 2 at the top of the 64-bit range; a length below -1 is the outcome `Crash`.
- Job messages, task errors, result URIs of jobs, the jobs' time stamps, audit rows, tracing and metrics: not in the state.
- 64-bit overflow of counters, durations and times.
- Unicode: trimming, case folding and tokenising are modelled on ASCII.
- Aliasing of Go maps and slices: the graph rewrites return a new graph where the Go code also changes the caller's maps.
- FNV hashes, JSON, YAML and environment variables: hashes are arbitrary functions, configurations are given as values.
- Floating-point rounding: scores, embeddings and norms are exact reals.
- Retrieval.RetrieveLocalHybrid: equal scores keep their input order here, where the library sort may permute them; none of the guarantees depends on it.
- QuotaRuns.WithinIff: leaves aside a poll whose sweep passes the limit and that fails a job by a denial in the same call, because which claims it denies is not settled before the call; the other direction holds there too (`QuotaRuns.WithinUnlessOverrun`).
- Several engines on one Redis, and claims left behind by a crash: `RedisEngine` runs one engine from an empty Redis, as a state machine on values; `SchedulerEngine.Engine` is the object over the memory store and queue.
- Over Redis only these are stated: no loss, no deadlock, fair hand-outs. The other theorems about runs are stated for the memory queue.
- The planner's templates, remote retrieval, model calls and the sandbox in the worker.
