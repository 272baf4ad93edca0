/** The scheduler engine as a state machine (internal/scheduler/engine.go over the memory store and queue).

    Each engine call is one atomic step that reads the clock once.  Where the code ranges over a Go map, the
    order of the entries is an argument (`listing`), so a step covers every order.  `log` and `clock` are history:
    they record what was handed out, preempted, lapsed and accepted, and the latest time read. */
module Scheduler {
  import opened Text
  import opened Records
  import opened Leases
  import opened Placement
  import opened Dag
  import Q = QueueModel
  import Policy
  import Sorting

  datatype Config = Config(
    leaseNanos: int,
    preempt: bool,
    policy: Policy.Engine,
    weights: Weights,
    tie: (string, string) -> nat)

  /** What NewEngine is given; a weight of zero, a lease that is not positive and an absent policy mean the default. */
  datatype Options = Options(
    leaseNanos: int,
    policy: Option<Policy.Engine>,
    weights: Weights,
    preempt: bool,
    preemptSet: bool)

  const DEFAULT_LEASE := 15 * SECOND
  const DEFAULT_WEIGHTS := Weights(1.0, 1.5, 1.0, 0.15, 1.0, 0.05, 0.05, 0.6)

  function OrDefault(w: real, default: real): real { if w == 0.0 then default else w }

  function FilledIn(w: Weights): Weights {
    Weights(
      OrDefault(w.capabilityMatch, DEFAULT_WEIGHTS.capabilityMatch),
      OrDefault(w.modelWarmCache, DEFAULT_WEIGHTS.modelWarmCache),
      OrDefault(w.localityScore, DEFAULT_WEIGHTS.localityScore),
      OrDefault(w.queuePenalty, DEFAULT_WEIGHTS.queuePenalty),
      OrDefault(w.latencyPrediction, DEFAULT_WEIGHTS.latencyPrediction),
      OrDefault(w.fairnessPenalty, DEFAULT_WEIGHTS.fairnessPenalty),
      OrDefault(w.waitAgeBonus, DEFAULT_WEIGHTS.waitAgeBonus),
      OrDefault(w.jobSpreadPenalty, DEFAULT_WEIGHTS.jobSpreadPenalty))
  }

  /** NewEngine's configuration, over a given tie hash. */
  function WithDefaults(options: Options, tie: (string, string) -> nat): (c: Config)
    ensures c.leaseNanos > 0
  {
    Config(
      if options.leaseNanos <= 0 then DEFAULT_LEASE else options.leaseNanos,
      !options.preemptSet || options.preempt,
      if options.policy.None? then Policy.ALLOW_ALL else options.policy.value,
      FilledIn(options.weights),
      tie)
  }

  datatype Assignment = Assignment(
    ref: TaskRef, typ: string, inputs: map<string, string>, attempt: int, leaseId: string)

  datatype Event =
    | Submitted(jobId: string)
    | HandedOut(given: Assignment, worker: string, at: int)
    | Preempted(ref: TaskRef)
    | Lapsed(ref: TaskRef)
    | Denied(ref: TaskRef)
    | Accepted(ref: TaskRef, key: string)

  datatype State = State(
    jobs: map<string, Job>,
    tasks: map<TaskRef, Task>,
    workers: map<string, Worker>,
    queue: Q.QueueState,
    log: seq<Event>,
    clock: int)

  const INIT := State(map[], map[], map[], Q.EMPTY, [], 0)

  // ---------- queries over the store ----------

  predicate IsTerminal(status: Status) {
    status == Completed || status == Failed || status == Canceled || status == Archived
  }

  /** Canceled and archived jobs are closed: reports and reconciliation leave them alone. */
  predicate IsClosed(status: Status) { status == Canceled || status == Archived }

  function JobsOf(jobs: map<string, Job>, tenant: string, status: Status): set<string> {
    set j | j in jobs && (tenant == "" || jobs[j].tenant == tenant) && jobs[j].status == status
  }

  function CountJobs(jobs: map<string, Job>, tenant: string, status: Status): nat { |JobsOf(jobs, tenant, status)| }

  function TasksOf(jobs: map<string, Job>, tasks: map<TaskRef, Task>, tenant: string, status: Status): set<TaskRef> {
    set r | r in tasks && r.jobId in jobs
            && (tenant == "" || jobs[r.jobId].tenant == tenant) && tasks[r].status == status
  }

  function CountTasks(s: State, tenant: string, status: Status): nat { |TasksOf(s.jobs, s.tasks, tenant, status)| }

  predicate AnyFailed(tasks: map<TaskRef, Task>, jobId: string) {
    exists r :: r in tasks && r.jobId == jobId && tasks[r].status == Failed
  }

  predicate AllCompleted(tasks: map<TaskRef, Task>, jobId: string) {
    forall r :: r in tasks && r.jobId == jobId ==> tasks[r].status == Completed
  }

  predicate HasTasks(tasks: map<TaskRef, Task>, jobId: string) {
    exists r :: r in tasks && r.jobId == jobId
  }

  /** The status that the tasks of a job give it. */
  function StatusOf(tasks: map<TaskRef, Task>, jobId: string): Status {
    if AnyFailed(tasks, jobId) then Failed
    else if HasTasks(tasks, jobId) && AllCompleted(tasks, jobId) then Completed
    else Running
  }

  predicate DepDone(tasks: map<TaskRef, Task>, jobId: string, dep: string) {
    var r := TaskRef(jobId, dep);
    r in tasks && tasks[r].status == Completed
  }

  predicate DepsDone(tasks: map<TaskRef, Task>, jobId: string, deps: seq<string>) {
    forall i :: 0 <= i < |deps| ==> DepDone(tasks, jobId, deps[i])
  }

  /** A queued task whose dependencies are all completed. */
  predicate Ready(tasks: map<TaskRef, Task>, r: TaskRef) {
    r in tasks && tasks[r].status == Queued && DepsDone(tasks, r.jobId, tasks[r].deps)
  }

  function PriorityRank(priority: string): int {
    var p := Lower(Trim(priority));
    if p == "interactive" || p == "high" then 3
    else if p == "batch" || p == "low" then 1
    else 2
  }

  function TaskRank(t: Task): int { PriorityRank(Get(t.inputs, "_priority")) }

  // ---------- AddJob ----------

  datatype Submission = Submission(
    jobId: string, tenant: string, jobType: string, priority: string, dataClassification: string,
    model: string, networkIsolation: string, tasks: seq<DagTask>)

  function Set(m: map<string, string>, cond: bool, k: string, v: string): map<string, string> {
    if cond then m[k := v] else m
  }

  function WithSubmission(m: map<string, string>, sub: Submission): map<string, string> {
    var m := m["_priority" := sub.priority];
    var m := Set(m, sub.dataClassification != "", "_data_classification", sub.dataClassification);
    var m := Set(m, sub.model != "", "model", sub.model);
    Set(m, sub.networkIsolation != "", "_network_isolation", sub.networkIsolation)
  }

  function WithResources(m: map<string, string>, resources: Option<Resources>): map<string, string> {
    match resources
    case None => m
    case Some(res) =>
      var m := Set(m, res.cpu > 0, "_resource_cpu", IntText(res.cpu));
      var m := Set(m, Trim(res.memory) != "", "_resource_memory", Trim(res.memory));
      Set(m, res.gpu, "_requires_gpu", "true")
  }

  function WithLocality(m: map<string, string>, dataLocality: Option<string>): map<string, string> {
    match dataLocality
    case None => m
    case Some(l) => Set(m, Trim(l) != "", "_data_locality", Trim(l))
  }

  function DecoratedInputs(sub: Submission, t: DagTask): map<string, string> {
    WithLocality(WithResources(WithSubmission(t.inputs, sub), t.resources), t.dataLocality)
  }

  function NewTask(sub: Submission, t: DagTask, now: int): Task {
    Task(t.typ, DecoratedInputs(sub, t), t.deps, Queued, "", "", None, 0, t.maxRetries, t.timeoutSec, "", "", now, now)
  }

  /** A later task with the same id overwrites an earlier one. */
  function PutTasks(tasks: map<TaskRef, Task>, sub: Submission, dag: seq<DagTask>, now: int): map<TaskRef, Task> {
    if |dag| == 0 then tasks
    else
      var last := dag[|dag| - 1];
      PutTasks(tasks, sub, dag[..|dag| - 1], now)[TaskRef(sub.jobId, last.taskId) := NewTask(sub, last, now)]
  }

  function SourceRefs(jobId: string, dag: seq<DagTask>): seq<TaskRef> {
    if |dag| == 0 then []
    else
      var last := dag[|dag| - 1];
      SourceRefs(jobId, dag[..|dag| - 1]) + if |last.deps| == 0 then [TaskRef(jobId, last.taskId)] else []
  }

  function WithoutJob(tasks: map<TaskRef, Task>, jobId: string): map<TaskRef, Task> {
    map r | r in tasks && r.jobId != jobId :: tasks[r]
  }

  function SubmitDecision(cfg: Config, s: State, sub: Submission): Policy.Decision {
    Policy.EvaluateSubmit(cfg.policy, Policy.SubmitInput(sub.tenant, sub.jobType, sub.priority, sub.model,
      sub.dataClassification, CountJobs(s.jobs, sub.tenant, Running)))
  }

  predicate SubmitAllowed(cfg: Config, s: State, sub: Submission) {
    cfg.policy.noop || SubmitDecision(cfg, s, sub).allowed
  }

  function AddJob(cfg: Config, s: State, sub: Submission, now: int): State {
    if !SubmitAllowed(cfg, s, sub) then s.(clock := now)
    else
      var status := if |sub.tasks| > 0 then Running else Queued;
      s.(jobs := s.jobs[sub.jobId := Job(sub.tenant, sub.priority, status)],
         tasks := PutTasks(WithoutJob(s.tasks, sub.jobId), sub, sub.tasks, now),
         queue := Q.Enqueue(s.queue, SourceRefs(sub.jobId, sub.tasks)),
         log := s.log + [Submitted(sub.jobId)],
         clock := now)
  }

  // ---------- CancelJob, ArchiveJob ----------

  function CanceledTask(t: Task, now: int): Task {
    if t.status == Queued || t.status == Running
    then t.(status := Canceled, worker := "", leaseId := "", leaseExpires := None, updatedAt := now)
    else t
  }

  function CancelJob(s: State, jobId: string, now: int): State {
    if jobId !in s.jobs || IsTerminal(s.jobs[jobId].status) then s.(clock := now)
    else
      s.(jobs := s.jobs[jobId := s.jobs[jobId].(status := Canceled)],
         tasks := map r | r in s.tasks :: if r.jobId == jobId then CanceledTask(s.tasks[r], now) else s.tasks[r],
         clock := now)
  }

  function ArchiveJob(s: State, jobId: string, now: int): State {
    if jobId !in s.jobs || !IsTerminal(s.jobs[jobId].status) then s.(clock := now)
    else s.(jobs := s.jobs[jobId := s.jobs[jobId].(status := Archived)], clock := now)
  }

  // ---------- RegisterWorker, Heartbeat ----------

  /** The record a registration stores: what the worker says it has, and no load yet. */
  function Registered(w: Worker): Worker {
    w.(backends := NormalizeBackends(w.backends), health := "healthy",
       queueDepth := 0, runningTasks := 0, cpuUtil := 0.0, memoryUtil := 0.0)
  }

  function RegisterWorker(s: State, id: string, w: Worker, now: int): State {
    s.(workers := s.workers[id := Registered(w)], clock := now)
  }

  datatype Beat = Beat(queueDepth: int, runningTasks: int, cpuUtil: real, memoryUtil: real, health: string)

  /** The worker filter of ListTasksByWorkerStatus: an empty id selects every task. */
  predicate OnWorker(t: Task, worker: string) { worker == "" || t.worker == worker }

  predicate Extendable(t: Task, worker: string, now: int) {
    && OnWorker(t, worker)
    && (t.status == Running || t.status == Assigned)
    && t.leaseId != ""
    && (t.leaseExpires.Some? ==> t.leaseExpires.value > now)
  }

  function Extended(cfg: Config, t: Task, now: int): Task {
    t.(leaseExpires := Some(LeaseExpiry(t, now, cfg.leaseNanos)), updatedAt := now)
  }

  /** The zero record, which a heartbeat of an unknown worker would fill in. */
  const NO_WORKER := Worker(0, false, [], [], [], "", "", 0, 0, 0.0, 0.0)

  function Beaten(w: Worker, b: Beat): Worker {
    w.(queueDepth := b.queueDepth, runningTasks := b.runningTasks, cpuUtil := b.cpuUtil, memoryUtil := b.memoryUtil,
       health := if b.health == "" then "healthy" else b.health)
  }

  function Heartbeat(cfg: Config, s: State, worker: string, b: Beat, now: int): State {
    if worker !in s.workers then s.(clock := now)
    else
      s.(workers := s.workers[worker := Beaten(s.workers[worker], b)],
         tasks := map r | r in s.tasks ::
           if Extendable(s.tasks[r], worker, now) then Extended(cfg, s.tasks[r], now) else s.tasks[r],
         clock := now)
  }

  // ---------- lease expiry ----------

  predicate Expired(t: Task, now: int) {
    (t.status == Running || t.status == Assigned) && t.leaseId != ""
    && t.leaseExpires.Some? && t.leaseExpires.value < now
  }

  predicate TimedOut(t: Task, now: int) {
    t.timeoutSec > 0 && LeaseStart(t.leaseId).Some? && LeaseStart(t.leaseId).value + t.timeoutSec * SECOND <= now
  }

  function ExpiredTask(t: Task, now: int): Task {
    var t := if TimedOut(t, now) && t.attempt > t.maxRetries then t.(status := Failed)
      else t.(status := Queued, leaseExpires := if TimedOut(t, now) then Some(now + RetryBackoff(t.attempt)) else None);
    t.(worker := "", leaseId := "", updatedAt := now)
  }

  function AfterExpiry(tasks: map<TaskRef, Task>, now: int): map<TaskRef, Task> {
    map r | r in tasks :: if Expired(tasks[r], now) then ExpiredTask(tasks[r], now) else tasks[r]
  }

  predicate Affected(tasks: map<TaskRef, Task>, jobId: string, now: int) {
    exists r :: r in tasks && r.jobId == jobId && Expired(tasks[r], now)
  }

  function Reconciled(job: Job, tasks: map<TaskRef, Task>, jobId: string): Job {
    if IsClosed(job.status) then job else job.(status := StatusOf(tasks, jobId))
  }

  /** Expired leases that go back to the queue, in listing order. */
  function Requeued(tasks: map<TaskRef, Task>, listing: seq<TaskRef>, now: int): seq<TaskRef> {
    Filter(listing, (r: TaskRef) => r in tasks && Expired(tasks[r], now) && ExpiredTask(tasks[r], now).status == Queued)
  }

  /** One Lapsed event for each requeued task whose attempt did not time out. */
  function LapseEvents(tasks: map<TaskRef, Task>, requeued: seq<TaskRef>, now: int): seq<Event> {
    if |requeued| == 0 then []
    else
      var r := requeued[|requeued| - 1];
      LapseEvents(tasks, requeued[..|requeued| - 1], now)
      + if r in tasks && !TimedOut(tasks[r], now) then [Lapsed(r)] else []
  }

  function ExpireLeases(s: State, listing: seq<TaskRef>, now: int): State {
    var tasks := AfterExpiry(s.tasks, now);
    var requeued := Requeued(s.tasks, listing, now);
    s.(tasks := tasks,
       jobs := map j | j in s.jobs ::
         if Affected(s.tasks, j, now) then Reconciled(s.jobs[j], tasks, j) else s.jobs[j],
       queue := Q.Enqueue(s.queue, requeued),
       log := s.log + LapseEvents(s.tasks, requeued, now))
  }

  // ---------- assignment ----------

  /** What the environment decides while one claim is tried: whether the store fails to answer,
      and the orders in which workers and tasks are listed. */
  datatype Choice = Choice(fault: bool, workers: seq<string>, tasks: seq<TaskRef>)

  const NO_CHOICE := Choice(false, [], [])

  function ChoiceAt(choices: seq<Choice>, i: nat): Choice {
    if i < |choices| then choices[i] else NO_CHOICE
  }

  /** The tasks of one job that share a dependency key, and so can run side by side. */
  function Stage(tasks: map<TaskRef, Task>, jobId: string, key: string): set<TaskRef> {
    set r | r in tasks && r.jobId == jobId && StageKey(tasks[r].deps) == key
  }

  function OnStage(tasks: map<TaskRef, Task>, jobId: string, key: string, worker: string): set<TaskRef> {
    set r | r in Stage(tasks, jobId, key) && Trim(tasks[r].worker) != "" && tasks[r].worker == worker
  }

  function StageUse(s: State, ref: TaskRef, worker: string): nat
    requires ref in s.tasks
  {
    |OnStage(s.tasks, ref.jobId, StageKey(s.tasks[ref].deps), worker)|
  }

  predicate SpreadStage(s: State, ref: TaskRef)
    requires ref in s.tasks
  {
    && ParseBool(Get(s.tasks[ref].inputs, "_job_spread"))
    && |Stage(s.tasks, ref.jobId, StageKey(s.tasks[ref].deps))| > 1
  }

  predicate EligibleFor(s: State, ref: TaskRef, id: string)
    requires ref in s.tasks
  {
    id in s.workers && Eligible(s.tasks[ref], id, s.workers[id], InventoryOf(s.tasks[ref], s.workers))
  }

  function ScoreFor(cfg: Config, s: State, ref: TaskRef, id: string, now: int): real
    requires ref in s.tasks && ref.jobId in s.jobs
  {
    if id !in s.workers then 0.0
    else Score(cfg.weights, s.tasks[ref], s.workers[id], CountTasks(s, s.jobs[ref.jobId].tenant, Running),
               StageUse(s, ref, id), SpreadStage(s, ref), now)
  }

  function TaskKey(ref: TaskRef): string { ref.jobId + "|" + ref.taskId }

  /** bestWorkerForTask: "" when no worker is eligible. */
  function BestWorker(cfg: Config, s: State, ref: TaskRef, listing: seq<string>, now: int): string
    requires ref in s.tasks && ref.jobId in s.jobs
  {
    var best := Select(listing,
                       id => EligibleFor(s, ref, id),
                       id => ScoreFor(cfg, s, ref, id, now),
                       id => cfg.tie(TaskKey(ref), id), NoBest);
    if best.Best? then best.id else ""
  }

  function Capacity(w: Worker): int {
    if w.cpu <= 0 then 1
    else
      var c := if w.cpu / 4 < 1 then 1 else w.cpu / 4;
      var c := if w.gpu && c < 2 then 2 else c;
      if c > 16 then 16 else c
  }

  predicate AtCapacity(w: Worker) { w.runningTasks >= Capacity(w) }

  predicate Occupies(s: State, worker: string, r: TaskRef) {
    r in s.tasks && OnWorker(s.tasks[r], worker) && (s.tasks[r].status == Running || s.tasks[r].status == Assigned)
  }

  function UpdatedAt(s: State, r: TaskRef): int { if r in s.tasks then s.tasks[r].updatedAt else 0 }

  function FirstLower(s: State, candidates: seq<TaskRef>, rank: int): (v: Option<TaskRef>)
    ensures v.Some? ==> v.value in candidates && v.value in s.tasks && TaskRank(s.tasks[v.value]) < rank
    ensures v.None? ==> forall r :: r in candidates && r in s.tasks ==> TaskRank(s.tasks[r]) >= rank
  {
    if |candidates| == 0 then None
    else
      assert candidates == [candidates[0]] + candidates[1..];
      if candidates[0] in s.tasks && TaskRank(s.tasks[candidates[0]]) < rank then Some(candidates[0])
      else FirstLower(s, candidates[1..], rank)
  }

  /** tryPreemptLowerPriority's choice: the least recently updated task of lower priority on the worker. */
  function Victim(s: State, worker: string, rank: int, listing: seq<TaskRef>): (v: Option<TaskRef>)
    ensures v.Some? ==> Occupies(s, worker, v.value) && TaskRank(s.tasks[v.value]) < rank
  {
    var candidates := Filter(listing, r => Occupies(s, worker, r));
    var older := (a: TaskRef, b: TaskRef) => UpdatedAt(s, a) < UpdatedAt(s, b);
    Sorting.SortMembers(candidates, older);
    FirstLower(s, Sorting.StableSort(candidates, older), rank)
  }

  function Preempt(s: State, v: TaskRef, now: int): State
    requires v in s.tasks
  {
    s.(tasks := s.tasks[v := s.tasks[v].(status := Queued, worker := "", leaseId := "", leaseExpires := None, updatedAt := now)],
       queue := Q.Enqueue(s.queue, [v]),
       log := s.log + [Preempted(v)])
  }

  predicate Runnable(s: State, ref: TaskRef, now: int) {
    && ref.jobId in s.jobs && s.jobs[ref.jobId].status == Running
    && ref in s.tasks && s.tasks[ref].status == Queued
    && (s.tasks[ref].leaseExpires.Some? ==> s.tasks[ref].leaseExpires.value <= now)
    && DepsDone(s.tasks, ref.jobId, s.tasks[ref].deps)
  }

  function AssignmentDecision(cfg: Config, s: State, ref: TaskRef, w: Worker): Policy.Decision
    requires ref in s.tasks && ref.jobId in s.jobs
  {
    var t := s.tasks[ref];
    Policy.EvaluateAssignment(cfg.policy, Policy.AssignmentInput(s.jobs[ref.jobId].tenant, t.typ, Get(t.inputs, "model"),
      Get(t.inputs, "_data_classification"), Get(t.inputs, "_network_isolation"), w.locality, w.gpu,
      CountTasks(s, s.jobs[ref.jobId].tenant, Running)))
  }

  function Deny(s: State, ref: TaskRef, now: int): State
    requires ref in s.tasks && ref.jobId in s.jobs
  {
    s.(tasks := s.tasks[ref := s.tasks[ref].(status := Failed, updatedAt := now)],
       jobs := s.jobs[ref.jobId := s.jobs[ref.jobId].(status := Failed)],
       log := s.log + [Denied(ref)])
  }

  function DepKey(dep: string): string { "dep:" + dep + ":output_uri" }

  function OutputOf(tasks: map<TaskRef, Task>, jobId: string, dep: string): string {
    var r := TaskRef(jobId, dep);
    if r in tasks then tasks[r].outputUri else ""
  }

  function WithDepOutputs(inputs: map<string, string>, tasks: map<TaskRef, Task>, jobId: string, deps: seq<string>): map<string, string> {
    if |deps| == 0 then inputs
    else
      var last := deps[|deps| - 1];
      WithDepOutputs(inputs, tasks, jobId, deps[..|deps| - 1])[DepKey(last) := OutputOf(tasks, jobId, last)]
  }

  function LeasedTask(cfg: Config, t: Task, taskId: string, worker: string, now: int): Task {
    var t := t.(status := Assigned, worker := worker, attempt := t.attempt + 1,
                leaseId := NewLeaseId(worker, taskId, t.attempt + 1, now), updatedAt := now);
    t.(leaseExpires := Some(LeaseExpiry(t, now, cfg.leaseNanos)))
  }

  function AssignmentOf(s: State, ref: TaskRef, worker: string, now: int): Assignment
    requires ref in s.tasks
  {
    var t := s.tasks[ref];
    Assignment(ref, t.typ, WithDepOutputs(t.inputs, s.tasks, ref.jobId, t.deps), t.attempt + 1,
               NewLeaseId(worker, ref.taskId, t.attempt + 1, now))
  }

  function HandOut(cfg: Config, s: State, ref: TaskRef, worker: string, now: int): State
    requires ref in s.tasks
  {
    s.(tasks := s.tasks[ref := LeasedTask(cfg, s.tasks[ref], ref.taskId, worker, now)],
       log := s.log + [HandedOut(AssignmentOf(s, ref, worker, now), worker, now)])
  }

  datatype TryResult = NotReady | StoreFault | Given(a: Assignment)

  /** Policy check, then the lease. */
  function Grant(cfg: Config, s: State, worker: string, ref: TaskRef, now: int): (State, TryResult)
    requires ref in s.tasks && ref.jobId in s.jobs && worker in s.workers
  {
    if !cfg.policy.noop && !AssignmentDecision(cfg, s, ref, s.workers[worker]).allowed
    then (Deny(s, ref, now), NotReady)
    else (HandOut(cfg, s, ref, worker, now), Given(AssignmentOf(s, ref, worker, now)))
  }

  /** What the checks before the policy decide: refuse the claim, or go ahead, possibly after preempting a task. */
  datatype Screening = Refuse(result: TryResult) | GoAhead(victim: Option<TaskRef>)

  predicate ScreeningOk(s: State, worker: string, ref: TaskRef, now: int, sc: Screening) {
    if sc.Refuse? then !sc.result.Given?
    else
      && Runnable(s, ref, now) && worker in s.workers
      && (sc.victim.Some? ==>
            Occupies(s, worker, sc.victim.value) && TaskRank(s.tasks[sc.victim.value]) < TaskRank(s.tasks[ref]))
  }

  function Screen(cfg: Config, s: State, worker: string, ref: TaskRef, now: int, c: Choice): (sc: Screening)
    ensures ScreeningOk(s, worker, ref, now, sc)
  {
    if c.fault then Refuse(StoreFault)
    else if !Runnable(s, ref, now) then Refuse(NotReady)
    else
      var best := BestWorker(cfg, s, ref, c.workers, now);
      if (best != "" && best != worker) || worker !in s.workers then Refuse(NotReady)
      else if cfg.preempt && AtCapacity(s.workers[worker]) then
        var v := Victim(s, worker, TaskRank(s.tasks[ref]), c.tasks);
        if v.None? then Refuse(NotReady) else GoAhead(v)
      else GoAhead(None)
  }

  function CarryOut(cfg: Config, s: State, worker: string, ref: TaskRef, now: int, sc: Screening): (State, TryResult)
    requires ScreeningOk(s, worker, ref, now, sc)
  {
    match sc
    case Refuse(r) => (s, r)
    case GoAhead(None) => Grant(cfg, s, worker, ref, now)
    case GoAhead(Some(v)) => Grant(cfg, Preempt(s, v, now), worker, ref, now)
  }

  function TryAssign(cfg: Config, s: State, worker: string, ref: TaskRef, now: int, c: Choice): (State, TryResult) {
    CarryOut(cfg, s, worker, ref, now, Screen(cfg, s, worker, ref, now, c))
  }

  // ---------- PollAssignments ----------

  function ClaimRank(s: State, ref: TaskRef): int {
    if ref in s.tasks then TaskRank(s.tasks[ref]) else 0
  }

  function ClaimCreated(s: State, ref: TaskRef): int {
    if ref in s.tasks then s.tasks[ref].createdAt else 0
  }

  function RefText(ref: TaskRef): string { ref.jobId + "/" + ref.taskId }

  /** The order claims are tried in: priority, then age, then the tie hash. */
  predicate ClaimBefore(cfg: Config, s: State, a: Claim, b: Claim) {
    if ClaimRank(s, a.ref) != ClaimRank(s, b.ref) then ClaimRank(s, a.ref) > ClaimRank(s, b.ref)
    else if ClaimCreated(s, a.ref) == ClaimCreated(s, b.ref) then
      cfg.tie(RefText(a.ref), a.claimedBy) > cfg.tie(RefText(b.ref), b.claimedBy)
    else ClaimCreated(s, a.ref) < ClaimCreated(s, b.ref)
  }

  function SortClaims(cfg: Config, s: State, claims: seq<Claim>): seq<Claim> {
    Sorting.StableSort(claims, (a, b) => ClaimBefore(cfg, s, a, b))
  }

  datatype Acc = Acc(s: State, given: seq<Assignment>, acks: seq<Claim>, nacks: seq<Claim>, errs: seq<Claim>)

  /** Files a tried claim: handed out, not ready, or failed. */
  function Record(acc: Acc, claim: Claim, out: (State, TryResult)): (r: Acc)
    ensures r.s == out.0
  {
    match out.1
    case StoreFault => acc.(s := out.0, errs := acc.errs + [claim])
    case NotReady => acc.(s := out.0, nacks := acc.nacks + [claim])
    case Given(a) => acc.(s := out.0, given := acc.given + [a], acks := acc.acks + [claim])
  }

  function AssignOne(cfg: Config, acc: Acc, worker: string, max: int, claim: Claim, now: int, c: Choice): (r: Acc)
    ensures r.s == if |acc.given| >= max then acc.s else TryAssign(cfg, acc.s, worker, claim.ref, now, c).0
  {
    if |acc.given| >= max then acc.(nacks := acc.nacks + [claim])
    else Record(acc, claim, TryAssign(cfg, acc.s, worker, claim.ref, now, c))
  }

  /** The assignment loop over claims[..n]. */
  function AssignAll(cfg: Config, s: State, worker: string, max: int, claims: seq<Claim>, n: nat, now: int, choices: seq<Choice>): Acc
    requires n <= |claims|
  {
    if n == 0 then Acc(s, [], [], [], [])
    else AssignOne(cfg, AssignAll(cfg, s, worker, max, claims, n - 1, now, choices), worker, max,
                   claims[n - 1], now, ChoiceAt(choices, n - 1))
  }

  datatype PollOrders = PollOrders(receipts: seq<string>, tasks: seq<TaskRef>, choices: seq<Choice>)

  datatype PollResult = Unregistered | Polled(assignments: seq<Assignment>)

  function PollMax(max: int): int { if max <= 0 then 1 else max }

  /** The state in which claiming starts: expired claims and expired leases are back in the queue. */
  function Swept(s: State, max: int, now: int, o: PollOrders): State {
    var s := s.(clock := now, queue := Q.RequeueExpired(s.queue, o.receipts, now, PollMax(max) * 8));
    ExpireLeases(s, o.tasks, now)
  }

  function PollClaims(cfg: Config, s: State, worker: string, max: int, now: int): (Q.QueueState, seq<Claim>) {
    Q.Claims(s.queue, Q.ClaimCount(s.queue, PollMax(max) * 32), worker, now, cfg.leaseNanos)
  }

  function Assigning(cfg: Config, swept: State, worker: string, max: int, now: int, o: PollOrders): Acc {
    var (queue, claims) := PollClaims(cfg, swept, worker, max, now);
    var s := swept.(queue := queue);
    var sorted := SortClaims(cfg, s, claims);
    AssignAll(cfg, s, worker, PollMax(max), sorted, |sorted|, now, o.choices)
  }

  function Settle(acc: Acc): State {
    acc.s.(queue := Q.Nack(Q.Nack(Q.Ack(acc.s.queue, acc.acks), acc.nacks, false), acc.errs, true))
  }

  function PollAssignments(cfg: Config, s: State, worker: string, max: int, now: int, o: PollOrders): (State, PollResult) {
    if worker !in s.workers then (s.(clock := now), Unregistered)
    else
      var acc := Assigning(cfg, Swept(s, max, now, o), worker, max, now, o);
      (Settle(acc), Polled(acc.given))
  }

  // ---------- ReportTaskResult ----------

  datatype ReportStatus = SaysRunning | SaysCompleted | SaysOther

  datatype ReportReq = ReportReq(
    worker: string, ref: TaskRef, leaseId: string, key: string, status: ReportStatus, outputUri: string)

  datatype Verdict = Unknown | Ignored | Replay | Stale | Accept

  function Judge(s: State, req: ReportReq): Verdict {
    if req.ref.jobId !in s.jobs || req.ref !in s.tasks then Unknown
    else if IsClosed(s.jobs[req.ref.jobId].status) then Ignored
    else
      var t := s.tasks[req.ref];
      if req.key != "" && t.lastReportKey == req.key then Replay
      else if req.leaseId != "" && t.leaseId != "" && req.leaseId != t.leaseId then Stale
      else Accept
  }

  function ReportedTask(t: Task, req: ReportReq, now: int): Task {
    var t := t.(outputUri := req.outputUri, lastReportKey := req.key, updatedAt := now, leaseId := "", leaseExpires := None);
    match req.status
    case SaysRunning => t.(status := Running, worker := req.worker)
    case SaysCompleted => t.(status := Completed)
    case SaysOther =>
      if t.attempt <= t.maxRetries
      then t.(status := Queued, worker := "", leaseExpires := Some(now + RetryBackoff(t.attempt)))
      else t.(status := Failed)
  }

  /** A finished model_download adds its model to the reporting worker's inventory. */
  function WithModel(workers: map<string, Worker>, t: Task, req: ReportReq): map<string, Worker> {
    var model := Trim(Get(t.inputs, "model"));
    if req.status == SaysCompleted && EqualFold(t.typ, "model_download") && Trim(req.worker) != "" && model != ""
       && req.worker in workers && !ContainsFold(workers[req.worker].models, model)
    then workers[req.worker := workers[req.worker].(models := workers[req.worker].models + [model])]
    else workers
  }

  function ReadyRefs(tasks: map<TaskRef, Task>, jobId: string, listing: seq<TaskRef>): seq<TaskRef> {
    Filter(listing, (r: TaskRef) => r.jobId == jobId && Ready(tasks, r))
  }

  function AcceptReport(s: State, req: ReportReq, listing: seq<TaskRef>, now: int): State
    requires req.ref in s.tasks && req.ref.jobId in s.jobs
  {
    var ref := req.ref;
    var t := ReportedTask(s.tasks[ref], req, now);
    var s := s.(tasks := s.tasks[ref := t], log := s.log + [Accepted(ref, req.key)]);
    if req.status == SaysRunning then s
    else
      s.(workers := WithModel(s.workers, t, req),
         queue := Q.Enqueue(s.queue,
           if t.status == Queued then [ref]
           else if t.status == Completed then ReadyRefs(s.tasks, ref.jobId, listing)
           else []),
         jobs := s.jobs[ref.jobId := s.jobs[ref.jobId].(status := StatusOf(s.tasks, ref.jobId))])
  }

  function Report(s: State, req: ReportReq, listing: seq<TaskRef>, now: int): State {
    var s := s.(clock := now);
    if Judge(s, req).Accept? then AcceptReport(s, req, listing, now) else s
  }

  // ---------- RequeueDeadLetters ----------

  function RequeueDead(s: State, refs: seq<TaskRef>, now: int): State {
    s.(queue := Q.RequeueDead(s.queue, refs), clock := now)
  }

  // ---------- the machine ----------

  datatype Action =
    | Submit(sub: Submission)
    | Poll(worker: string, max: int, orders: PollOrders)
    | Tell(req: ReportReq, listing: seq<TaskRef>)
    | Pulse(from: string, beat: Beat)
    | Cancel(canceled: string)
    | Archive(archived: string)
    | Register(id: string, record: Worker)
    | Revive(refs: seq<TaskRef>)

  function Step(cfg: Config, s: State, a: Action, now: int): State {
    match a
    case Submit(sub) => AddJob(cfg, s, sub, now)
    case Poll(w, max, o) => PollAssignments(cfg, s, w, max, now, o).0
    case Tell(req, listing) => Report(s, req, listing, now)
    case Pulse(w, b) => Heartbeat(cfg, s, w, b, now)
    case Cancel(j) => CancelJob(s, j, now)
    case Archive(j) => ArchiveJob(s, j, now)
    case Register(id, w) => RegisterWorker(s, id, w, now)
    case Revive(refs) => RequeueDead(s, refs, now)
  }

  /** What is assumed of a step: the clock does not go backwards (and fits its 64-bit text form),
      and listings enumerate exactly the map they range over. */
  ghost predicate Legal(s: State, a: Action, now: int) {
    && s.clock <= now && 0 < now <= INT64_MAX
    && (a.Poll? ==> Lists(a.orders.receipts, s.queue.inflight.Keys) && Lists(a.orders.tasks, s.tasks.Keys))
    && (a.Tell? ==> Lists(a.listing, s.tasks.Keys))
  }
}
