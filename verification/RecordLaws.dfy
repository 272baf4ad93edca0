/** What each call writes into the records of jobs, tasks and workers, field by field. */
module RecordLaws {
  import opened Text
  import opened Records
  import opened Leases
  import opened Placement
  import opened Dag
  import opened Scheduler

  // ---------- what a new engine runs with ----------

  ghost predicate Filled(w: real, given: real, default: real) { w == if given != 0.0 then given else default }

  /** What is not given is 15 seconds of lease, preemption, no policy, and these weights. */
  lemma DefaultsApplied(options: Options, tie: (string, string) -> nat)
    ensures var c := WithDefaults(options, tie);
      && c.leaseNanos == (if options.leaseNanos > 0 then options.leaseNanos else 15 * 1_000_000_000)
      && (c.preempt <==> options.preemptSet ==> options.preempt)
      && (if options.policy.Some? then c.policy == options.policy.value else c.policy.noop)
      && var w, g := c.weights, options.weights;
         && Filled(w.capabilityMatch, g.capabilityMatch, 1.0) && Filled(w.modelWarmCache, g.modelWarmCache, 1.5)
         && Filled(w.localityScore, g.localityScore, 1.0) && Filled(w.queuePenalty, g.queuePenalty, 0.15)
         && Filled(w.latencyPrediction, g.latencyPrediction, 1.0) && Filled(w.fairnessPenalty, g.fairnessPenalty, 0.05)
         && Filled(w.waitAgeBonus, g.waitAgeBonus, 0.05) && Filled(w.jobSpreadPenalty, g.jobSpreadPenalty, 0.6)
  {
  }

  // ---------- submissions ----------

  const SUBMISSION_KEYS := {"_priority", "_data_classification", "model", "_network_isolation"}
  const TASK_KEYS := {"_resource_cpu", "_resource_memory", "_requires_gpu", "_data_locality"}

  lemma SubmissionKeeps(m: map<string, string>, sub: Submission, k: string)
    requires k !in SUBMISSION_KEYS
    ensures var d := WithSubmission(m, sub); Get(d, k) == Get(m, k) && (k in d <==> k in m)
  {
  }

  /** What the task says of itself touches its own four keys only. */
  lemma TaskKeeps(m: map<string, string>, t: DagTask, k: string)
    requires k !in TASK_KEYS
    ensures var d := WithLocality(WithResources(m, t.resources), t.dataLocality);
      Get(d, k) == Get(m, k) && (k in d <==> k in m)
  {
    hide Trim, IntText;
  }

  /** The inputs of a stored task: the submitted ones, overlaid with what the submission says besides; a part that says
      nothing leaves its key alone. */
  lemma InputsDecorated(sub: Submission, t: DagTask)
    ensures var m := DecoratedInputs(sub, t);
      && Get(m, "_priority") == sub.priority && "_priority" in m
      && Get(m, "_data_classification") == (if sub.dataClassification != "" then sub.dataClassification
                                            else Get(t.inputs, "_data_classification"))
      && Get(m, "model") == (if sub.model != "" then sub.model else Get(t.inputs, "model"))
      && Get(m, "_network_isolation") == (if sub.networkIsolation != "" then sub.networkIsolation
                                          else Get(t.inputs, "_network_isolation"))
  {
    hide WithResources, WithLocality;
    KeysDiffer();
    var m := WithSubmission(t.inputs, sub);
    TaskKeeps(m, t, "_priority");
    TaskKeeps(m, t, "_data_classification");
    TaskKeeps(m, t, "model");
    TaskKeeps(m, t, "_network_isolation");
  }

  /** And with what the task says of itself: the resources it asks for and where its data is. */
  lemma ResourcesDecorated(sub: Submission, t: DagTask)
    ensures var m := DecoratedInputs(sub, t);
      && Get(m, "_resource_cpu") == (if t.resources.Some? && t.resources.value.cpu > 0 then IntText(t.resources.value.cpu)
                                     else Get(t.inputs, "_resource_cpu"))
      && Get(m, "_resource_memory") == (if t.resources.Some? && Trim(t.resources.value.memory) != ""
                                        then Trim(t.resources.value.memory) else Get(t.inputs, "_resource_memory"))
      && Get(m, "_requires_gpu") == (if t.resources.Some? && t.resources.value.gpu then "true" else Get(t.inputs, "_requires_gpu"))
      && Get(m, "_data_locality") == (if t.dataLocality.Some? && Trim(t.dataLocality.value) != ""
                                      then Trim(t.dataLocality.value) else Get(t.inputs, "_data_locality"))
  {
    hide Trim, IntText, WithSubmission;
    KeysDiffer();
    SubmissionKeeps(t.inputs, sub, "_resource_cpu");
    SubmissionKeeps(t.inputs, sub, "_resource_memory");
    SubmissionKeeps(t.inputs, sub, "_requires_gpu");
    SubmissionKeeps(t.inputs, sub, "_data_locality");
  }

  /** Every other input is stored as submitted. */
  lemma OtherInputsKept(sub: Submission, t: DagTask, k: string)
    requires k !in SUBMISSION_KEYS + TASK_KEYS
    ensures k in DecoratedInputs(sub, t) <==> k in t.inputs
    ensures Get(DecoratedInputs(sub, t), k) == Get(t.inputs, k)
  {
    hide WithSubmission, WithResources, WithLocality;
    SubmissionKeeps(t.inputs, sub, k);
    TaskKeeps(WithSubmission(t.inputs, sub), t, k);
  }

  lemma KeysDiffer()
    ensures |"_priority"| == 9 && |"_data_classification"| == 20 && |"model"| == 5 && |"_network_isolation"| == 18
    ensures |"_resource_cpu"| == 13 && |"_resource_memory"| == 16 && |"_requires_gpu"| == 13 && |"_data_locality"| == 14
    ensures "_resource_cpu"[4] != "_requires_gpu"[4]
  {
  }

  lemma {:induction false} LastPut(tasks: map<TaskRef, Task>, sub: Submission, dag: seq<DagTask>, now: int, i: nat)
    requires i < |dag| && forall k :: i < k < |dag| ==> dag[k].taskId != dag[i].taskId
    ensures var p, r := PutTasks(tasks, sub, dag, now), TaskRef(sub.jobId, dag[i].taskId);
      r in p && p[r] == NewTask(sub, dag[i], now)
  {
    hide NewTask;
    if i < |dag| - 1 {
      LastPut(tasks, sub, dag[..|dag| - 1], now, i);
    }
  }

  /** An accepted submission stores its job, and each task as submitted: queued, never attempted, on no worker, as old as now.
      Of two tasks with one id the later one is stored. */
  lemma SubmissionStored(cfg: Config, s: State, sub: Submission, now: int, i: nat)
    requires SubmitAllowed(cfg, s, sub) && i < |sub.tasks|
    requires forall k :: i < k < |sub.tasks| ==> sub.tasks[k].taskId != sub.tasks[i].taskId
    ensures var s', r := AddJob(cfg, s, sub, now), TaskRef(sub.jobId, sub.tasks[i].taskId);
      && sub.jobId in s'.jobs && s'.jobs[sub.jobId].tenant == sub.tenant && s'.jobs[sub.jobId].priority == sub.priority
      && s'.jobs[sub.jobId].status == Running
      && r in s'.tasks && var t, d := s'.tasks[r], sub.tasks[i];
         && t.typ == d.typ && t.deps == d.deps && t.maxRetries == d.maxRetries && t.timeoutSec == d.timeoutSec
         && t.inputs == DecoratedInputs(sub, d)
         && t.status == Queued && t.worker == "" && t.leaseId == "" && t.leaseExpires == None && t.attempt == 0
         && t.outputUri == "" && t.lastReportKey == "" && t.createdAt == t.updatedAt == now
  {
    hide SubmitAllowed, DecoratedInputs, WithoutJob, SourceRefs;
    LastPut(WithoutJob(s.tasks, sub.jobId), sub, sub.tasks, now, i);
  }

  lemma {:induction false} SourcesOnly(jobId: string, dag: seq<DagTask>, r: TaskRef)
    ensures r in SourceRefs(jobId, dag) <==> exists i :: 0 <= i < |dag| && dag[i].deps == [] && r == TaskRef(jobId, dag[i].taskId)
  {
    if |dag| > 0 {
      SourcesOnly(jobId, dag[..|dag| - 1], r);
      assert forall i :: 0 <= i < |dag| - 1 ==> dag[..|dag| - 1][i] == dag[i];
    }
  }

  /** A submission queues exactly its tasks without dependencies, behind what waits already; one without tasks is stored
      Queued.  A refused one changes nothing. */
  lemma SubmissionQueues(cfg: Config, s: State, sub: Submission, now: int, r: TaskRef)
    ensures var s' := AddJob(cfg, s, sub, now);
      && (!SubmitAllowed(cfg, s, sub) ==> s' == s.(clock := now))
      && (SubmitAllowed(cfg, s, sub) ==>
            && s.queue.items <= s'.queue.items && s'.queue == s.queue.(items := s'.queue.items)
            && (r in s'.queue.items[|s.queue.items|..] <==>
                  exists i :: 0 <= i < |sub.tasks| && sub.tasks[i].deps == [] && r == TaskRef(sub.jobId, sub.tasks[i].taskId))
            && (sub.tasks == [] ==> sub.jobId in s'.jobs && s'.jobs[sub.jobId].status == Queued))
  {
    hide SubmitAllowed, WithoutJob, PutTasks, SourceRefs;
    SourcesOnly(sub.jobId, sub.tasks, r);
  }

  // ---------- cancelling ----------

  /** After a job is canceled none of its tasks waits or runs, and none that did holds a lease; what is assigned, finished or
      of another job is left as it was. */
  lemma CancelStops(s: State, j: string, now: int, r: TaskRef)
    requires j in s.jobs && s.jobs[j].status !in {Completed, Failed, Canceled, Archived} && r in s.tasks
    ensures var s' := CancelJob(s, j, now);
      && j in s'.jobs && s'.jobs[j].status == Canceled && r in s'.tasks
      && (r.jobId == j ==> s'.tasks[r].status !in {Queued, Running})
      && (r.jobId == j && s.tasks[r].status in {Queued, Running} ==>
            s'.tasks[r].status == Canceled && s'.tasks[r].worker == "" && s'.tasks[r].leaseId == "")
      && (r.jobId != j || s.tasks[r].status !in {Queued, Running} ==> s'.tasks[r] == s.tasks[r])
  {
  }

  /** A finished job cannot be canceled, and only a finished one can be archived. */
  lemma OnlyOpenJobsCancel(s: State, j: string, now: int)
    requires j in s.jobs
    ensures s.jobs[j].status in {Completed, Failed, Canceled, Archived} ==> CancelJob(s, j, now) == s.(clock := now)
    ensures s.jobs[j].status in {Completed, Failed, Canceled, Archived} ==> ArchiveJob(s, j, now).jobs[j].status == Archived
    ensures s.jobs[j].status in {Queued, Running, Assigned} ==> ArchiveJob(s, j, now) == s.(clock := now)
  {
  }

  // ---------- workers ----------

  /** A registered worker is healthy and idle; a heartbeat gives it the load it reports, and nothing else of it changes. */
  lemma LoadReported(cfg: Config, s: State, id: string, w: Worker, b: Beat, now: int, later: int)
    ensures var s1 := RegisterWorker(s, id, w, now);
      var w1, w2 := s1.workers[id], Heartbeat(cfg, s1, id, b, later).workers[id];
      && w1.health == "healthy" && w1.queueDepth == w1.runningTasks == 0 && w1.cpuUtil == w1.memoryUtil == 0.0
      && w2.queueDepth == b.queueDepth && w2.runningTasks == b.runningTasks
      && w2.cpuUtil == b.cpuUtil && w2.memoryUtil == b.memoryUtil
      && w2.health == (if b.health == "" then "healthy" else b.health)
      && w1.cpu == w2.cpu == w.cpu && w1.gpu == w2.gpu == w.gpu && w1.models == w2.models == w.models
      && w1.tools == w2.tools == w.tools && w1.locality == w2.locality == w.locality && w1.backends == w2.backends
  {
    hide NormalizeBackends;
  }

  // ---------- reports ----------

  /** A report is accepted exactly if its task is known, its job is neither canceled nor archived, its key, if it has one, is
      not the one accepted last, and its lease, where it and the task have one, is the task's.  Otherwise nothing changes. */
  lemma ReportAcceptedIff(s: State, req: ReportReq, listing: seq<TaskRef>, now: int)
    ensures Judge(s, req).Accept? <==> (
      && req.ref.jobId in s.jobs && req.ref in s.tasks && s.jobs[req.ref.jobId].status !in {Canceled, Archived}
      && (req.key == "" || s.tasks[req.ref].lastReportKey != req.key)
      && (req.leaseId == "" || s.tasks[req.ref].leaseId in {"", req.leaseId}))
    ensures !Judge(s, req).Accept? ==> Report(s, req, listing, now) == s.(clock := now)
  {
    hide AcceptReport;
  }

  /** An accepted report: the lease is over, the key and the output are stored, and the task is Running under the reporting
      worker, Completed, queued for a retry if it has one left, or Failed. */
  lemma ReportStored(s: State, req: ReportReq, listing: seq<TaskRef>, now: int)
    requires Judge(s, req).Accept?
    ensures var t, s' := s.tasks[req.ref], Report(s, req, listing, now);
      && req.ref in s'.tasks && var t' := s'.tasks[req.ref];
         && t'.outputUri == req.outputUri && t'.lastReportKey == req.key && t'.leaseId == "" && t'.attempt == t.attempt
         && t'.updatedAt == now
         && (req.status == SaysRunning ==> t'.status == Running && t'.worker == req.worker && t'.leaseExpires == None)
         && (req.status == SaysCompleted ==> t'.status == Completed && t'.worker == t.worker)
         && (req.status == SaysOther ==> t'.status == if t.attempt <= t.maxRetries then Queued else Failed)
         && (t'.status == Queued ==> t'.worker == "" && req.ref in s'.queue.items)
    ensures forall r :: r in s.tasks && r != req.ref ==>
      r in Report(s, req, listing, now).tasks && Report(s, req, listing, now).tasks[r] == s.tasks[r]
  {
    hide StatusOf, ReadyRefs, WithModel, RetryBackoff;
    assert Judge(s.(clock := now), req).Accept?;
  }

  /** What a report puts behind the queue: the task itself for a retry, and after a completion the tasks of its job that are
      ready then.  A Running report puts nothing there. */
  lemma ReportQueues(s: State, req: ReportReq, listing: seq<TaskRef>, now: int, r: TaskRef)
    requires Judge(s, req).Accept? && Lists(listing, s.tasks.Keys)
    ensures var s' := Report(s, req, listing, now);
      && s.queue.items <= s'.queue.items && s'.queue == s.queue.(items := s'.queue.items)
      && (r in s'.queue.items[|s.queue.items|..] <==>
            || (req.status == SaysCompleted && r.jobId == req.ref.jobId && Ready(s'.tasks, r))
            || (req.status == SaysOther && r == req.ref && s.tasks[r].attempt <= s.tasks[r].maxRetries))
  {
    hide StatusOf, WithModel, RetryBackoff, Ready;
    assert Judge(s.(clock := now), req).Accept?;
    var t := ReportedTask(s.tasks[req.ref], req, now);
    ReadyListed(s.tasks[req.ref := t], req.ref.jobId, listing, r);
  }

  lemma ReadyListed(tasks: map<TaskRef, Task>, jobId: string, listing: seq<TaskRef>, r: TaskRef)
    requires Lists(listing, tasks.Keys)
    ensures r in ReadyRefs(tasks, jobId, listing) <==> r.jobId == jobId && Ready(tasks, r)
  {
  }

  /** A worker that reports a model download completed is known to hold the model from then on. */
  lemma DownloadLearned(s: State, req: ReportReq, listing: seq<TaskRef>, now: int)
    requires Judge(s, req).Accept? && req.status == SaysCompleted && req.worker in s.workers && Trim(req.worker) != ""
    requires EqualFold(s.tasks[req.ref].typ, "model_download") && Trim(Get(s.tasks[req.ref].inputs, "model")) != ""
    ensures var s' := Report(s, req, listing, now);
      && req.worker in s'.workers
      && ContainsFold(s'.workers[req.worker].models, Trim(Get(s.tasks[req.ref].inputs, "model")))
      && s'.workers[req.worker] == s.workers[req.worker].(models := s'.workers[req.worker].models)
      && s.workers[req.worker].models <= s'.workers[req.worker].models
      && (ContainsFold(s.workers[req.worker].models, Trim(Get(s.tasks[req.ref].inputs, "model"))) ==> s'.workers == s.workers)
      && forall w :: w in s.workers && w != req.worker ==> w in s'.workers && s'.workers[w] == s.workers[w]
  {
    hide StatusOf, ReadyRefs, RetryBackoff, Trim, EqualFold, Get;
    assert Judge(s.(clock := now), req).Accept?;
    var model := Trim(Get(s.tasks[req.ref].inputs, "model"));
    Contained(s.workers[req.worker].models, model);
  }

  /** No other report changes what is known of workers. */
  lemma OnlyDownloadsTeach(s: State, req: ReportReq, listing: seq<TaskRef>, now: int)
    requires req.ref in s.tasks && (req.status != SaysCompleted || Lower(s.tasks[req.ref].typ) != Lower("model_download"))
    ensures Report(s, req, listing, now).workers == s.workers
  {
    hide StatusOf, ReadyRefs, RetryBackoff, Trim, Get, Lower;
  }

  lemma Contained(list: seq<string>, v: string)
    ensures ContainsFold(list + [v], v)
  {
    hide Trim, Lower;
    assert (list + [v])[|list|] == v;
  }

  // ---------- lapsed leases ----------

  /** The lease has run out before now. */
  ghost predicate Lapsed(t: Task, now: int) {
    t.status in {Running, Assigned} && t.leaseId != "" && t.leaseExpires.Some? && t.leaseExpires.value < now
  }

  /** So has the time allowed for the attempt. */
  ghost predicate Overdue(t: Task, now: int) {
    t.timeoutSec > 0 && LeaseStart(t.leaseId).Some? && LeaseStart(t.leaseId).value + t.timeoutSec * 1_000_000_000 <= now
  }

  /** A lapsed lease takes the task from its worker: back to the queue at once, or after its backoff if the attempt was
      overdue, or to Failed, with its job, if it was the last attempt; any other task is left alone. */
  lemma LapsedLeases(s: State, listing: seq<TaskRef>, now: int, r: TaskRef)
    requires Lists(listing, s.tasks.Keys) && r in s.tasks
    ensures var s' := ExpireLeases(s, listing, now);
      && r in s'.tasks && var t, t' := s.tasks[r], s'.tasks[r];
         && (!Lapsed(t, now) ==> t' == t)
         && (Lapsed(t, now) ==> t'.worker == "" && t'.leaseId == "" && t'.attempt == t.attempt && t'.updatedAt == now)
         && (Lapsed(t, now) && !Overdue(t, now) ==> t'.status == Queued && t'.leaseExpires == None && r in s'.queue.items)
         && (Lapsed(t, now) && Overdue(t, now) && t.attempt <= t.maxRetries ==>
               t'.status == Queued && t'.leaseExpires == Some(now + RetryBackoff(t.attempt)) && r in s'.queue.items)
         && (Lapsed(t, now) && Overdue(t, now) && t.attempt > t.maxRetries ==> t'.status == Failed)
  {
    hide LeaseStart, RetryBackoff, Reconciled, Affected, LapseEvents;
  }

  /** The job of a task whose last attempt is overdue fails with it. */
  lemma OverdueFailsJob(s: State, listing: seq<TaskRef>, now: int, r: TaskRef)
    requires Lists(listing, s.tasks.Keys) && r in s.tasks && r.jobId in s.jobs
    requires Lapsed(s.tasks[r], now) && Overdue(s.tasks[r], now) && s.tasks[r].attempt > s.tasks[r].maxRetries
    requires s.jobs[r.jobId].status !in {Canceled, Archived}
    ensures ExpireLeases(s, listing, now).jobs[r.jobId].status == Failed
  {
    hide LeaseStart, RetryBackoff, LapseEvents, Requeued;
    assert Expired(s.tasks[r], now);
    assert AfterExpiry(s.tasks, now)[r].status == Failed;
  }
}
