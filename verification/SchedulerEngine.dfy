/** The engine's methods (internal/scheduler/engine.go) over the in-memory store and queue, step by step, each proved
    to do what Scheduler's one-step function says.

    `View()` is the engine's state as a Scheduler.State.  `now` is the clock reading of the call; the orders in which
    the code ranges over maps come back as ghost results. */
module SchedulerEngine {
  import opened Text
  import opened Records
  import opened Listings
  import opened Leases
  import opened Placement
  import opened Dag
  import opened Scheduler
  import opened EngineFacts
  import opened Steps
  import M = MemoryStore
  import MQ = MemoryQueue
  import Q = QueueModel
  import Policy
  import P = PreemptionLaws
  import Sorting

  class Engine {
    const cfg: Config
    const store: M.MemoryStore
    const queue: MQ.MemoryQueue
    ghost var log: seq<Event>
    ghost var clock: int

    ghost function View(): State
      reads this, store, queue
    {
      State(store.jobs, store.Tasks(), store.workers, queue.State(), log, clock)
    }

    constructor (options: Options, tie: (string, string) -> nat)
      ensures View() == INIT && cfg == WithDefaults(options, tie)
      ensures fresh(store) && fresh(queue)
    {
      cfg := WithDefaults(options, tie);
      store := new M.MemoryStore();
      queue := new MQ.MemoryQueue();
      log, clock := [], 0;
    }

    // ---------- calls on the store and the queue ----------

    method GetJob(id: string) returns (job: Option<Job>)
      ensures job == if id in View().jobs then Some(View().jobs[id]) else None
    {
      return if id in store.jobs then Some(store.jobs[id]) else None;
    }

    method GetTask(r: TaskRef) returns (task: Option<Task>)
      ensures task == if r in View().tasks then Some(View().tasks[r]) else None
    {
      task := store.GetTask(r);
    }

    method GetWorker(id: string) returns (worker: Option<Worker>)
      ensures worker == if id in View().workers then Some(View().workers[id]) else None
    {
      worker := store.GetWorker(id);
    }

    method UpdateJob(id: string, job: Job)
      modifies store
      ensures View() == old(View()).(jobs := old(View()).jobs[id := job])
    {
      store.UpdateJob(id, job);
    }

    method UpdateTask(r: TaskRef, task: Task, now: int)
      modifies store
      ensures View() == old(View()).(tasks := old(View()).tasks[r := task.(updatedAt := now)])
    {
      store.UpdateTask(r, task, now);
    }

    method UpsertWorker(id: string, worker: Worker)
      modifies store
      ensures View() == old(View()).(workers := old(View()).workers[id := worker])
    {
      store.UpsertWorker(id, worker);
    }

    method Enqueue(refs: seq<TaskRef>)
      modifies queue
      ensures View() == old(View()).(queue := Q.Enqueue(old(View()).queue, refs))
    {
      if |refs| > 0 {
        queue.EnqueueMany(refs);
      } else {
        assert View().queue.items + refs == View().queue.items;
      }
    }

    method ListTasksByJob(jobId: string) returns (rows: seq<M.Row>)
      ensures M.Stored(rows, View().tasks)
      ensures Lists(M.RowRefs(rows), set r | r in View().tasks && r.jobId == jobId)
    {
      rows := store.ListTasksByJob(jobId);
    }

    ghost method Tick(now: int)
      modifies this`clock
      ensures View() == old(View()).(clock := now)
    {
      clock := now;
    }

    ghost method Note(events: seq<Event>)
      modifies this`log
      ensures View() == old(View()).(log := old(View()).log + events)
    {
      log := log + events;
    }

    // ---------- AddJob ----------

    method Decorate(sub: Submission, t: DagTask) returns (inputs: map<string, string>)
      ensures inputs == DecoratedInputs(sub, t)
    {
      hide Trim, IntText, WithResources;
      inputs := t.inputs;
      inputs := inputs["_priority" := sub.priority];
      if sub.dataClassification != "" {
        inputs := inputs["_data_classification" := sub.dataClassification];
      }
      if sub.model != "" {
        inputs := inputs["model" := sub.model];
      }
      if sub.networkIsolation != "" {
        inputs := inputs["_network_isolation" := sub.networkIsolation];
      }
      assert inputs == WithSubmission(t.inputs, sub);
      inputs := AddResources(inputs, t.resources);
      if t.dataLocality.Some? && Trim(t.dataLocality.value) != "" {
        inputs := inputs["_data_locality" := Trim(t.dataLocality.value)];
      }
    }

    method AddResources(given: map<string, string>, resources: Option<Resources>) returns (inputs: map<string, string>)
      ensures inputs == WithResources(given, resources)
    {
      hide Trim, IntText;
      inputs := given;
      if resources.Some? {
        var res := resources.value;
        if res.cpu > 0 {
          inputs := inputs["_resource_cpu" := IntText(res.cpu)];
        }
        if Trim(res.memory) != "" {
          inputs := inputs["_resource_memory" := Trim(res.memory)];
        }
        if res.gpu {
          inputs := inputs["_requires_gpu" := "true"];
        }
      }
    }

    method BuildTasks(sub: Submission, now: int) returns (rows: seq<M.Row>, ready: seq<TaskRef>)
      ensures rows == NewRows(sub, sub.tasks, now) && ready == SourceRefs(sub.jobId, sub.tasks)
    {
      hide DecoratedInputs;
      rows, ready := [], [];
      for i := 0 to |sub.tasks|
        invariant rows == NewRows(sub, sub.tasks[..i], now) && ready == SourceRefs(sub.jobId, sub.tasks[..i])
      {
        var t := sub.tasks[i];
        assert sub.tasks[..i + 1][..i] == sub.tasks[..i];
        var inputs := Decorate(sub, t);
        var ref := TaskRef(sub.jobId, t.taskId);
        rows := rows + [M.Row(ref,
          Task(t.typ, inputs, t.deps, Queued, "", "", None, 0, t.maxRetries, t.timeoutSec, "", "", now, now))];
        if |t.deps| == 0 {
          ready := ready + [ref];
        }
      }
      assert sub.tasks[..|sub.tasks|] == sub.tasks;
    }

    method AddJob(sub: Submission, now: int) returns (accepted: bool)
      modifies this, store, queue
      ensures View() == Scheduler.AddJob(cfg, old(View()), sub, now)
      ensures accepted == SubmitAllowed(cfg, old(View()), sub)
    {
      hide Policy.EvaluateSubmit, NewRows, PutTasks, M.PutAll;
      Tick(now);
      if !cfg.policy.noop {
        var running := store.CountJobsByTenantStatus(sub.tenant, Running);
        var decision := Policy.EvaluateSubmit(cfg.policy, Policy.SubmitInput(sub.tenant, sub.jobType, sub.priority,
          sub.model, sub.dataClassification, running));
        if !decision.allowed {
          return false;
        }
      }
      var status := Queued;
      if |sub.tasks| > 0 {
        status := Running;
      }
      var rows, ready := BuildTasks(sub, now);
      PutAllIsPutTasks(WithoutJob(View().tasks, sub.jobId), sub, sub.tasks, now);
      store.CreateJobWithTasks(sub.jobId, Job(sub.tenant, sub.priority, status), rows);
      Enqueue(ready);
      Note([Submitted(sub.jobId)]);
      return true;
    }

    // ---------- CancelJob, ArchiveJob, RegisterWorker, Heartbeat ----------

    method CancelJob(jobId: string, now: int) returns (found: bool)
      modifies this, store
      ensures View() == Scheduler.CancelJob(old(View()), jobId, now) && found == (jobId in old(View()).jobs)
    {
      hide View;
      Tick(now);
      var job := GetJob(jobId);
      if job.None? {
        return false;
      }
      if IsTerminal(job.value.status) {
        return true;
      }
      UpdateJob(jobId, job.value.(status := Canceled));
      var rows := ListTasksByJob(jobId);
      ghost var s := View();
      ghost var refs := M.RowRefs(rows);
      ghost var f := (t: Task) => CanceledTask(t, now);
      PatchedNothing(s.tasks, f);
      for i := 0 to |rows|
        invariant View() == s.(tasks := Patched(s.tasks, refs[..i], f))
      {
        var r, t := rows[i].ref, rows[i].task;
        if t.status == Queued || t.status == Running {
          PatchedPush(s.tasks, refs, i, f);
          UpdateTask(r, t.(status := Canceled, worker := "", leaseId := "", leaseExpires := None), now);
        } else {
          PatchedSkip(s.tasks, refs, i, f);
        }
      }
      assert refs[..|rows|] == refs;
      PatchedCancel(s.tasks, refs, jobId, now);
      return true;
    }

    method ArchiveJob(jobId: string, now: int) returns (done: bool)
      modifies this, store
      ensures View() == Scheduler.ArchiveJob(old(View()), jobId, now)
      ensures done == (jobId in old(View()).jobs && IsTerminal(old(View()).jobs[jobId].status))
    {
      hide View;
      Tick(now);
      var job := GetJob(jobId);
      if job.None? || !IsTerminal(job.value.status) {
        return false;
      }
      UpdateJob(jobId, job.value.(status := Archived));
      return true;
    }

    method RegisterWorker(id: string, w: Worker, now: int)
      modifies this, store
      ensures View() == Scheduler.RegisterWorker(old(View()), id, w, now)
    {
      Tick(now);
      var backends := NormalizedBackends(w.backends);
      UpsertWorker(id, Worker(w.cpu, w.gpu, w.models, w.tools, backends, w.locality, "healthy", 0, 0, 0.0, 0.0));
    }

    /** The distinct non-empty backend names, normalised and sorted. */
    method NormalizedBackends(names: seq<string>) returns (out: seq<string>)
      ensures out == NormalizeBackends(names)
    {
      hide NormalizeBackend;
      out := [];
      var seen: set<string> := {};
      for i := 0 to |names|
        invariant out == DistinctBackends(names[..i])
        invariant forall b :: b in seen <==> b in out
      {
        assert names[..i + 1][..i] == names[..i];
        var b := NormalizeBackend(names[i]);
        if b == "" || b in seen {
          continue;
        }
        seen := seen + {b};
        out := out + [b];
      }
      assert names[..|names|] == names;
      out := Sorting.StableSort(out, StringLess);
    }

    /** The running tasks of a worker, then the assigned ones. */
    method ListBusy(worker: string) returns (rows: seq<M.Row>)
      ensures M.Stored(rows, View().tasks) && Lists(M.RowRefs(rows), Busy(View().tasks, worker))
    {
      hide Lists, Busy, M.Stored, M.RowRefs, OnWorker, Filter;
      var onlyRunning, l1 := store.ListTasksByWorkerStatus(worker, Running);
      var onlyAssigned, l2 := store.ListTasksByWorkerStatus(worker, Assigned);
      BusyListed(View().tasks, worker, l1, l2);
      RowsJoin(onlyRunning, onlyAssigned, View().tasks);
      rows := onlyRunning + onlyAssigned;
    }

    method Heartbeat(worker: string, b: Beat, now: int) returns (known: bool)
      modifies this, store
      ensures View() == Scheduler.Heartbeat(cfg, old(View()), worker, b, now) && known == (worker in old(View()).workers)
    {
      Tick(now);
      var w := GetWorker(worker);
      if w.None? {
        return false;
      }
      store.UpdateWorkerHeartbeat(worker, b);
      ExtendWorkerLeases(worker, now);
      return true;
    }

    method ExtendWorkerLeases(worker: string, now: int)
      modifies store
      ensures View() == old(View()).(tasks := map r | r in old(View()).tasks ::
        if Extendable(old(View()).tasks[r], worker, now) then Extended(cfg, old(View()).tasks[r], now) else old(View()).tasks[r])
    {
      hide View, Lists, LeaseExpiry;
      var rows := ListBusy(worker);
      ghost var s := View();
      ghost var refs := M.RowRefs(rows);
      ghost var f := BeatTask(cfg, worker, now);
      PatchedNothing(s.tasks, f);
      for i := 0 to |rows|
        invariant View() == s.(tasks := Patched(s.tasks, refs[..i], f))
      {
        var r, t := rows[i].ref, rows[i].task;
        BusyAt(s.tasks, worker, refs, i);
        if t.leaseId == "" || (t.leaseExpires.Some? && t.leaseExpires.value <= now) {
          PatchedSkip(s.tasks, refs, i, f);
          continue;
        }
        PatchedPush(s.tasks, refs, i, f);
        UpdateTask(r, t.(leaseExpires := Some(LeaseExpiry(t, now, cfg.leaseNanos))), now);
      }
      assert refs[..|rows|] == refs;
      PatchedHeartbeat(cfg, s.tasks, refs, worker, now);
    }

    // ---------- lease expiry ----------

    /** The status that a job's records give it, by counting. */
    method CountedStatus(rows: seq<M.Row>) returns (status: Status)
      ensures status == if Failures(rows, Failed) > 0 then Failed
                        else if Failures(rows, Completed) == |rows| && |rows| > 0 then Completed
                        else Running
    {
      var completed, failed := 0, 0;
      for i := 0 to |rows|
        invariant completed == Failures(rows[..i], Completed) && failed == Failures(rows[..i], Failed)
      {
        assert rows[..i + 1][..i] == rows[..i];
        if rows[i].task.status == Completed {
          completed := completed + 1;
        } else if rows[i].task.status == Failed {
          failed := failed + 1;
        }
      }
      assert rows[..|rows|] == rows;
      if failed > 0 {
        return Failed;
      } else if completed == |rows| && |rows| > 0 {
        return Completed;
      }
      return Running;
    }

    method ReconcileJobStatus(jobId: string)
      modifies store
      ensures View() == old(View()).(jobs := ReconciledJob(old(View()).jobs, old(View()).tasks, jobId))
    {
      hide View, StatusOf, Failures;
      var job := GetJob(jobId);
      if job.None? || IsClosed(job.value.status) {
        return;
      }
      var rows := ListTasksByJob(jobId);
      CountsGiveStatus(View().tasks, jobId, rows);
      var status := CountedStatus(rows);
      UpdateJob(jobId, job.value.(status := status));
    }

    /** An expired record, requeued or failed. */
    method Expire(t: Task, now: int) returns (expired: Task)
      ensures expired.(updatedAt := now) == ExpiredTask(t, now)
    {
      hide LeaseStart, RetryBackoff;
      expired := t;
      var start := LeaseStart(t.leaseId);
      var timedOut := false;
      if start.Some? && t.timeoutSec > 0 {
        timedOut := start.value + t.timeoutSec * SECOND <= now;
      }
      if timedOut && t.attempt > t.maxRetries {
        expired := expired.(status := Failed);
      } else {
        expired := expired.(status := Queued);
        if timedOut {
          expired := expired.(leaseExpires := Some(now + RetryBackoff(t.attempt)));
        } else {
          expired := expired.(leaseExpires := None);
        }
      }
      expired := expired.(worker := "", leaseId := "");
    }

    method ExpireRows(rows: seq<M.Row>, now: int) returns (back: seq<TaskRef>, affected: set<string>)
      requires M.Stored(rows, View().tasks)
      requires forall i, j :: 0 <= i < j < |rows| ==> rows[i].ref != rows[j].ref
      modifies store
      ensures View() == old(View()).(tasks := Patched(old(View()).tasks, M.RowRefs(rows), t => ExpiredTask(t, now)))
      ensures back == Filter(M.RowRefs(rows), GoesBack(old(View()).tasks, now)) && affected == JobIds(M.RowRefs(rows))
    {
      hide View, ExpiredTask, Filter, JobIds;
      ghost var s := View();
      ghost var refs := M.RowRefs(rows);
      ghost var f := (t: Task) => ExpiredTask(t, now);
      back, affected := [], {};
      PatchedNothing(s.tasks, f);
      NothingPicked(GoesBack(s.tasks, now));
      for i := 0 to |rows|
        invariant View() == s.(tasks := Patched(s.tasks, refs[..i], f))
        invariant back == Filter(refs[..i], GoesBack(s.tasks, now)) && affected == JobIds(refs[..i])
      {
        var r, t := rows[i].ref, rows[i].task;
        FilterPush(refs, i, GoesBack(s.tasks, now));
        JobIdsPush(refs, i);
        PatchedPush(s.tasks, refs, i, f);
        affected := affected + {r.jobId};
        var t' := Expire(t, now);
        if t'.status == Queued {
          back := back + [r];
        }
        UpdateTask(r, t', now);
      }
      assert refs[..|rows|] == refs;
    }

    method RequeueExpiredLeases(now: int) returns (ghost listing: seq<TaskRef>)
      modifies this, store, queue
      ensures View() == ExpireLeases(old(View()), listing, now) && Lists(listing, old(View()).tasks.Keys)
    {
      hide View, Lists, ExpiredTask, Reconciled, Requeued, LapseEvents, AfterExpiry, Affected, Expired, Filter, Patched,
        JobIds, GoesBack, ReconciledJobs, M.RowRefs;
      ghost var s := View();
      var rows, l := ListExpired(now);
      listing := l;
      RowsDistinct(rows, listing, s.tasks, now);
      var back, affected := ExpireRows(rows, now);
      PatchedExpiry(s.tasks, listing, now);
      RequeuedOf(s.tasks, listing, now);
      AffectedListed(s.tasks, listing, now);
      Enqueue(back);
      Note(LapseEvents(s.tasks, back, now));
      ReconcileAll(affected);
      ReconciledAll(s.jobs, AfterExpiry(s.tasks, now), s.tasks, affected, now);
    }

    method ListExpired(now: int) returns (rows: seq<M.Row>, ghost listing: seq<TaskRef>)
      ensures M.Stored(rows, View().tasks) && Lists(listing, View().tasks.Keys)
      ensures M.RowRefs(rows) == Filter(listing, M.Test(View().tasks, (r, t: Task) => Expired(t, now)))
    {
      rows, listing := store.ListExpiredLeasedTasks(now);
    }

    method ReconcileAll(affected: set<string>)
      modifies store
      ensures View() == old(View()).(jobs := ReconciledJobs(old(View()).jobs, old(View()).tasks, affected))
    {
      hide View, ReconciledJobs, ReconciledJob;
      ghost var s := View();
      var left := affected;
      ReconciledNothing(s.jobs, s.tasks);
      assert affected - left == {};
      while left != {}
        invariant left <= affected && View() == s.(jobs := ReconciledJobs(s.jobs, s.tasks, affected - left))
        decreases left
      {
        var j :| j in left;
        ReconciledMore(s.jobs, s.tasks, affected - left, j);
        assert affected - (left - {j}) == affected - left + {j};
        ReconcileJobStatus(j);
        left := left - {j};
      }
      assert affected - left == affected;
    }

    // ---------- bestWorkerForTask ----------

    method FindInventory(task: Task, ids: seq<string>) returns (inv: Inventory)
      requires Lists(ids, View().workers.Keys)
      ensures inv == InventoryOf(task, View().workers)
    {
      hide HasBackendInventory;
      inv := Inventory(false, false);
      if task.typ == "llm_inference" {
        for i := 0 to |ids|
          invariant inv.backends <==> exists k :: 0 <= k < i && HasBackendInventory(View().workers[ids[k]])
          invariant inv.models <==> exists k :: 0 <= k < i && |View().workers[ids[k]].models| > 0
        {
          assert ids[i] in View().workers;
          var w := store.workers[ids[i]];
          if HasBackendInventory(w) {
            inv := inv.(backends := true);
          }
          if |w.models| > 0 {
            inv := inv.(models := true);
          }
        }
        InventoryListed(task, View().workers, ids, inv);
      }
    }

    /** computeStageWorkerUsage */
    method StageUsage(jobId: string, key: string) returns (usage: map<string, nat>, parallel: bool)
      ensures forall w :: Usage(usage, w) == |OnStage(View().tasks, jobId, key, w)|
      ensures parallel == (|Stage(View().tasks, jobId, key)| > 1)
    {
      hide View, StageKey, Trim, Lists, Filter;
      var rows := ListTasksByJob(jobId);
      ghost var tasks, refs := View().tasks, M.RowRefs(rows);
      usage := map[];
      var stage: nat := 0;
      NothingStaged(tasks, key);
      for i := 0 to |rows|
        invariant stage == |Filter(refs[..i], StageTest(tasks, key))|
        invariant forall w :: Usage(usage, w) == |Filter(refs[..i], PlacedTest(tasks, key, w))|
      {
        var t := rows[i].task;
        FilterPush(refs, i, StageTest(tasks, key));
        forall w ensures |Filter(refs[..i + 1], PlacedTest(tasks, key, w))|
                      == |Filter(refs[..i], PlacedTest(tasks, key, w))| + if PlacedTest(tasks, key, w)(refs[i]) then 1 else 0 {
          FilterPush(refs, i, PlacedTest(tasks, key, w));
        }
        if StageKey(t.deps) != key {
          continue;
        }
        stage := stage + 1;
        if Trim(t.worker) != "" {
          usage := usage[t.worker := Usage(usage, t.worker) + 1];
        }
      }
      assert refs[..|rows|] == refs;
      forall w ensures Usage(usage, w) == |OnStage(tasks, jobId, key, w)| {
        StageCounts(tasks, jobId, key, refs, w);
      }
      StageCounts(tasks, jobId, key, refs, "");
      parallel := stage > 1;
    }

    /** One turn of the selection loop. */
    method Weigh(best: Best, id: string, ref: TaskRef, task: Task, g: Gathered, now: int) returns (next: Best)
      requires ref in View().tasks && View().tasks[ref] == task && ref.jobId in View().jobs
      requires id in View().workers && GatheredFor(View(), ref, g)
      ensures next == if EligibleFor(View(), ref, id)
                      then Consider(best, id, ScoreFor(cfg, View(), ref, id, now), cfg.tie(TaskKey(ref), id)) else best
    {
      hide Score, Eligible, StageUse, SpreadStage, CountTasks, InventoryOf, M.Flat;
      var w := store.workers[id];
      if !Eligible(task, id, w, g.inv) {
        return best;
      }
      var score := Score(cfg.weights, task, w, g.running, Usage(g.usage, id), g.spread, now);
      ScoreSpread(cfg.weights, task, w, g.running, Usage(g.usage, id), StageUse(View(), ref, id), g.spread, now);
      var tie := cfg.tie(TaskKey(ref), id);
      if best.NoBest? || score > best.score {
        return Best(id, score, tie);
      }
      if Abs(score - best.score) < EPSILON && tie > best.tie {
        return Best(id, score, tie);
      }
      return best;
    }

    /** What the loop needs to know of the store besides the workers themselves. */
    method Gather(ref: TaskRef, task: Task, job: Job, ids: seq<string>) returns (g: Gathered)
      requires ref in View().tasks && View().tasks[ref] == task && ref.jobId in View().jobs && View().jobs[ref.jobId] == job
      requires Lists(ids, View().workers.Keys)
      ensures GatheredFor(View(), ref, g)
    {
      hide Lists, InventoryOf, StageKey, ParseBool, Stage, OnStage, CountTasks;
      var inv := FindInventory(task, ids);
      var spread := ParseBool(Get(task.inputs, "_job_spread"));
      var usage, parallel := map[], false;
      if spread {
        usage, parallel := StageUsage(ref.jobId, StageKey(task.deps));
      }
      var running := CountRunning(job.tenant);
      g := Gathered(inv, usage, spread && parallel, running);
    }

    method BestWorkerForTask(ref: TaskRef, task: Task, job: Job, now: int) returns (bestId: string, ghost listing: seq<string>)
      requires ref in View().tasks && View().tasks[ref] == task && ref.jobId in View().jobs && View().jobs[ref.jobId] == job
      ensures bestId == BestWorker(cfg, View(), ref, listing, now) && Lists(listing, View().workers.Keys)
      ensures NearBest(cfg, View(), ref, bestId, now)
    {
      hide View, EligibleFor, ScoreFor, GatheredFor, Consider, TaskKey, NearBest;
      var ids := ListWorkers();
      listing := ids;
      var g := Gather(ref, task, job, ids);
      ghost var s := View();
      ghost var eligible := id => EligibleFor(s, ref, id);
      ghost var score := id => ScoreFor(cfg, s, ref, id, now);
      ghost var tie := id => cfg.tie(TaskKey(ref), id);
      var best := NoBest;
      assert ids[0..] == ids;
      for i := 0 to |ids|
        invariant Select(ids, eligible, score, tie, NoBest) == Select(ids[i..], eligible, score, tie, best)
      {
        SelectSplit(ids, i, eligible, score, tie, best);
        assert ids[i] in s.workers.Keys;
        best := Weigh(best, ids[i], ref, task, g, now);
      }
      assert ids[|ids|..] == [];
      bestId := if best.Best? then best.id else "";
      BestIsNearBest(cfg, s, ref, ids, now);
    }

    method ListWorkers() returns (ids: seq<string>)
      ensures Lists(ids, View().workers.Keys)
    {
      ids := store.ListWorkers();
    }

    // ---------- tryPreemptLowerPriority ----------

    method FirstOfLowerRank(rows: seq<M.Row>, rank: int) returns (victim: Option<M.Row>)
      requires M.Stored(rows, View().tasks)
      ensures FirstLower(View(), M.RowRefs(rows), rank) == if victim.Some? then Some(victim.value.ref) else None
      ensures victim.Some? ==> victim.value.ref in View().tasks && View().tasks[victim.value.ref] == victim.value.task
    {
      hide View, TaskRank;
      ghost var refs := M.RowRefs(rows);
      assert refs[0..] == refs;
      for i := 0 to |rows|
        invariant FirstLower(View(), refs, rank) == FirstLower(View(), refs[i..], rank)
      {
        assert refs[i..][0] == rows[i].ref && refs[i..][1..] == refs[i + 1..];
        if TaskRank(rows[i].task) < rank {
          return Some(rows[i]);
        }
      }
      victim := None;
    }

    /** The least recently updated task of lower priority on the worker. */
    method FindVictim(worker: string, rank: int) returns (victim: Option<M.Row>, ghost listing: seq<TaskRef>)
      ensures Victim(View(), worker, rank, listing) == if victim.Some? then Some(victim.value.ref) else None
      ensures Lists(listing, Busy(View().tasks, worker))
      ensures victim.Some? ==> victim.value.ref in View().tasks && View().tasks[victim.value.ref] == victim.value.task
    {
      hide View, TaskRank, Victim, FirstLower, M.Stored, M.RowRefs, Lists, Busy;
      var rows := ListBusy(worker);
      listing := M.RowRefs(rows);
      var older := (a: M.Row, b: M.Row) => a.task.updatedAt < b.task.updatedAt;
      VictimSorted(View(), worker, rank, rows, older);
      victim := FirstOfLowerRank(Sorting.StableSort(rows, older), rank);
    }

    method TryPreemptLowerPriority(worker: string, rank: int, now: int) returns (victim: Option<TaskRef>, ghost listing: seq<TaskRef>)
      modifies this, store, queue
      ensures victim == Victim(old(View()), worker, rank, listing) && Lists(listing, Busy(old(View()).tasks, worker))
      ensures forall r :: r in Busy(old(View()).tasks, worker) && TaskRank(old(View()).tasks[r]) < rank ==>
        victim.Some? && old(View()).tasks[victim.value].updatedAt <= old(View()).tasks[r].updatedAt
      ensures View() == if victim.Some? then Preempt(old(View()), victim.value, now) else old(View())
    {
      hide View, TaskRank, Victim, Lists;
      var found, l := FindVictim(worker, rank);
      listing := l;
      OldestOfLowerRank(View(), worker, rank, listing);
      if found.None? {
        return None, listing;
      }
      var t := found.value.task;
      UpdateTask(found.value.ref, t.(status := Queued, worker := "", leaseId := "", leaseExpires := None), now);
      Enqueue([found.value.ref]);
      Note([Preempted(found.value.ref)]);
      victim := Some(found.value.ref);
    }

    // ---------- tryAssign ----------

    method DependenciesCompleted(jobId: string, deps: seq<string>) returns (done: bool)
      ensures done == DepsDone(View().tasks, jobId, deps)
    {
      hide View;
      for i := 0 to |deps|
        invariant forall k :: 0 <= k < i ==> DepDone(View().tasks, jobId, deps[k])
      {
        var t := GetTask(TaskRef(jobId, deps[i]));
        if t.None? || t.value.status != Completed {
          return false;
        }
      }
      return true;
    }

    /** The inputs of an assignment: the task's own, and every dependency's output. */
    method AssignmentInputs(ref: TaskRef, task: Task) returns (inputs: map<string, string>)
      requires forall i :: 0 <= i < |task.deps| ==> TaskRef(ref.jobId, task.deps[i]) in View().tasks
      ensures inputs == WithDepOutputs(task.inputs, View().tasks, ref.jobId, task.deps)
    {
      hide View;
      inputs := task.inputs;
      for i := 0 to |task.deps|
        invariant inputs == WithDepOutputs(task.inputs, View().tasks, ref.jobId, task.deps[..i])
      {
        assert task.deps[..i + 1][..i] == task.deps[..i];
        var dep := GetTask(TaskRef(ref.jobId, task.deps[i]));
        inputs := inputs[DepKey(task.deps[i]) := dep.value.outputUri];
      }
      assert task.deps[..|task.deps|] == task.deps;
    }

    /** The policy check, and then the lease. */
    method Grant(worker: string, w: Worker, ref: TaskRef, task: Task, job: Job, now: int) returns (res: TryResult)
      requires ref in View().tasks && View().tasks[ref] == task && ref.jobId in View().jobs && View().jobs[ref.jobId] == job
      requires worker in View().workers && View().workers[worker] == w
      requires DepsDone(View().tasks, ref.jobId, task.deps)
      modifies this, store
      ensures View() == Scheduler.Grant(cfg, old(View()), worker, ref, now).0
      ensures res == Scheduler.Grant(cfg, old(View()), worker, ref, now).1
    {
      hide View, Policy.EvaluateAssignment, CountTasks, WithDepOutputs, NewLeaseId, LeaseExpiry;
      ghost var s := View();
      if !cfg.policy.noop {
        var running := CountRunning(job.tenant);
        var decision := Policy.EvaluateAssignment(cfg.policy, Policy.AssignmentInput(job.tenant, task.typ,
          Get(task.inputs, "model"), Get(task.inputs, "_data_classification"), Get(task.inputs, "_network_isolation"),
          w.locality, w.gpu, running));
        if !decision.allowed {
          UpdateTask(ref, task.(status := Failed), now);
          UpdateJob(ref.jobId, job.(status := Failed));
          Note([Denied(ref)]);
          return NotReady;
        }
      }
      var inputs := AssignmentInputs(ref, task);
      var leased := task.(status := Assigned, worker := worker, attempt := task.attempt + 1);
      leased := leased.(leaseId := NewLeaseId(worker, ref.taskId, leased.attempt, now), updatedAt := now);
      leased := leased.(leaseExpires := Some(LeaseExpiry(leased, now, cfg.leaseNanos)));
      UpdateTask(ref, leased, now);
      var a := Assignment(ref, task.typ, inputs, leased.attempt, leased.leaseId);
      Note([HandedOut(a, worker, now)]);
      assert leased == LeasedTask(cfg, task, ref.taskId, worker, now);
      res := Given(a);
    }

    method CountRunning(tenant: string) returns (count: nat)
      ensures count == CountTasks(View(), tenant, Running)
    {
      count := store.CountTasksByTenantStatus(tenant, Running);
    }

    /** tryAssign; `fault` says that the store fails to answer. */
    method TryAssign(worker: string, ref: TaskRef, now: int, fault: bool) returns (res: TryResult, ghost c: Choice)
      modifies this, store, queue
      ensures View() == Scheduler.TryAssign(cfg, old(View()), worker, ref, now, c).0
      ensures res == Scheduler.TryAssign(cfg, old(View()), worker, ref, now, c).1
      ensures res.Given? ==> Lists(c.workers, old(View()).workers.Keys)
      ensures c.tasks == [] || Lists(c.tasks, Busy(old(View()).tasks, worker))
    {
      hide View, BestWorker, NearBest, Victim, Scheduler.Grant, DepsDone, Capacity, TaskRank;
      ghost var s := View();
      c := Choice(fault, [], []);
      if fault {
        return StoreFault, c;
      }
      var job := GetJob(ref.jobId);
      if job.None? || job.value.status != Running {
        return NotReady, c;
      }
      var task := GetTask(ref);
      if task.None? || task.value.status != Queued {
        return NotReady, c;
      }
      var t := task.value;
      if t.leaseExpires.Some? && t.leaseExpires.value > now {
        return NotReady, c;
      }
      var ready := DependenciesCompleted(ref.jobId, t.deps);
      if !ready {
        return NotReady, c;
      }
      var best, workers := BestWorkerForTask(ref, t, job.value, now);
      c := c.(workers := workers);
      if best != "" && best != worker {
        return NotReady, c;
      }
      var w := GetWorker(worker);
      if w.None? {
        return NotReady, c;
      }
      if cfg.preempt && AtCapacity(w.value) {
        var victim, tasks := TryPreemptLowerPriority(worker, TaskRank(t), now);
        c := c.(tasks := tasks);
        if victim.None? {
          return NotReady, c;
        }
        PreemptKeepsDeps(s, victim.value, now, ref.jobId, t.deps);
      }
      res := Grant(worker, w.value, ref, t, job.value, now);
    }

    // ---------- PollAssignments ----------

    /** sort.SliceStable over the claims; the less function looks the tasks up in the store. */
    method SortClaimed(claims: seq<Claim>) returns (sorted: seq<Claim>)
      ensures sorted == SortClaims(cfg, View(), claims)
    {
      var table := store.tasks;
      var before := (a: Claim, b: Claim) => BeforeIn(cfg, table, a, b);
      sorted := Sorting.StableSort(claims, before);
      SortedIn(cfg, View(), table, claims, before);
    }

    /** The assignment loop: each claim ends up handed out, not ready, or failed. */
    method AssignClaims(worker: string, max: int, claims: seq<Claim>, now: int, faults: seq<bool>)
      returns (given: seq<Assignment>, acks: seq<Claim>, nacks: seq<Claim>, errs: seq<Claim>, ghost choices: seq<Choice>)
      modifies this, store, queue
      ensures AssignAll(cfg, old(View()), worker, max, claims, |claims|, now, choices)
           == Acc(View(), given, acks, nacks, errs)
    {
      hide View, Scheduler.TryAssign;
      ghost var s := View();
      given, acks, nacks, errs, choices := [], [], [], [], [];
      for i := 0 to |claims|
        invariant |choices| == i
        invariant AssignAll(cfg, s, worker, max, claims, i, now, choices) == Acc(View(), given, acks, nacks, errs)
      {
        if |given| >= max {
          ChoicesSoFar(cfg, s, worker, max, claims, i, now, choices, [NO_CHOICE]);
          nacks := nacks + [claims[i]];
          choices := choices + [NO_CHOICE];
          continue;
        }
        var res, c := TryAssign(worker, claims[i].ref, now, i < |faults| && faults[i]);
        ChoicesSoFar(cfg, s, worker, max, claims, i, now, choices, [c]);
        choices := choices + [c];
        assert ChoiceAt(choices, i) == c;
        match res {
          case StoreFault => errs := errs + [claims[i]];
          case NotReady => nacks := nacks + [claims[i]];
          case Given(a) =>
            given := given + [a];
            acks := acks + [claims[i]];
        }
      }
    }

    /** `faults` says for which claims, in the order tried, the store fails to answer. */
    method PollAssignments(worker: string, max: int, now: int, faults: seq<bool>)
      returns (result: PollResult, ghost orders: PollOrders)
      modifies this, store, queue
      ensures View() == Scheduler.PollAssignments(cfg, old(View()), worker, max, now, orders).0
      ensures result == Scheduler.PollAssignments(cfg, old(View()), worker, max, now, orders).1
      ensures worker in old(View()).workers ==>
        Lists(orders.receipts, old(View()).queue.inflight.Keys) && Lists(orders.tasks, old(View()).tasks.Keys)
    {
      hide View, ExpireLeases, Q.RequeueExpired, Q.Claims, SortClaims, AssignAll, Lists, Q.Ack, Q.Nack;
      ghost var s := View();
      orders := PollOrders([], [], []);
      Tick(now);
      var w := GetWorker(worker);
      if w.None? {
        return Unregistered, orders;
      }
      var m := if max <= 0 then 1 else max;
      ghost var receipts := RequeueExpiredClaims(now, m * 8);
      ghost var tasks := RequeueExpiredLeases(now);
      var claims := ClaimUpTo(m * 32, worker, now);
      var sorted := SortClaimed(claims);
      var given, acks, nacks, errs, choices := AssignClaims(worker, m, sorted, now, faults);
      SettleClaims(acks, nacks, errs);
      orders := PollOrders(receipts, tasks, choices);
      result := Polled(given);
    }

    method RequeueExpiredClaims(now: int, max: int) returns (ghost listing: seq<string>)
      modifies queue
      ensures Lists(listing, old(View()).queue.inflight.Keys)
      ensures View() == old(View()).(queue := Q.RequeueExpired(old(View()).queue, listing, now, max))
    {
      hide Q.RequeueExpired, Lists;
      var moved, l := queue.RequeueExpired(now, max);
      listing := l;
    }

    method ClaimUpTo(max: int, worker: string, now: int) returns (claims: seq<Claim>)
      modifies queue
      ensures var r := Q.Claims(old(View()).queue, Q.ClaimCount(old(View()).queue, max), worker, now, cfg.leaseNanos);
              View() == old(View()).(queue := r.0) && claims == r.1
    {
      hide Q.Claims;
      claims := queue.Claim(max, worker, now, cfg.leaseNanos);
    }

    method SettleClaims(acks: seq<Claim>, nacks: seq<Claim>, errs: seq<Claim>)
      modifies queue
      ensures View() == old(View()).(queue := Q.Nack(Q.Nack(Q.Ack(old(View()).queue, acks), nacks, false), errs, true))
    {
      hide Q.Ack, Q.Nack;
      queue.Ack(acks);
      queue.Nack(nacks, false);
      queue.Nack(errs, true);
    }

    // ---------- ReportTaskResult ----------

    /** A finished model_download makes its model known of the reporting worker. */
    method LearnModel(t: Task, req: ReportReq)
      modifies store
      ensures View() == old(View()).(workers := WithModel(old(View()).workers, t, req))
    {
      hide View, Trim, EqualFold, ContainsFold;
      if req.status == SaysCompleted && EqualFold(t.typ, "model_download") && Trim(req.worker) != "" {
        var model := Trim(Get(t.inputs, "model"));
        if model != "" {
          var w := GetWorker(req.worker);
          if w.Some? && !ContainsFold(w.value.models, model) {
            UpsertWorker(req.worker, w.value.(models := w.value.models + [model]));
          }
        }
      }
    }

    /** The queued tasks of the job whose dependencies are done, in the order listed. */
    method FindReady(rows: seq<M.Row>) returns (refs: seq<TaskRef>)
      requires M.Stored(rows, View().tasks)
      ensures refs == Filter(M.RowRefs(rows), ReadyTest(View().tasks))
    {
      hide View, DepsDone, Filter;
      ghost var all := M.RowRefs(rows);
      ghost var ready := ReadyTest(View().tasks);
      NothingPicked(ready);
      refs := [];
      for i := 0 to |rows|
        invariant refs == Filter(all[..i], ready)
      {
        FilterPush(all, i, ready);
        var r, t := rows[i].ref, rows[i].task;
        if t.status != Queued {
          continue;
        }
        var ok := DependenciesCompleted(r.jobId, t.deps);
        if ok {
          refs := refs + [r];
        }
      }
      assert all[..|rows|] == all;
    }

    /** A retried task goes back to the queue; a completed one releases the tasks that are now ready. */
    method EnqueueFollowUps(ref: TaskRef, t: Task, rows: seq<M.Row>)
      requires M.Stored(rows, View().tasks)
      modifies queue
      ensures View() == old(View()).(queue := Q.Enqueue(old(View()).queue,
        if t.status == Queued then [ref]
        else if t.status == Completed then Filter(M.RowRefs(rows), ReadyTest(old(View()).tasks))
        else []))
    {
      hide View, Q.Enqueue, ReadyTest, Filter;
      if t.status == Queued {
        Enqueue([ref]);
      } else if t.status == Completed {
        var refs := FindReady(rows);
        Enqueue(refs);
      } else {
        Enqueue([]);
      }
    }

    /** What a final report does to the job: requeue or release tasks, and bring its status in line. */
    method Conclude(ref: TaskRef, t: Task, job: Job, req: ReportReq) returns (ghost listing: seq<TaskRef>)
      requires ref in View().tasks && View().tasks[ref] == t && ref.jobId in View().jobs && View().jobs[ref.jobId] == job
      requires req.status != SaysRunning
      modifies store, queue
      ensures Lists(listing, old(View()).tasks.Keys)
      ensures View() == Concluded(old(View()), ref, t, req, listing)
    {
      hide View, Lists, WithModel, StatusOf, ReadyRefs, ReadyTest, Filter, Failures, Q.Enqueue, M.Stored, M.RowRefs, ListOf;
      ghost var tasks := View().tasks;
      LearnModel(t, req);
      var rows := ListTasksByJob(ref.jobId);
      ghost var others := ListOf(set r | r in tasks && r.jobId != ref.jobId);
      listing := M.RowRefs(rows) + others;
      ReadyListed(tasks, ref.jobId, M.RowRefs(rows), others);
      EnqueueFollowUps(ref, t, rows);
      CountsGiveStatus(tasks, ref.jobId, rows);
      var status := CountedStatus(rows);
      UpdateJob(ref.jobId, job.(status := status));
    }

    method ReportTaskResult(req: ReportReq, now: int) returns (verdict: Verdict, ghost listing: seq<TaskRef>)
      modifies this, store, queue
      ensures View() == Scheduler.Report(old(View()), req, listing, now)
      ensures verdict == Judge(old(View()), req) && Lists(listing, old(View()).tasks.Keys)
    {
      hide View, Lists, Concluded, RetryBackoff, StatusOf, WithModel, ReadyRefs, Q.Enqueue, ListOf;
      ghost var s := View();
      Tick(now);
      listing := ListOf(s.tasks.Keys);
      var job := GetJob(req.ref.jobId);
      var task := GetTask(req.ref);
      if job.None? || task.None? {
        return Unknown, listing;
      }
      if IsClosed(job.value.status) {
        return Ignored, listing;
      }
      var t := task.value;
      if req.key != "" && t.lastReportKey == req.key {
        return Replay, listing;
      }
      if req.leaseId != "" && t.leaseId != "" && req.leaseId != t.leaseId {
        return Stale, listing;
      }
      t := t.(outputUri := req.outputUri, lastReportKey := req.key, leaseId := "", leaseExpires := None, updatedAt := now);
      if req.status == SaysRunning {
        t := t.(status := Running, worker := req.worker);
      } else if req.status == SaysCompleted {
        t := t.(status := Completed);
      } else if t.attempt <= t.maxRetries {
        t := t.(status := Queued, worker := "", leaseExpires := Some(now + RetryBackoff(t.attempt)));
      } else {
        t := t.(status := Failed);
      }
      UpdateTask(req.ref, t, now);
      Note([Accepted(req.ref, req.key)]);
      assert t == ReportedTask(s.tasks[req.ref], req, now);
      AcceptedConcludes(s.(clock := now), req, listing, now);
      verdict := Accept;
      if req.status != SaysRunning {
        ghost var keys := View().tasks.Keys;
        assert keys == s.tasks.Keys;
        listing := Conclude(req.ref, t, job.value, req);
        AcceptedConcludes(s.(clock := now), req, listing, now);
      }
    }

    // ---------- RequeueDeadLetters ----------

    method RequeueDeadLetters(refs: seq<TaskRef>, now: int) returns (requeued: nat)
      modifies this, queue
      ensures View() == Scheduler.RequeueDead(old(View()), refs, now)
      ensures requeued == |Q.TakeRequested(old(View()).queue.dead, multiset(Keys(refs))).0|
    {
      Tick(now);
      requeued := queue.RequeueDeadLetters(refs);
    }
  }

  datatype Gathered = Gathered(inv: Inventory, usage: map<string, nat>, spread: bool, running: nat)

  ghost predicate GatheredFor(s: State, ref: TaskRef, g: Gathered)
    requires ref in s.tasks && ref.jobId in s.jobs
  {
    && g.inv == InventoryOf(s.tasks[ref], s.workers)
    && g.spread == SpreadStage(s, ref)
    && g.running == CountTasks(s, s.jobs[ref.jobId].tenant, Running)
    && (g.spread ==> forall w :: Usage(g.usage, w) == StageUse(s, ref, w))
  }

  lemma InventoryListed(task: Task, workers: map<string, Worker>, ids: seq<string>, inv: Inventory)
    requires Lists(ids, workers.Keys) && task.typ == "llm_inference"
    requires forall k :: 0 <= k < |ids| ==> ids[k] in workers
    requires inv.backends <==> exists k :: 0 <= k < |ids| && HasBackendInventory(workers[ids[k]])
    requires inv.models <==> exists k :: 0 <= k < |ids| && |workers[ids[k]].models| > 0
    ensures inv == InventoryOf(task, workers)
  {
    hide HasBackendInventory;
    forall id | id in workers ensures exists k :: 0 <= k < |ids| && ids[k] == id {
      assert id in ids;
    }
  }

  lemma NothingStaged(tasks: map<TaskRef, Task>, key: string)
    ensures Filter([], StageTest(tasks, key)) == []
    ensures forall w :: Filter([], PlacedTest(tasks, key, w)) == []
  {
  }

  /** Victim looks for the first lower rank among the busy tasks, oldest update first. */
  lemma VictimSorted(s: State, worker: string, rank: int, rows: seq<M.Row>, older: (M.Row, M.Row) -> bool)
    requires M.Stored(rows, s.tasks) && Lists(M.RowRefs(rows), Busy(s.tasks, worker))
    requires forall a: M.Row, b: M.Row :: older(a, b) == (a.task.updatedAt < b.task.updatedAt)
    ensures Victim(s, worker, rank, M.RowRefs(rows))
         == FirstLower(s, M.RowRefs(Sorting.StableSort(rows, older)), rank)
    ensures M.Stored(Sorting.StableSort(rows, older), s.tasks)
  {
    var refs := M.RowRefs(rows);
    FilterAll(refs, r => Occupies(s, worker, r));
    var byRef := (a: TaskRef, b: TaskRef) => UpdatedAt(s, a) < UpdatedAt(s, b);
    forall a, b | a in rows && b in rows ensures older(a, b) == byRef(a.ref, b.ref) {
    }
    SortRefs(rows, older, byRef);
    Sorting.SortMembers(rows, older);
    var sorted := Sorting.StableSort(rows, older);
    forall i | 0 <= i < |sorted| ensures sorted[i].ref in s.tasks && sorted[i].task == s.tasks[sorted[i].ref] {
      assert sorted[i] in rows;
    }
  }

  lemma OldestOfLowerRank(s: State, worker: string, rank: int, listing: seq<TaskRef>)
    requires Lists(listing, Busy(s.tasks, worker))
    ensures forall r :: r in Busy(s.tasks, worker) && TaskRank(s.tasks[r]) < rank ==>
      Victim(s, worker, rank, listing).Some?
      && s.tasks[Victim(s, worker, rank, listing).value].updatedAt <= s.tasks[r].updatedAt
  {
    hide Victim, TaskRank;
    forall r | r in Busy(s.tasks, worker) && TaskRank(s.tasks[r]) < rank
      ensures Victim(s, worker, rank, listing).Some?
      ensures s.tasks[Victim(s, worker, rank, listing).value].updatedAt <= s.tasks[r].updatedAt
    {
      assert r in listing;
      P.VictimIff(s, worker, rank, listing);
      P.VictimIsOldest(s, worker, rank, listing, r);
    }
  }

  // ---------- the poll's claim order ----------

  function RankIn(table: M.Table, r: TaskRef): int { if M.Holds(table, r) then TaskRank(table[r.jobId][r.taskId]) else 0 }

  function CreatedIn(table: M.Table, r: TaskRef): int { if M.Holds(table, r) then table[r.jobId][r.taskId].createdAt else 0 }

  predicate BeforeIn(cfg: Config, table: M.Table, a: Claim, b: Claim) {
    if RankIn(table, a.ref) != RankIn(table, b.ref) then RankIn(table, a.ref) > RankIn(table, b.ref)
    else if CreatedIn(table, a.ref) == CreatedIn(table, b.ref) then
      cfg.tie(RefText(a.ref), a.claimedBy) > cfg.tie(RefText(b.ref), b.claimedBy)
    else CreatedIn(table, a.ref) < CreatedIn(table, b.ref)
  }

  lemma SortedIn(cfg: Config, s: State, table: M.Table, claims: seq<Claim>, before: (Claim, Claim) -> bool)
    requires s.tasks == M.Flat(table)
    requires forall a: Claim, b: Claim :: before(a, b) == BeforeIn(cfg, table, a, b)
    ensures Sorting.StableSort(claims, before) == SortClaims(cfg, s, claims)
  {
    hide TaskRank, RefText;
    SortSame(claims, before, (a, b) => ClaimBefore(cfg, s, a, b));
  }

  // ---------- concluding a report ----------

  function Concluded(s: State, ref: TaskRef, t: Task, req: ReportReq, listing: seq<TaskRef>): State
    requires ref.jobId in s.jobs
  {
    s.(workers := WithModel(s.workers, t, req),
       queue := Q.Enqueue(s.queue,
         if t.status == Queued then [ref]
         else if t.status == Completed then ReadyRefs(s.tasks, ref.jobId, listing)
         else []),
       jobs := s.jobs[ref.jobId := s.jobs[ref.jobId].(status := StatusOf(s.tasks, ref.jobId))])
  }

  /** The state once the reported record is written. */
  function Filed(s: State, req: ReportReq, now: int): State
    requires req.ref in s.tasks
  {
    s.(tasks := s.tasks[req.ref := ReportedTask(s.tasks[req.ref], req, now)], log := s.log + [Accepted(req.ref, req.key)])
  }

  lemma AcceptedConcludes(s: State, req: ReportReq, listing: seq<TaskRef>, now: int)
    requires req.ref in s.tasks && req.ref.jobId in s.jobs
    ensures AcceptReport(s, req, listing, now)
         == if req.status == SaysRunning then Filed(s, req, now)
            else Concluded(Filed(s, req, now), req.ref, ReportedTask(s.tasks[req.ref], req, now), req, listing)
  {
    hide WithModel, ReadyRefs, StatusOf, Q.Enqueue, ReportedTask;
  }

  lemma NothingPicked(keep: TaskRef -> bool)
    ensures Filter([], keep) == [] && JobIds([]) == {}
  {
  }

  lemma RowsDistinct(rows: seq<M.Row>, listing: seq<TaskRef>, tasks: map<TaskRef, Task>, now: int)
    requires Lists(listing, tasks.Keys)
    requires M.RowRefs(rows) == Filter(listing, M.Test(tasks, (r, t: Task) => Expired(t, now)))
    ensures forall i, j :: 0 <= i < j < |rows| ==> rows[i].ref != rows[j].ref
  {
    FilterDistinct(listing, tasks.Keys, M.Test(tasks, (r, t: Task) => Expired(t, now)));
    var refs := M.RowRefs(rows);
    forall i, j | 0 <= i < j < |rows| ensures rows[i].ref != rows[j].ref {
      assert refs[i] == rows[i].ref && refs[j] == rows[j].ref;
    }
  }

  lemma BusyAt(tasks: map<TaskRef, Task>, worker: string, refs: seq<TaskRef>, i: nat)
    requires Lists(refs, Busy(tasks, worker)) && i < |refs|
    ensures refs[i] in Busy(tasks, worker)
  {
  }
}
