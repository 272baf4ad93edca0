/** The in-memory store's methods (internal/state/memory_store.go).  Jobs and workers are maps; tasks are a map of
    maps, by job and then by task.  `Tasks()` is that table as one map, the form Scheduler's state uses. */
module MemoryStore {
  import opened Records
  import opened Listings
  import S = Scheduler

  type Table = map<string, map<string, Task>>

  predicate Holds(t: Table, r: TaskRef) { r.jobId in t && r.taskId in t[r.jobId] }

  ghost function RefSet(t: Table): (refs: set<TaskRef>)
    ensures forall r :: r in refs <==> Holds(t, r)
  {
    set j, k | j in t && k in t[j] :: TaskRef(j, k)
  }

  ghost function Flat(t: Table): (m: map<TaskRef, Task>)
    ensures forall r :: r in m <==> Holds(t, r)
    ensures forall r :: r in m ==> Holds(t, r) && m[r] == t[r.jobId][r.taskId]
  {
    map r | r in RefSet(t) :: t[r.jobId][r.taskId]
  }

  function InnerOf(t: Table, jobId: string): map<string, Task> { if jobId in t then t[jobId] else map[] }

  lemma FlatPut(t: Table, r: TaskRef, task: Task)
    ensures Flat(t[r.jobId := InnerOf(t, r.jobId)[r.taskId := task]]) == Flat(t)[r := task]
  {
    var after := t[r.jobId := InnerOf(t, r.jobId)[r.taskId := task]];
    forall q ensures Holds(after, q) <==> q in Flat(t)[r := task] {
    }
  }

  lemma FlatClear(t: Table, jobId: string)
    ensures Flat(t[jobId := map[]]) == S.WithoutJob(Flat(t), jobId)
  {
    forall q ensures q in Flat(t[jobId := map[]]) <==> q in S.WithoutJob(Flat(t), jobId) {
    }
  }

  /** Rows written one after another under a job. */
  function PutAll(tasks: map<TaskRef, Task>, jobId: string, rows: seq<Row>): map<TaskRef, Task> {
    if |rows| == 0 then tasks
    else
      var last := rows[|rows| - 1];
      PutAll(tasks, jobId, rows[..|rows| - 1])[TaskRef(jobId, last.ref.taskId) := last.task]
  }

  /** A task record as a listing returns it. */
  datatype Row = Row(ref: TaskRef, task: Task)

  function RowRefs(rows: seq<Row>): (refs: seq<TaskRef>)
    ensures |refs| == |rows|
  {
    seq(|rows|, i requires 0 <= i < |rows| => rows[i].ref)
  }

  /** The rows are records of the table. */
  ghost predicate Stored(rows: seq<Row>, tasks: map<TaskRef, Task>) {
    forall i :: 0 <= i < |rows| ==> rows[i].ref in tasks && rows[i].task == tasks[rows[i].ref]
  }

  lemma RowPush(rows: seq<Row>, row: Row)
    ensures RowRefs(rows + [row]) == RowRefs(rows) + [row.ref]
  {
  }

  class MemoryStore {
    var jobs: map<string, Job>
    var tasks: Table
    var workers: map<string, Worker>

    ghost function Tasks(): map<TaskRef, Task>
      reads this
    {
      Flat(tasks)
    }

    constructor ()
      ensures jobs == map[] && Tasks() == map[] && workers == map[]
    {
      jobs, tasks, workers := map[], map[], map[];
      new;
      assert forall r :: !Holds(tasks, r);
    }

    method CreateJobWithTasks(jobId: string, job: Job, rows: seq<Row>)
      modifies this
      ensures jobs == old(jobs)[jobId := job] && workers == old(workers)
      ensures Tasks() == PutAll(S.WithoutJob(old(Tasks()), jobId), jobId, rows)
    {
      hide Flat;
      FlatClear(tasks, jobId);
      ghost var cleared := S.WithoutJob(Tasks(), jobId);
      jobs := jobs[jobId := job];
      tasks := tasks[jobId := map[]];
      for i := 0 to |rows|
        invariant jobs == old(jobs)[jobId := job] && workers == old(workers)
        invariant jobId in tasks && Tasks() == PutAll(cleared, jobId, rows[..i])
      {
        assert rows[..i + 1][..i] == rows[..i];
        var r := TaskRef(jobId, rows[i].ref.taskId);
        FlatPut(tasks, r, rows[i].task);
        tasks := tasks[jobId := tasks[jobId][r.taskId := rows[i].task]];
      }
      assert rows[..|rows|] == rows;
    }

    method UpdateJob(jobId: string, job: Job)
      modifies this`jobs
      ensures jobs == old(jobs)[jobId := job]
    {
      jobs := jobs[jobId := job];
    }

    method UpdateTask(r: TaskRef, task: Task, now: int)
      modifies this`tasks
      ensures Tasks() == old(Tasks())[r := task.(updatedAt := now)]
    {
      FlatPut(tasks, r, task.(updatedAt := now));
      if r.jobId !in tasks {
        tasks := tasks[r.jobId := map[]];
      }
      tasks := tasks[r.jobId := tasks[r.jobId][r.taskId := task.(updatedAt := now)]];
      assert tasks == old(tasks)[r.jobId := InnerOf(old(tasks), r.jobId)[r.taskId := task.(updatedAt := now)]];
    }

    method GetTask(r: TaskRef) returns (task: Text.Option<Task>)
      ensures task.Some? <==> r in Tasks()
      ensures task.Some? ==> task.value == Tasks()[r]
    {
      if r.jobId in tasks && r.taskId in tasks[r.jobId] {
        return Text.Some(tasks[r.jobId][r.taskId]);
      }
      return Text.None;
    }

    method CountJobsByTenantStatus(tenant: string, status: Status) returns (count: nat)
      ensures count == S.CountJobs(jobs, tenant, status)
    {
      ghost var js := jobs;
      ghost var keep := (j: string) => j in js && (tenant == "" || js[j].tenant == tenant) && js[j].status == status;
      count := 0;
      var left := jobs.Keys;
      assert jobs.Keys - left == {};
      while left != {}
        invariant left <= jobs.Keys && count == |Kept(jobs.Keys - left, keep)|
        decreases left
      {
        var j :| j in left;
        KeptMore(jobs.Keys - left, j, keep);
        assert jobs.Keys - (left - {j}) == jobs.Keys - left + {j};
        if (tenant == "" || jobs[j].tenant == tenant) && jobs[j].status == status {
          count := count + 1;
        }
        left := left - {j};
      }
      assert Kept(jobs.Keys - left, keep) == S.JobsOf(jobs, tenant, status);
    }

    /** The records of one job, in some order. */
    method ListTasksByJob(jobId: string) returns (out: seq<Row>)
      ensures Stored(out, Tasks())
      ensures Lists(RowRefs(out), set r | r in Tasks() && r.jobId == jobId)
    {
      hide Flat, Lists, Stored;
      out := [];
      var inner := InnerOf(tasks, jobId);
      ghost var ids: seq<string> := [];
      var left := inner.Keys;
      ListsNothing<string>();
      assert inner.Keys - left == {};
      while left != {}
        invariant left <= inner.Keys && Lists(ids, inner.Keys - left)
        invariant IdsIn(ids, inner) && out == RowsOf(jobId, inner, ids)
        decreases left
      {
        var k :| k in left;
        ListsMore(ids, inner.Keys, left, k);
        out := out + [Row(TaskRef(jobId, k), inner[k])];
        ids := ids + [k];
        left := left - {k};
      }
      assert inner.Keys - left == inner.Keys;
      RowsListed(tasks, jobId, ids);
    }

    /** The nested range over the whole table. */
    method Scan() returns (out: seq<Row>)
      ensures Stored(out, Tasks()) && Lists(RowRefs(out), Tasks().Keys)
    {
      hide Flat, Stored, Lists, RowRefs;
      out := [];
      ghost var all := Tasks();
      var left := tasks.Keys;
      NoRows(all);
      assert ListedJobs(all, tasks.Keys - left) == {};
      while left != {}
        invariant left <= tasks.Keys && Stored(out, all) && Lists(RowRefs(out), ListedJobs(all, tasks.Keys - left))
        decreases left
      {
        var j :| j in left;
        var rows := ListTasksByJob(j);
        MoreRows(out, rows, all, tasks.Keys - left, j);
        assert tasks.Keys - (left - {j}) == tasks.Keys - left + {j};
        out := out + rows;
        left := left - {j};
      }
      assert tasks.Keys - left == tasks.Keys;
      AllListed(tasks);
    }

    /** The nested range with a test on each record. */
    method Select(keep: (TaskRef, Task) -> bool) returns (out: seq<Row>, ghost listing: seq<TaskRef>)
      ensures Stored(out, Tasks()) && Lists(listing, Tasks().Keys)
      ensures RowRefs(out) == Filter(listing, Test(Tasks(), keep))
    {
      hide Flat, Lists;
      var rows := Scan();
      listing := RowRefs(rows);
      ghost var all := Tasks();
      out := [];
      for i := 0 to |rows|
        invariant Stored(out, all) && RowRefs(out) == Filter(listing[..i], Test(all, keep))
      {
        FilterPush(listing, i, Test(all, keep));
        assert rows[i].ref == listing[i] && rows[i].task == all[listing[i]];
        if keep(rows[i].ref, rows[i].task) {
          RowPush(out, rows[i]);
          out := out + [rows[i]];
        }
      }
      assert listing[..|rows|] == listing;
    }

    method ListExpiredLeasedTasks(now: int) returns (out: seq<Row>, ghost listing: seq<TaskRef>)
      ensures Stored(out, Tasks()) && Lists(listing, Tasks().Keys)
      ensures RowRefs(out) == Filter(listing, Test(Tasks(), (r, t: Task) => S.Expired(t, now)))
    {
      out, listing := Select((r, t: Task) => S.Expired(t, now));
    }

    method ListTasksByWorkerStatus(worker: string, status: Status) returns (out: seq<Row>, ghost listing: seq<TaskRef>)
      ensures Stored(out, Tasks()) && Lists(listing, Tasks().Keys)
      ensures RowRefs(out) == Filter(listing, Test(Tasks(), (r, t: Task) => S.OnWorker(t, worker) && t.status == status))
    {
      out, listing := Select((r, t: Task) => S.OnWorker(t, worker) && t.status == status);
    }

    method CountTasksByTenantStatus(tenant: string, status: Status) returns (count: nat)
      ensures count == |S.TasksOf(jobs, Tasks(), tenant, status)|
    {
      hide Flat, Lists, Stored, RowRefs;
      var keep := InTenant(jobs, tenant, status);
      var rows, listing := Select(keep);
      CountsTasks(jobs, Tasks(), tenant, status, listing);
      assert |RowRefs(rows)| == |rows|;
      return |rows|;
    }

    method UpsertWorker(id: string, worker: Worker)
      modifies this`workers
      ensures workers == old(workers)[id := worker]
    {
      workers := workers[id := worker];
    }

    method GetWorker(id: string) returns (worker: Text.Option<Worker>)
      ensures worker == if id in workers then Text.Some(workers[id]) else Text.None
    {
      return if id in workers then Text.Some(workers[id]) else Text.None;
    }

    /** The workers' ids, in some order. */
    method ListWorkers() returns (out: seq<string>)
      ensures Lists(out, workers.Keys)
    {
      hide Lists;
      out := [];
      var left := workers.Keys;
      ListsNothing<string>();
      assert workers.Keys - left == {};
      while left != {}
        invariant left <= workers.Keys && Lists(out, workers.Keys - left)
        decreases left
      {
        var id :| id in left;
        ListsMore(out, workers.Keys, left, id);
        out := out + [id];
        left := left - {id};
      }
      assert workers.Keys - left == workers.Keys;
    }

    method UpdateWorkerHeartbeat(id: string, b: S.Beat)
      modifies this`workers
      ensures workers == old(workers)[id := S.Beaten(if id in old(workers) then old(workers)[id] else S.NO_WORKER, b)]
    {
      var w := if id in workers then workers[id] else S.NO_WORKER;
      w := w.(queueDepth := b.queueDepth, runningTasks := b.runningTasks, cpuUtil := b.cpuUtil, memoryUtil := b.memoryUtil);
      w := w.(health := b.health);
      if w.health == "" {
        w := w.(health := "healthy");
      }
      workers := workers[id := w];
    }
  }

  /** A test on records as a test on refs. */
  function Test(tasks: map<TaskRef, Task>, keep: (TaskRef, Task) -> bool): TaskRef -> bool {
    r => r in tasks && keep(r, tasks[r])
  }

  function InTenant(jobs: map<string, Job>, tenant: string, status: Status): (TaskRef, Task) -> bool {
    (r: TaskRef, t: Task) =>
      r.jobId in jobs && (tenant == "" || jobs[r.jobId].tenant == tenant) && t.status == status
  }

  lemma CountsTasks(jobs: map<string, Job>, tasks: map<TaskRef, Task>, tenant: string, status: Status, listing: seq<TaskRef>)
    requires Lists(listing, tasks.Keys)
    ensures |Filter(listing, Test(tasks, InTenant(jobs, tenant, status)))| == |S.TasksOf(jobs, tasks, tenant, status)|
  {
    hide Lists;
    var keep := Test(tasks, InTenant(jobs, tenant, status));
    FilterCounts(listing, tasks.Keys, keep);
    assert Kept(tasks.Keys, keep) == S.TasksOf(jobs, tasks, tenant, status);
  }

  predicate IdsIn(ids: seq<string>, inner: map<string, Task>) { forall i :: 0 <= i < |ids| ==> ids[i] in inner }

  function RowsOf(jobId: string, inner: map<string, Task>, ids: seq<string>): (rows: seq<Row>)
    requires IdsIn(ids, inner)
    ensures |rows| == |ids|
  {
    seq(|ids|, i requires 0 <= i < |ids| => Row(TaskRef(jobId, ids[i]), inner[ids[i]]))
  }

  lemma RowsListed(t: Table, jobId: string, ids: seq<string>)
    requires IdsIn(ids, InnerOf(t, jobId)) && Lists(ids, InnerOf(t, jobId).Keys)
    ensures Stored(RowsOf(jobId, InnerOf(t, jobId), ids), Flat(t))
    ensures Lists(RowRefs(RowsOf(jobId, InnerOf(t, jobId), ids)), set r | r in Flat(t) && r.jobId == jobId)
  {
    var inner := InnerOf(t, jobId);
    var rows := RowsOf(jobId, inner, ids);
    forall i | 0 <= i < |rows| ensures rows[i].ref in Flat(t) && rows[i].task == Flat(t)[rows[i].ref] {
      assert ids[i] in inner && Holds(t, rows[i].ref);
    }
    var refs := RowRefs(rows);
    forall i, j | 0 <= i < j < |refs| ensures refs[i] != refs[j] {
      assert refs[i].taskId == ids[i] && refs[j].taskId == ids[j];
    }
    forall r ensures r in refs <==> r in Flat(t) && r.jobId == jobId {
      if r in Flat(t) && r.jobId == jobId {
        assert r.taskId in ids;
        var i :| 0 <= i < |ids| && ids[i] == r.taskId;
        assert refs[i] == r;
      }
    }
  }

  /** The refs whose job is among `jobs`. */
  ghost function ListedJobs(tasks: map<TaskRef, Task>, jobs: set<string>): set<TaskRef> {
    set r | r in tasks && r.jobId in jobs
  }

  lemma NoRows(tasks: map<TaskRef, Task>)
    ensures Stored([], tasks) && Lists(RowRefs([]), {})
  {
  }

  lemma MoreRows(out: seq<Row>, rows: seq<Row>, tasks: map<TaskRef, Task>, jobs: set<string>, j: string)
    requires Stored(out, tasks) && Lists(RowRefs(out), ListedJobs(tasks, jobs))
    requires Stored(rows, tasks) && Lists(RowRefs(rows), set r | r in tasks && r.jobId == j)
    requires j !in jobs
    ensures Stored(out + rows, tasks) && Lists(RowRefs(out + rows), ListedJobs(tasks, jobs + {j}))
  {
    var all := ListedJobs(tasks, jobs + {j});
    var left := set r | r in tasks && r.jobId == j;
    assert all - left == ListedJobs(tasks, jobs);
    ListsJoin(RowRefs(out), RowRefs(rows), all, left);
    assert RowRefs(out + rows) == RowRefs(out) + RowRefs(rows);
  }

  lemma AllListed(t: Table)
    ensures ListedJobs(Flat(t), t.Keys) == Flat(t).Keys
  {
    forall r ensures r in ListedJobs(Flat(t), t.Keys) <==> r in Flat(t).Keys {
      assert r in Flat(t) ==> Holds(t, r);
    }
  }
}
