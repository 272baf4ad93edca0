/** Every step of the scheduler keeps the invariants. */
module Preservation {
  import opened Text
  import opened Records
  import opened Leases
  import opened Scheduler
  import opened Invariants

  /** A report is orderly unless it touches a finished task in some other way than by replaying its last key. */
  ghost predicate Orderly(s: State, req: ReportReq) {
    req.ref in s.tasks && s.tasks[req.ref].status in {Completed, Failed} ==>
      req.key != "" && req.key == s.tasks[req.ref].lastReportKey
  }

  ghost predicate OrderlyAction(s: State, a: Action) { a.Tell? ==> Orderly(s, a.req) }

  ghost predicate FreshAction(s: State, a: Action) { a.Submit? ==> a.sub.jobId !in s.jobs }

  ghost predicate Admissible(s: State, a: Action, m: Mode) {
    (m.orderly ==> OrderlyAction(s, a)) && (m.uniqueJobs ==> FreshAction(s, a))
  }

  // ---------- one task, one event ----------

  /** Everything but the job statuses survives a good update of one task. */
  lemma UpdateInv(cfg: Config, s: State, s': State, ref: TaskRef, t: Task, e: Event, m: Mode)
    requires Inv(cfg, s, m) && GoodUpdate(cfg, s, ref, t, e)
    requires t.status != Canceled && t.status != Archived
    requires s'.tasks == s.tasks[ref := t] && s'.log == s.log + [e] && s'.jobs == s.jobs && s'.clock == s.clock
    ensures Inv(cfg, s', m.(orderly := false))
  {
    UpdateAttempts(cfg, s, ref, t, e);
    UpdateKeys(cfg, s, ref, t, e);
    if m.uniqueJobs { UpdateHandouts(cfg, s, ref, t, e); }
    SaneMove(s.jobs, s.tasks, ref, t);
  }

  lemma LeasedTaskOk(cfg: Config, s: State, ref: TaskRef, worker: string, now: int)
    requires Inv(cfg, s, Mode(false, false)) && ref in s.tasks && s.tasks[ref].status == Queued
    requires s.clock == now && 0 < now
    ensures LeaseOk(cfg, s.clock, ref, LeasedTask(cfg, s.tasks[ref], ref.taskId, worker, now))
  {
    var t := s.tasks[ref];
    LeaseStartRoundTrip(worker, ref.taskId, t.attempt + 1, now);
    LeaseIdNonEmpty(worker, ref.taskId, t.attempt + 1, now);
  }

  lemma HandOutInv(cfg: Config, s: State, ref: TaskRef, worker: string, now: int, m: Mode)
    requires Inv(cfg, s, m) && ref in s.tasks && s.tasks[ref].status == Queued
    requires s.clock == now && 0 < now
    ensures Inv(cfg, HandOut(cfg, s, ref, worker, now), m)
  {
    var t := LeasedTask(cfg, s.tasks[ref], ref.taskId, worker, now);
    var e := HandedOut(AssignmentOf(s, ref, worker, now), worker, now);
    LeasedTaskOk(cfg, s, ref, worker, now);
    SetbacksPush(s.log, e, ref);
    assert AttemptOk(s.log, ref, s.tasks[ref]);
    UpdateInv(cfg, s, HandOut(cfg, s, ref, worker, now), ref, t, e, m);
    if m.orderly { QuietMove(s.jobs, s.tasks, ref, t); }
  }

  lemma PreemptInv(cfg: Config, s: State, v: TaskRef, now: int, m: Mode)
    requires Inv(cfg, s, m) && v in s.tasks && s.tasks[v].status in {Running, Assigned}
    ensures Inv(cfg, Preempt(s, v, now), m)
  {
    var s' := Preempt(s, v, now);
    SetbacksPush(s.log, Preempted(v), v);
    assert AttemptOk(s.log, v, s.tasks[v]);
    UpdateInv(cfg, s, s', v, s'.tasks[v], Preempted(v), m);
    if m.orderly { QuietMove(s.jobs, s.tasks, v, s'.tasks[v]); }
  }

  lemma FailedJobOk(jobs: map<string, Job>, tasks: map<TaskRef, Task>, ref: TaskRef, t: Task)
    requires StatusesOk(jobs, tasks) && ref in tasks && ref.jobId in jobs && t.status == Failed
    ensures StatusesOk(jobs[ref.jobId := jobs[ref.jobId].(status := Failed)], tasks[ref := t])
  {
    var tasks' := tasks[ref := t];
    var jobs' := jobs[ref.jobId := jobs[ref.jobId].(status := Failed)];
    assert ref in tasks' && tasks'[ref].status == Failed;
    forall j | j in jobs' ensures JobOk(jobs'[j], tasks', j) {
      if j != ref.jobId {
        assert JobOk(jobs[j], tasks, j);
        StatusOfSame(tasks, tasks', j);
      }
    }
  }

  /** Changing the status of one open job, while its tasks stay, keeps the store sane. */
  lemma SaneJob(jobs: map<string, Job>, tasks: map<TaskRef, Task>, j: string, job: Job)
    requires Sane(jobs, tasks) && j in jobs
    requires IsClosed(jobs[j].status) ==> IsClosed(job.status)
    requires job.status == Running ==> HasTasks(tasks, j)
    ensures Sane(jobs[j := job], tasks)
  {
    forall r | r in tasks ensures TaskSane(jobs[j := job], r, tasks[r]) {
      assert TaskSane(jobs, r, tasks[r]);
    }
  }

  lemma DenyInv(cfg: Config, s: State, ref: TaskRef, now: int, m: Mode)
    requires Inv(cfg, s, m) && ref in s.tasks && s.tasks[ref].status == Queued
    requires ref.jobId in s.jobs && s.jobs[ref.jobId].status == Running
    ensures Inv(cfg, Deny(s, ref, now), m)
  {
    var s' := Deny(s, ref, now);
    var t := s'.tasks[ref];
    SetbacksPush(s.log, Denied(ref), ref);
    assert AttemptOk(s.log, ref, s.tasks[ref]) && LeaseOk(cfg, s.clock, ref, s.tasks[ref]);
    UpdateInv(cfg, s, s'.(jobs := s.jobs), ref, t, Denied(ref), m);
    SaneJob(s.jobs, s'.tasks, ref.jobId, s'.jobs[ref.jobId]);
    if m.orderly { FailedJobOk(s.jobs, s.tasks, ref, t); }
  }

  // ---------- reports ----------

  lemma ReportAttempt(log: seq<Event>, ref: TaskRef, t: Task, req: ReportReq, now: int)
    requires AttemptOk(log, ref, t)
    ensures AttemptOk(log + [Accepted(ref, req.key)], ref, ReportedTask(t, req, now))
  {
    SetbacksPush(log, Accepted(ref, req.key), ref);
  }

  lemma ReportGood(cfg: Config, s: State, req: ReportReq, now: int)
    requires Inv(cfg, s, Mode(false, false)) && req.ref in s.tasks
    ensures GoodUpdate(cfg, s, req.ref, ReportedTask(s.tasks[req.ref], req, now), Accepted(req.ref, req.key))
  {
    ReportAttempt(s.log, req.ref, s.tasks[req.ref], req, now);
    var t := ReportedTask(s.tasks[req.ref], req, now);
    assert t.leaseId == "" && t.status != Assigned && t.lastReportKey == req.key;
  }

  /** Recomputing a job's status from its tasks makes it right, whatever happened to one of them. */
  lemma RecomputedJobOk(jobs: map<string, Job>, tasks: map<TaskRef, Task>, ref: TaskRef, t: Task)
    requires StatusesOk(jobs, tasks) && ref in tasks && ref.jobId in jobs
    ensures StatusesOk(jobs[ref.jobId := jobs[ref.jobId].(status := StatusOf(tasks[ref := t], ref.jobId))], tasks[ref := t])
  {
    var tasks' := tasks[ref := t];
    var jobs' := jobs[ref.jobId := jobs[ref.jobId].(status := StatusOf(tasks', ref.jobId))];
    forall j | j in jobs' ensures JobOk(jobs'[j], tasks', j) {
      if j != ref.jobId {
        assert JobOk(jobs[j], tasks, j);
        StatusOfSame(tasks, tasks', j);
      }
    }
  }

  lemma AcceptReportInv(cfg: Config, s: State, req: ReportReq, listing: seq<TaskRef>, now: int, m: Mode)
    requires Inv(cfg, s, m) && Judge(s, req).Accept?
    requires m.orderly ==> Orderly(s, req)
    ensures Inv(cfg, AcceptReport(s, req, listing, now), m)
  {
    var ref, j := req.ref, req.ref.jobId;
    var t := ReportedTask(s.tasks[ref], req, now);
    var s' := AcceptReport(s, req, listing, now);
    ReportGood(cfg, s, req, now);
    UpdateInv(cfg, s, s'.(jobs := s.jobs), ref, t, Accepted(ref, req.key), m);
    if req.status == SaysRunning {
      if m.orderly { QuietMove(s.jobs, s.tasks, ref, t); }
    } else {
      assert ref in s'.tasks;
      SaneJob(s.jobs, s'.tasks, j, s'.jobs[j]);
      if m.orderly { RecomputedJobOk(s.jobs, s.tasks, ref, t); }
    }
  }

  // ---------- many tasks at once ----------

  lemma ClockInv(cfg: Config, s: State, now: int, m: Mode)
    requires Inv(cfg, s, m) && s.clock <= now <= INT64_MAX
    ensures Inv(cfg, s.(clock := now), m)
  {
    forall r | r in s.tasks ensures LeaseOk(cfg, now, r, s.tasks[r]) {
      assert LeaseOk(cfg, s.clock, r, s.tasks[r]);
    }
  }

  lemma ExtendedOk(cfg: Config, s: State, now: int, r: TaskRef, t: Task)
    requires LeaseOk(cfg, now, r, t) && cfg.leaseNanos > 0
    requires AttemptOk(s.log, r, t) && TaskSane(s.jobs, r, t)
    ensures LeaseOk(cfg, now, r, Extended(cfg, t, now)) && AttemptOk(s.log, r, Extended(cfg, t, now))
    ensures TaskSane(s.jobs, r, Extended(cfg, t, now))
  {
    hide LeaseStart, NewLeaseId, Setbacks;
  }

  lemma HeartbeatInv(cfg: Config, s: State, worker: string, b: Beat, now: int, m: Mode)
    requires Inv(cfg, s, m) && s.clock <= now <= INT64_MAX
    ensures Inv(cfg, Heartbeat(cfg, s, worker, b, now), m)
  {
    hide LeaseOk, AttemptOk, TaskSane, LastKey, HandoutsOk, StatusesOk;
    ClockInv(cfg, s, now, m);
    var s' := Heartbeat(cfg, s, worker, b, now);
    forall r | r in s'.tasks
      ensures LeaseOk(cfg, now, r, s'.tasks[r]) && AttemptOk(s.log, r, s'.tasks[r])
      ensures s'.tasks[r].lastReportKey == LastKey(s.log, r) && TaskSane(s.jobs, r, s'.tasks[r])
    {
      assert LeaseOk(cfg, now, r, s.tasks[r]) && AttemptOk(s.log, r, s.tasks[r]) && TaskSane(s.jobs, r, s.tasks[r]);
      ExtendedOk(cfg, s, now, r, s.tasks[r]);
    }
    SameStatuses(cfg, s, s', m);
  }

  /** The job-level and history-level parts of the invariant survive when every task keeps its status and attempt. */
  lemma SameStatuses(cfg: Config, s: State, s': State, m: Mode)
    requires Inv(cfg, s, m)
    requires s'.jobs == s.jobs && s'.log == s.log && s'.tasks.Keys == s.tasks.Keys
    requires forall r :: r in s.tasks ==> s'.tasks[r].status == s.tasks[r].status && s'.tasks[r].attempt == s.tasks[r].attempt
    ensures forall j :: j in s'.jobs && s'.jobs[j].status == Running ==> HasTasks(s'.tasks, j)
    ensures m.uniqueJobs ==> HandoutsOk(s'.tasks, s'.log)
    ensures m.orderly ==> StatusesOk(s'.jobs, s'.tasks)
  {
    forall j | j in s.jobs && s.jobs[j].status == Running ensures HasTasks(s'.tasks, j) {
      HasTasksKept(s.tasks, s'.tasks, j);
    }
    if m.uniqueJobs { HandoutsKept(s.tasks, s'.tasks, s.log, []); assert s.log + [] == s.log; }
    if m.orderly {
      forall j | j in s.jobs ensures JobOk(s'.jobs[j], s'.tasks, j) {
        assert JobOk(s.jobs[j], s.tasks, j);
        StatusOfSame(s.tasks, s'.tasks, j);
      }
    }
  }

  lemma HandoutsKept(a: map<TaskRef, Task>, b: map<TaskRef, Task>, log: seq<Event>, es: seq<Event>)
    requires HandoutsOk(a, log) && a.Keys <= b.Keys
    requires forall r :: r in a ==> a[r].attempt <= b[r].attempt
    requires forall i :: 0 <= i < |es| ==> !es[i].HandedOut?
    ensures HandoutsOk(b, log + es)
  {
    var log' := log + es;
    forall i | 0 <= i < |log'| && log'[i].HandedOut? ensures HandoutOk(b, log'[i]) {
      assert HandoutOk(a, log[i]);
    }
    forall i, k | 0 <= i < k < |log'| ensures Earlier(log'[i], log'[k]) {
      if k < |log| { assert Earlier(log[i], log[k]); }
    }
  }

  lemma CancelInv(cfg: Config, s: State, jobId: string, now: int, m: Mode)
    requires Inv(cfg, s, m) && s.clock <= now <= INT64_MAX
    ensures Inv(cfg, CancelJob(s, jobId, now), m)
  {
    ClockInv(cfg, s, now, m);
    var s' := CancelJob(s, jobId, now);
    if jobId in s.jobs && !IsTerminal(s.jobs[jobId].status) {
      forall r | r in s'.tasks
        ensures LeaseOk(cfg, now, r, s'.tasks[r]) && AttemptOk(s.log, r, s'.tasks[r])
        ensures s'.tasks[r].lastReportKey == LastKey(s.log, r) && TaskSane(s'.jobs, r, s'.tasks[r])
      {
        assert LeaseOk(cfg, now, r, s.tasks[r]) && AttemptOk(s.log, r, s.tasks[r]) && TaskSane(s.jobs, r, s.tasks[r]);
      }
      CancelStatuses(s, jobId, now, m);
    }
  }

  lemma CancelStatuses(s: State, jobId: string, now: int, m: Mode)
    requires jobId in s.jobs && !IsTerminal(s.jobs[jobId].status) && Sane(s.jobs, s.tasks)
    requires m.uniqueJobs ==> HandoutsOk(s.tasks, s.log)
    requires m.orderly ==> StatusesOk(s.jobs, s.tasks)
    ensures var s' := CancelJob(s, jobId, now);
      && (forall j :: j in s'.jobs && s'.jobs[j].status == Running ==> HasTasks(s'.tasks, j))
      && (m.uniqueJobs ==> HandoutsOk(s'.tasks, s'.log))
      && (m.orderly ==> StatusesOk(s'.jobs, s'.tasks))
  {
    hide HandoutsOk, StatusesOk;
    var s' := CancelJob(s, jobId, now);
    forall j | j in s'.jobs && s'.jobs[j].status == Running ensures HasTasks(s'.tasks, j) {
      HasTasksKept(s.tasks, s'.tasks, j);
    }
    if m.uniqueJobs { HandoutsKept(s.tasks, s'.tasks, s.log, []); assert s.log + [] == s.log; }
    if m.orderly { CancelJobsOk(s, jobId, now); }
  }

  lemma CancelJobsOk(s: State, jobId: string, now: int)
    requires jobId in s.jobs && !IsTerminal(s.jobs[jobId].status) && StatusesOk(s.jobs, s.tasks)
    ensures StatusesOk(CancelJob(s, jobId, now).jobs, CancelJob(s, jobId, now).tasks)
  {
    var s' := CancelJob(s, jobId, now);
    forall j | j in s'.jobs ensures JobOk(s'.jobs[j], s'.tasks, j) {
      assert JobOk(s.jobs[j], s.tasks, j);
      StatusOfSame(s.tasks, s'.tasks, j);
    }
  }

  lemma ArchiveInv(cfg: Config, s: State, jobId: string, now: int, m: Mode)
    requires Inv(cfg, s, m) && s.clock <= now <= INT64_MAX
    ensures Inv(cfg, ArchiveJob(s, jobId, now), m)
  {
    ClockInv(cfg, s, now, m);
    var s' := ArchiveJob(s, jobId, now);
    if jobId in s.jobs && IsTerminal(s.jobs[jobId].status) {
      SaneJob(s.jobs, s.tasks, jobId, s'.jobs[jobId]);
      if m.orderly {
        forall j | j in s'.jobs ensures JobOk(s'.jobs[j], s'.tasks, j) {
          assert JobOk(s.jobs[j], s.tasks, j);
        }
      }
    }
  }
}
