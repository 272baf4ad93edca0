/** What every reachable state of the scheduler satisfies, stated over the store and the history log. */
module Invariants {
  import opened Text
  import opened Records
  import opened Leases
  import opened Scheduler

  // ---------- leases ----------

  /** A task holds a lease id exactly while it is Assigned; the id is the one of its worker and attempt, taken
      no later than the clock; it expires within a lease duration and never after the attempt's deadline. */
  ghost predicate LeaseOk(cfg: Config, clock: int, r: TaskRef, t: Task) {
    && (t.leaseId != "" <==> t.status == Assigned)
    && (t.status == Assigned ==>
          && LeaseStart(t.leaseId).Some?
          && t.leaseExpires.Some?
          && var start := LeaseStart(t.leaseId).value;
             && 0 < start <= clock
             && t.leaseId == NewLeaseId(t.worker, r.taskId, t.attempt, start)
             && t.leaseExpires.value <= clock + cfg.leaseNanos
             && (t.timeoutSec > 0 ==> t.leaseExpires.value <= start + t.timeoutSec * SECOND))
  }

  ghost predicate LeasesOk(cfg: Config, tasks: map<TaskRef, Task>, clock: int) {
    forall r :: r in tasks ==> LeaseOk(cfg, clock, r, tasks[r])
  }

  // ---------- attempts ----------

  function Allowance(t: Task): int { (if t.maxRetries > 0 then t.maxRetries else 0) + 1 }

  /** How often the task was preempted or lost a lease that had not timed out. */
  function Setbacks(log: seq<Event>, r: TaskRef): nat {
    if |log| == 0 then 0
    else Setbacks(log[..|log| - 1], r) + if log[|log| - 1] in {Preempted(r), Lapsed(r)} then 1 else 0
  }

  ghost predicate AttemptOk(log: seq<Event>, r: TaskRef, t: Task) {
    0 <= t.attempt && t.attempt + (if t.status == Queued then 1 else 0) <= Allowance(t) + Setbacks(log, r)
  }

  ghost predicate AttemptsOk(tasks: map<TaskRef, Task>, log: seq<Event>) {
    forall r :: r in tasks ==> AttemptOk(log, r, tasks[r])
  }

  // ---------- report keys ----------

  /** The key of the last report accepted for the task since its job was submitted. */
  function LastKey(log: seq<Event>, r: TaskRef): string {
    if |log| == 0 then ""
    else
      var e := log[|log| - 1];
      if e.Accepted? && e.ref == r then e.key
      else if e == Submitted(r.jobId) then ""
      else LastKey(log[..|log| - 1], r)
  }

  ghost predicate KeysOk(tasks: map<TaskRef, Task>, log: seq<Event>) {
    forall r :: r in tasks ==> tasks[r].lastReportKey == LastKey(log, r)
  }

  // ---------- hand-outs ----------

  ghost predicate HandoutOk(tasks: map<TaskRef, Task>, e: Event)
    requires e.HandedOut?
  {
    var ref := e.given.ref;
    && ref in tasks
    && e.given.attempt <= tasks[ref].attempt
    && e.given.leaseId == NewLeaseId(e.worker, ref.taskId, e.given.attempt, e.at)
  }

  ghost predicate Earlier(a: Event, b: Event) {
    a.HandedOut? && b.HandedOut? && a.given.ref == b.given.ref ==> a.given.attempt < b.given.attempt
  }

  /** Every hand-out names an attempt the task has reached, and a task's hand-outs carry growing attempts. */
  ghost predicate HandoutsOk(tasks: map<TaskRef, Task>, log: seq<Event>) {
    && (forall i :: 0 <= i < |log| && log[i].HandedOut? ==> HandoutOk(tasks, log[i]))
    && (forall i, k :: 0 <= i < k < |log| ==> Earlier(log[i], log[k]))
  }

  // ---------- jobs ----------

  ghost predicate TaskSane(jobs: map<string, Job>, r: TaskRef, t: Task) {
    && r.jobId in jobs
    && t.status != Archived
    && (t.status == Canceled ==> IsClosed(jobs[r.jobId].status))
  }

  ghost predicate Sane(jobs: map<string, Job>, tasks: map<TaskRef, Task>) {
    && (forall r :: r in tasks ==> TaskSane(jobs, r, tasks[r]))
    && (forall j :: j in jobs && jobs[j].status == Running ==> HasTasks(tasks, j))
  }

  ghost predicate JobOk(job: Job, tasks: map<TaskRef, Task>, j: string) {
    HasTasks(tasks, j) && !IsClosed(job.status) ==> job.status == StatusOf(tasks, j)
  }

  /** The status of an open job with tasks is the one its tasks give it. */
  ghost predicate StatusesOk(jobs: map<string, Job>, tasks: map<TaskRef, Task>) {
    forall j :: j in jobs ==> JobOk(jobs[j], tasks, j)
  }

  // ---------- together ----------

  /** orderly: every report so far was orderly; uniqueJobs: every submission so far used a new job id. */
  datatype Mode = Mode(orderly: bool, uniqueJobs: bool)

  ghost predicate Inv(cfg: Config, s: State, m: Mode) {
    && cfg.leaseNanos > 0
    && s.clock <= INT64_MAX
    && LeasesOk(cfg, s.tasks, s.clock)
    && AttemptsOk(s.tasks, s.log)
    && KeysOk(s.tasks, s.log)
    && Sane(s.jobs, s.tasks)
    && (m.uniqueJobs ==> HandoutsOk(s.tasks, s.log))
    && (m.orderly ==> StatusesOk(s.jobs, s.tasks))
  }

  // ---------- history lemmas ----------

  lemma {:induction false} SetbacksAppend(log: seq<Event>, es: seq<Event>, r: TaskRef)
    ensures Setbacks(log + es, r) == Setbacks(log, r) + Setbacks(es, r)
  {
    if |es| == 0 {
      assert log + es == log;
    } else {
      SetbacksAppend(log, es[..|es| - 1], r);
      assert (log + es)[..|log + es| - 1] == log + es[..|es| - 1];
    }
  }

  lemma LastKeyPush(log: seq<Event>, e: Event, r: TaskRef)
    ensures LastKey(log + [e], r) ==
      if e.Accepted? && e.ref == r then e.key else if e == Submitted(r.jobId) then "" else LastKey(log, r)
  {
    assert (log + [e])[..|log|] == log;
  }

  lemma SetbacksPush(log: seq<Event>, e: Event, r: TaskRef)
    ensures Setbacks(log + [e], r) == Setbacks(log, r) + if e in {Preempted(r), Lapsed(r)} then 1 else 0
  {
    assert (log + [e])[..|log|] == log;
  }

  lemma {:induction false} LastKeyQuiet(log: seq<Event>, es: seq<Event>, r: TaskRef)
    requires forall i :: 0 <= i < |es| ==> !(es[i].Accepted? && es[i].ref == r) && es[i] != Submitted(r.jobId)
    ensures LastKey(log + es, r) == LastKey(log, r)
  {
    if |es| == 0 {
      assert log + es == log;
    } else {
      LastKeyQuiet(log, es[..|es| - 1], r);
      assert (log + es)[..|log + es| - 1] == log + es[..|es| - 1];
    }
  }

  // ---------- one task changes, one event is logged ----------

  /** What the new version of the task and the event must satisfy for the task-level invariants to survive. */
  ghost predicate GoodUpdate(cfg: Config, s: State, ref: TaskRef, t: Task, e: Event) {
    && ref in s.tasks
    && LeaseOk(cfg, s.clock, ref, t)
    && AttemptOk(s.log + [e], ref, t)
    && s.tasks[ref].attempt <= t.attempt
    && !e.Submitted?
    && t.lastReportKey == (if e.Accepted? then e.key else s.tasks[ref].lastReportKey)
    && (e.Accepted? ==> e.ref == ref)
    && (e.HandedOut? ==>
          && e.given.ref == ref
          && e.given.attempt == t.attempt
          && s.tasks[ref].attempt < t.attempt
          && e.given.leaseId == NewLeaseId(e.worker, ref.taskId, e.given.attempt, e.at))
  }

  lemma UpdateAttempts(cfg: Config, s: State, ref: TaskRef, t: Task, e: Event)
    requires AttemptsOk(s.tasks, s.log) && GoodUpdate(cfg, s, ref, t, e)
    ensures AttemptsOk(s.tasks[ref := t], s.log + [e])
  {
    forall r | r in s.tasks && r != ref ensures AttemptOk(s.log + [e], r, s.tasks[r]) {
      assert AttemptOk(s.log, r, s.tasks[r]);
      SetbacksPush(s.log, e, r);
    }
  }

  lemma UpdateKeys(cfg: Config, s: State, ref: TaskRef, t: Task, e: Event)
    requires KeysOk(s.tasks, s.log) && GoodUpdate(cfg, s, ref, t, e)
    ensures KeysOk(s.tasks[ref := t], s.log + [e])
  {
    forall r | r in s.tasks ensures s.tasks[ref := t][r].lastReportKey == LastKey(s.log + [e], r) {
      LastKeyPush(s.log, e, r);
    }
  }

  lemma UpdateHandouts(cfg: Config, s: State, ref: TaskRef, t: Task, e: Event)
    requires HandoutsOk(s.tasks, s.log) && GoodUpdate(cfg, s, ref, t, e)
    ensures HandoutsOk(s.tasks[ref := t], s.log + [e])
  {
    var log := s.log + [e];
    forall i | 0 <= i < |log| && log[i].HandedOut? ensures HandoutOk(s.tasks[ref := t], log[i]) {
      if i < |s.log| { assert HandoutOk(s.tasks, s.log[i]); }
    }
    forall i, k | 0 <= i < k < |log| ensures Earlier(log[i], log[k]) {
      if k < |s.log| {
        assert Earlier(s.log[i], s.log[k]);
      } else if log[i].HandedOut? {
        assert HandoutOk(s.tasks, s.log[i]);
      }
    }
  }

  // ---------- job status ----------

  /** The status a job's tasks give it depends only on which of them are Failed and which Completed. */
  lemma StatusOfSame(a: map<TaskRef, Task>, b: map<TaskRef, Task>, j: string)
    requires forall r: TaskRef :: r.jobId == j ==> (r in a <==> r in b)
    requires forall r :: r in a && r.jobId == j ==>
      (a[r].status == Failed <==> b[r].status == Failed) && (a[r].status == Completed <==> b[r].status == Completed)
    ensures StatusOf(a, j) == StatusOf(b, j) && (HasTasks(a, j) <==> HasTasks(b, j))
  {
    if AnyFailed(a, j) {
      var r :| r in a && r.jobId == j && a[r].status == Failed;
      assert b[r].status == Failed;
    }
    if AnyFailed(b, j) {
      var r :| r in b && r.jobId == j && b[r].status == Failed;
      assert a[r].status == Failed;
    }
    if r :| r in a && r.jobId == j { assert r in b; }
    if r :| r in b && r.jobId == j { assert r in a; }
    if AllCompleted(a, j) {
      forall r | r in b && r.jobId == j ensures b[r].status == Completed { assert r in a; }
    }
    if AllCompleted(b, j) {
      forall r | r in a && r.jobId == j ensures a[r].status == Completed { assert r in b; }
    }
  }

  /** Moving one task between states that are neither Failed nor Completed leaves every job status right. */
  lemma QuietMove(jobs: map<string, Job>, tasks: map<TaskRef, Task>, ref: TaskRef, t: Task)
    requires StatusesOk(jobs, tasks) && ref in tasks
    requires tasks[ref].status != Failed && tasks[ref].status != Completed
    requires t.status != Failed && t.status != Completed
    ensures StatusesOk(jobs, tasks[ref := t])
  {
    forall j | j in jobs ensures JobOk(jobs[j], tasks[ref := t], j) {
      assert JobOk(jobs[j], tasks, j);
      StatusOfSame(tasks, tasks[ref := t], j);
    }
  }

  lemma HasTasksKept(a: map<TaskRef, Task>, b: map<TaskRef, Task>, j: string)
    requires HasTasks(a, j) && a.Keys <= b.Keys
    ensures HasTasks(b, j)
  {
    var r :| r in a && r.jobId == j;
    assert r in b;
  }

  lemma SaneMove(jobs: map<string, Job>, tasks: map<TaskRef, Task>, ref: TaskRef, t: Task)
    requires Sane(jobs, tasks) && ref in tasks
    requires t.status != Canceled && t.status != Archived
    ensures Sane(jobs, tasks[ref := t])
  {
    var tasks' := tasks[ref := t];
    forall r | r in tasks' ensures TaskSane(jobs, r, tasks'[r]) {
      assert TaskSane(jobs, r, tasks[r]);
    }
    forall j | j in jobs && jobs[j].status == Running ensures HasTasks(tasks', j) {
      HasTasksKept(tasks, tasks', j);
    }
  }
}
