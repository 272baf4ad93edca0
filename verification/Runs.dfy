/** The main theorems: what holds in every state of every run of the scheduler. */
module Runs {
  import opened Text
  import opened Records
  import opened Dag
  import opened Scheduler
  import opened Invariants
  import opened Preservation
  import opened PollPreservation
  import opened NoLost
  import opened Settlement
  import opened LeaseLaws
  import opened Steps
  import opened QueueLaws
  import opened Quota
  import opened ReportLaws
  import opened RunningJobs
  import Q = QueueModel

  datatype Call = Call(action: Action, now: int)

  ghost predicate Follows(cfg: Config, states: seq<State>, calls: seq<Call>, i: nat)
    requires i < |calls| && |states| == |calls| + 1
  {
    && Legal(states[i], calls[i].action, calls[i].now)
    && states[i + 1] == Step(cfg, states[i], calls[i].action, calls[i].now)
  }

  /** A run of the engine from its empty state, one engine call after another. */
  ghost predicate Run(cfg: Config, states: seq<State>, calls: seq<Call>) {
    && cfg.leaseNanos > 0
    && |states| == |calls| + 1
    && states[0] == INIT
    && (forall i :: 0 <= i < |calls| ==> Follows(cfg, states, calls, i))
  }

  /** The run's reports are orderly and its submissions use new job ids, as far as the mode asks. */
  ghost predicate InMode(states: seq<State>, calls: seq<Call>, m: Mode) {
    |states| == |calls| + 1 && forall i :: 0 <= i < |calls| ==> Admissible(states[i], calls[i].action, m)
  }

  const ANY := Mode(false, false)
  const ORDERLY := Mode(true, false)
  const UNIQUE := Mode(false, true)

  lemma InitInv(cfg: Config, m: Mode)
    requires cfg.leaseNanos > 0
    ensures Inv(cfg, INIT, m)
  {
  }

  lemma {:induction false} RunInv(cfg: Config, states: seq<State>, calls: seq<Call>, m: Mode, n: nat)
    requires Run(cfg, states, calls) && InMode(states, calls, m) && n <= |calls|
    ensures Inv(cfg, states[n], m)
  {
    hide Step, Legal, Admissible;
    if n == 0 {
      InitInv(cfg, m);
    } else {
      RunInv(cfg, states, calls, m, n - 1);
      assert Follows(cfg, states, calls, n - 1);
      StepInv(cfg, states[n - 1], calls[n - 1].action, calls[n - 1].now, m);
    }
  }

  // ---------- no runnable task is lost ----------

  lemma NothingToLose()
    ensures NothingLost(INIT) && Valid(INIT.queue)
  {
  }

  /** In every state of every run, a queued task whose dependencies are all completed has its ref in the queue. */
  lemma {:induction false} NoRunnableTaskLost(cfg: Config, states: seq<State>, calls: seq<Call>, n: nat)
    requires Run(cfg, states, calls) && n <= |calls|
    ensures NothingLost(states[n]) && Valid(states[n].queue)
  {
    hide Step, Legal, Valid;
    if n > 0 {
      NoRunnableTaskLost(cfg, states, calls, n - 1);
      assert Follows(cfg, states, calls, n - 1);
      StepNoLoss(cfg, states[n - 1], calls[n - 1].action, calls[n - 1].now);
    } else {
      NothingToLose();
    }
  }

  lemma EmptyListing(listing: seq<string>, s: set<string>)
    requires Lists(listing, s)
    ensures s == {} ==> |listing| == 0
  {
    if |listing| > 0 { assert listing[0] in s; }
  }

  lemma SweepIdle(q: Q.QueueState, listing: seq<string>, now: int, max: int)
    requires q.inflight == map[] && Lists(listing, q.inflight.Keys)
    ensures Q.RequeueExpired(q, listing, now, max) == q
  {
    EmptyListing(listing, q.inflight.Keys);
  }

  lemma StepLeavesNoClaim(cfg: Config, s: State, a: Action, now: int)
    requires Valid(s.queue) && s.queue.inflight == map[] && Legal(s, a, now)
    ensures Step(cfg, s, a, now).queue.inflight == map[]
  {
    if a.Poll? && a.worker in s.workers {
      PollIsConsistent(cfg, s, a.worker, a.max, now, a.orders);
      SweepIdle(s.queue, a.orders.receipts, now, PollMax(a.max) * 8);
      assert Step(cfg, s, a, now).queue.inflight.Keys == {};
    }
  }

  lemma TrackedIdle(q: Q.QueueState, ref: TaskRef)
    requires q.inflight == map[] && Q.Tracked(q, ref)
    ensures ref in q.items || ref in q.dead
  {
  }

  /** Between engine calls no claim is outstanding. */
  lemma {:induction false} NoClaimOutstanding(cfg: Config, states: seq<State>, calls: seq<Call>, n: nat)
    requires Run(cfg, states, calls) && n <= |calls|
    ensures states[n].queue.inflight == map[]
  {
    hide Step, Legal, Valid, NothingLost;
    if n > 0 {
      NoClaimOutstanding(cfg, states, calls, n - 1);
      NoRunnableTaskLost(cfg, states, calls, n - 1);
      assert Follows(cfg, states, calls, n - 1);
      StepLeavesNoClaim(cfg, states[n - 1], calls[n - 1].action, calls[n - 1].now);
    }
  }

  /** A task is ready when it is queued and every dependency is a completed task of its job. */
  lemma ReadyMeaning(tasks: map<TaskRef, Task>, r: TaskRef)
    ensures Ready(tasks, r) <==> (
      && r in tasks && tasks[r].status == Queued
      && forall d :: d in tasks[r].deps ==> TaskRef(r.jobId, d) in tasks && tasks[TaskRef(r.jobId, d)].status == Completed)
  {
  }

  /** So a runnable task is always waiting in the queue or dead-lettered. */
  lemma RunnableIsWaiting(cfg: Config, states: seq<State>, calls: seq<Call>, n: nat, ref: TaskRef)
    requires Run(cfg, states, calls) && n <= |calls| && Ready(states[n].tasks, ref)
    ensures ref in states[n].queue.items || ref in states[n].queue.dead
  {
    NoRunnableTaskLost(cfg, states, calls, n);
    NoClaimOutstanding(cfg, states, calls, n);
    TrackedIdle(states[n].queue, ref);
  }

  // ---------- job status ----------

  /** None of the first n calls is a report that reopens its job behind its back. */
  ghost predicate NoReopening(states: seq<State>, calls: seq<Call>, n: nat)
    requires n <= |calls| && |states| == |calls| + 1
  {
    forall i :: 0 <= i < n && calls[i].action.Tell? ==> !Reopens(states[i], calls[i].action.req)
  }

  ghost predicate StatusesHold(states: seq<State>, n: nat)
    requires n < |states|
  {
    forall k :: 0 <= k <= n ==> StatusesOk(states[k].jobs, states[k].tasks)
  }

  lemma StepStatuses(cfg: Config, s: State, a: Action, now: int)
    requires Inv(cfg, s, ANY) && Legal(s, a, now) && StatusesOk(s.jobs, s.tasks)
    ensures var s' := Step(cfg, s, a, now);
      StatusesOk(s'.jobs, s'.tasks) <==> (a.Tell? ==> !Reopens(s, a.req))
  {
    hide PollAssignments, AddJob, Report, Heartbeat, CancelJob, ArchiveJob, Reopens, StatusesOk;
    if a.Tell? {
      ReportKeepsStatusesIff(s, a.req, a.listing, now);
    } else {
      StepInv(cfg, s, a, now, ORDERLY);
    }
  }

  lemma AnyMode(states: seq<State>, calls: seq<Call>)
    requires |states| == |calls| + 1
    ensures InMode(states, calls, ANY)
  {
  }

  lemma StatusStep(cfg: Config, states: seq<State>, calls: seq<Call>, i: nat)
    requires Run(cfg, states, calls) && i < |calls| && StatusesOk(states[i].jobs, states[i].tasks)
    ensures StatusesOk(states[i + 1].jobs, states[i + 1].tasks)
      <==> (calls[i].action.Tell? ==> !Reopens(states[i], calls[i].action.req))
  {
    hide Step, Legal, Reopens, StatusesOk;
    AnyMode(states, calls);
    RunInv(cfg, states, calls, ANY, i);
    assert Follows(cfg, states, calls, i);
    StepStatuses(cfg, states[i], calls[i].action, calls[i].now);
  }

  /** Over a whole run, all job statuses are right in every state if and only if no report reopened a job. */
  lemma {:induction false} StatusesHoldIff(cfg: Config, states: seq<State>, calls: seq<Call>, n: nat)
    requires Run(cfg, states, calls) && n <= |calls|
    ensures StatusesHold(states, n) <==> NoReopening(states, calls, n)
  {
    hide Follows, Reopens, StatusesOk;
    if n == 0 {
      InitStatuses(cfg, states, calls);
    } else {
      StatusesHoldIff(cfg, states, calls, n - 1);
      if StatusesHold(states, n - 1) {
        StatusStep(cfg, states, calls, n - 1);
      }
    }
  }

  lemma InitStatuses(cfg: Config, states: seq<State>, calls: seq<Call>)
    requires Run(cfg, states, calls)
    ensures StatusesOk(states[0].jobs, states[0].tasks)
  {
  }

  /** In a run in which no report reopens a job, an open job with tasks is Failed exactly if a task is, Completed exactly
      if all are, and Running otherwise. */
  lemma JobStatusFollowsTasks(cfg: Config, states: seq<State>, calls: seq<Call>, n: nat, j: string)
    requires Run(cfg, states, calls) && n <= |calls| && NoReopening(states, calls, n)
    requires j in states[n].jobs && HasTasks(states[n].tasks, j) && !IsClosed(states[n].jobs[j].status)
    ensures var status, tasks := states[n].jobs[j].status, states[n].tasks;
      && (status == Failed <==> exists r :: r in tasks && r.jobId == j && tasks[r].status == Failed)
      && (status == Completed <==> forall r :: r in tasks && r.jobId == j ==> tasks[r].status == Completed)
      && status in {Failed, Completed, Running}
  {
    hide Follows, Reopens;
    StatusesHoldIff(cfg, states, calls, n);
    assert StatusesOk(states[n].jobs, states[n].tasks);
    assert JobOk(states[n].jobs[j], states[n].tasks, j);
    if AnyFailed(states[n].tasks, j) {
      var r :| r in states[n].tasks && r.jobId == j && states[n].tasks[r].status == Failed;
      assert !AllCompleted(states[n].tasks, j);
    }
  }

  /** One direction needs no assumption on reports: a job that says Running has no failed task and an unfinished one. */
  lemma {:induction false} RunningJobUnfinished(cfg: Config, states: seq<State>, calls: seq<Call>, n: nat)
    requires Run(cfg, states, calls) && n <= |calls|
    ensures RunningOk(states[n].jobs, states[n].tasks)
  {
    hide Step, Legal;
    if n > 0 {
      RunningJobUnfinished(cfg, states, calls, n - 1);
      assert Follows(cfg, states, calls, n - 1);
      StepRunningOk(cfg, states[n - 1], calls[n - 1].action, calls[n - 1].now);
    }
  }

  /** Orderly reports neither reopen nor revive a job. */
  lemma {:induction false} OrderlyRuns(cfg: Config, states: seq<State>, calls: seq<Call>, n: nat)
    requires Run(cfg, states, calls) && InMode(states, calls, ORDERLY) && n <= |calls|
    ensures NoReopening(states, calls, n) && NoReviving(states, calls, n)
  {
    forall i | 0 <= i < n && calls[i].action.Tell?
      ensures !Reopens(states[i], calls[i].action.req) && !Revives(states[i], calls[i].action.req)
    {
      RunInv(cfg, states, calls, ORDERLY, i);
      assert Admissible(states[i], calls[i].action, ORDERLY);
      OrderlyNeverReopens(states[i], calls[i].action.req);
      OrderlyNeverRevives(states[i], calls[i].action.req);
    }
  }

  /** Canceled and archived jobs stay so, in every run with new job ids, however disorderly the reports. */
  lemma {:induction false} ClosedJobsStayClosed(cfg: Config, states: seq<State>, calls: seq<Call>, m: nat, n: nat, j: string)
    requires Run(cfg, states, calls) && InMode(states, calls, UNIQUE) && m <= n <= |calls|
    requires j in states[m].jobs && IsClosed(states[m].jobs[j].status)
    ensures j in states[n].jobs && IsClosed(states[n].jobs[j].status)
  {
    if m < n {
      ClosedJobsStayClosed(cfg, states, calls, m, n - 1, j);
      StepOfRunKeeps(cfg, states, calls, n - 1);
    }
  }

  lemma StepOfRunKeeps(cfg: Config, states: seq<State>, calls: seq<Call>, i: nat)
    requires Run(cfg, states, calls) && InMode(states, calls, UNIQUE) && i < |calls|
    ensures Keeps(states[i], states[i + 1])
  {
    RunInv(cfg, states, calls, UNIQUE, i);
    assert Follows(cfg, states, calls, i);
    assert Admissible(states[i], calls[i].action, UNIQUE);
    StepKeeps(cfg, states[i], calls[i].action, calls[i].now);
  }

  lemma {:induction false} RunKeeps(cfg: Config, states: seq<State>, calls: seq<Call>, m: nat, n: nat)
    requires Run(cfg, states, calls) && InMode(states, calls, UNIQUE) && m <= n <= |calls|
    ensures Keeps(states[m], states[n])
  {
    hide Step, Legal, Admissible;
    if m < n {
      RunKeeps(cfg, states, calls, m, n - 1);
      StepOfRunKeeps(cfg, states, calls, n - 1);
      KeepsTrans(states[m], states[n - 1], states[n]);
    } else {
      assert states[m].log[..|states[m].log|] == states[m].log;
    }
  }

  /** No task of a canceled or archived job is ever handed out again. */
  lemma {:induction false} ClosedJobsNotHandedOut(cfg: Config, states: seq<State>, calls: seq<Call>, m: nat, n: nat, j: string, i: nat)
    requires Run(cfg, states, calls) && InMode(states, calls, UNIQUE) && m <= n <= |calls|
    requires j in states[m].jobs && IsClosed(states[m].jobs[j].status)
    requires |states[m].log| <= i < |states[n].log| && states[n].log[i].HandedOut?
    ensures states[n].log[i].given.ref.jobId != j
  {
    hide Step, Legal, DepKey, CarriesOwn, CarriesOutput;
    if m < n {
      var s, s' := states[n - 1], states[n];
      StepOfRunKeeps(cfg, states, calls, n - 1);
      if i < |s.log| {
        assert s'.log[i] == s'.log[..|s.log|][i];
        ClosedJobsNotHandedOut(cfg, states, calls, m, n - 1, j, i);
      } else {
        assert Follows(cfg, states, calls, n - 1);
        StepFair(cfg, s, calls[n - 1].action, calls[n - 1].now, i);
        ClosedJobsStayClosed(cfg, states, calls, m, n, j);
      }
    }
  }

  // ---------- deadlock freedom ----------

  /** The stored dependencies of job j name its tasks and descend in rank. */
  ghost predicate GraphOk(tasks: map<TaskRef, Task>, j: string, rank: string -> nat) {
    forall r, d :: r in tasks && r.jobId == j && d in tasks[r].deps ==> TaskRef(j, d) in tasks && rank(d) < rank(r.taskId)
  }

  lemma NewDep(sub: Submission, now: int, r: TaskRef, t: Task, d: string, rank: string -> nat)
    requires Closed(sub.tasks) && RankedBy(sub.tasks, rank)
    requires IsNew(sub, sub.tasks, now, r, t) && d in t.deps
    ensures HasId(sub.tasks, d) && rank(d) < rank(r.taskId)
  {
    var i :| 0 <= i < |sub.tasks| && r == TaskRef(sub.jobId, sub.tasks[i].taskId) && t == NewTask(sub, sub.tasks[i], now);
    assert d in sub.tasks[i].deps;
  }

  /** An accepted submission of a closed, acyclic graph stores such a graph. */
  lemma SubmittedGraphOk(cfg: Config, s: State, sub: Submission, now: int, rank: string -> nat)
    requires SubmitAllowed(cfg, s, sub) && Closed(sub.tasks) && RankedBy(sub.tasks, rank)
    ensures GraphOk(AddJob(cfg, s, sub, now).tasks, sub.jobId, rank)
  {
    var tasks := AddJob(cfg, s, sub, now).tasks;
    PutTasksShape(WithoutJob(s.tasks, sub.jobId), sub, sub.tasks, now);
    forall r, d | r in tasks && r.jobId == sub.jobId && d in tasks[r].deps
      ensures TaskRef(sub.jobId, d) in tasks && rank(d) < rank(r.taskId)
    {
      SubmittedTask(cfg, s, sub, now, r);
      NewDep(sub, now, r, tasks[r], d, rank);
      var k :| 0 <= k < |sub.tasks| && sub.tasks[k].taskId == d;
      assert TaskRef(sub.jobId, sub.tasks[k].taskId) in tasks;
    }
  }

  /** Which tasks a job has, and what they depend on, does not change after its submission. */
  lemma StepSameTasks(cfg: Config, s: State, a: Action, now: int, j: string, r: TaskRef)
    requires FreshAction(s, a) && Sane(s.jobs, s.tasks) && j in s.jobs && r.jobId == j && r in Step(cfg, s, a, now).tasks
    ensures r in s.tasks
  {
    if a.Submit? && SubmitAllowed(cfg, s, a.sub) {
      SubmittedTask(cfg, s, a.sub, now, r);
    } else if a.Poll? {
      PollGentle(cfg, s, a.worker, a.max, now, a.orders);
    }
  }

  lemma KeptGraph(s: State, s': State, j: string, rank: string -> nat)
    requires Keeps(s, s') && GraphOk(s.tasks, j, rank) && j in s.jobs
    requires forall r :: r in s'.tasks && r.jobId == j ==> r in s.tasks
    ensures j in s'.jobs && GraphOk(s'.tasks, j, rank)
  {
    forall r, d | r in s'.tasks && r.jobId == j && d in s'.tasks[r].deps
      ensures TaskRef(j, d) in s'.tasks && rank(d) < rank(r.taskId)
    {
      assert SameSpec(s.tasks[r], s'.tasks[r]);
      assert TaskRef(j, d) in s.tasks;
    }
  }

  lemma StepGraph(cfg: Config, s: State, a: Action, now: int, j: string, rank: string -> nat)
    requires FreshAction(s, a) && Sane(s.jobs, s.tasks) && j in s.jobs && Keeps(s, Step(cfg, s, a, now))
    requires GraphOk(s.tasks, j, rank)
    ensures j in Step(cfg, s, a, now).jobs && GraphOk(Step(cfg, s, a, now).tasks, j, rank)
  {
    hide Step, GraphOk, Keeps, Sane;
    var s' := Step(cfg, s, a, now);
    forall r | r in s'.tasks && r.jobId == j ensures r in s.tasks {
      StepSameTasks(cfg, s, a, now, j, r);
    }
    KeptGraph(s, s', j, rank);
  }

  lemma StepOfRunGraph(cfg: Config, states: seq<State>, calls: seq<Call>, i: nat, j: string, rank: string -> nat)
    requires Run(cfg, states, calls) && InMode(states, calls, UNIQUE) && i < |calls|
    requires j in states[i].jobs && GraphOk(states[i].tasks, j, rank)
    ensures j in states[i + 1].jobs && GraphOk(states[i + 1].tasks, j, rank)
  {
    StepOfRunKeeps(cfg, states, calls, i);
    RunInv(cfg, states, calls, UNIQUE, i);
    assert Follows(cfg, states, calls, i);
    assert Admissible(states[i], calls[i].action, UNIQUE);
    StepGraph(cfg, states[i], calls[i].action, calls[i].now, j, rank);
  }

  /** The stored graph of a job stays closed and acyclic for ever. */
  lemma {:induction false} GraphStays(cfg: Config, states: seq<State>, calls: seq<Call>, m: nat, n: nat, j: string, rank: string -> nat)
    requires Run(cfg, states, calls) && InMode(states, calls, UNIQUE) && m <= n <= |calls|
    requires j in states[m].jobs && GraphOk(states[m].tasks, j, rank)
    ensures j in states[n].jobs && GraphOk(states[n].tasks, j, rank)
  {
    if m < n {
      GraphStays(cfg, states, calls, m, n - 1, j, rank);
      StepOfRunGraph(cfg, states, calls, n - 1, j, rank);
    }
  }

  /** Following unfinished dependencies downwards in rank reaches a task that is ready. */
  lemma {:induction false} ReadyBelow(tasks: map<TaskRef, Task>, j: string, rank: string -> nat, r: TaskRef) returns (ready: TaskRef)
    requires GraphOk(tasks, j, rank) && r in tasks && r.jobId == j && tasks[r].status == Queued
    requires forall q :: q in tasks && q.jobId == j ==> tasks[q].status in {Queued, Completed}
    ensures ready.jobId == j && Ready(tasks, ready)
    decreases rank(r.taskId)
  {
    if DepsDone(tasks, j, tasks[r].deps) {
      ready := r;
    } else {
      var i :| 0 <= i < |tasks[r].deps| && !DepDone(tasks, j, tasks[r].deps[i]);
      var d := tasks[r].deps[i];
      assert d in tasks[r].deps;
      ready := ReadyBelow(tasks, j, rank, TaskRef(j, d));
    }
  }

  /** A running job with nothing assigned or running has only queued and completed tasks, and a queued one among them. */
  lemma OnlyQueuedLeft(jobs: map<string, Job>, tasks: map<TaskRef, Task>, j: string) returns (w: TaskRef)
    requires Sane(jobs, tasks) && RunningOk(jobs, tasks) && j in jobs && jobs[j].status == Running
    requires forall r :: r in tasks && r.jobId == j ==> tasks[r].status != Assigned && tasks[r].status != Running
    ensures w in tasks && w.jobId == j && tasks[w].status == Queued
    ensures forall q :: q in tasks && q.jobId == j ==> tasks[q].status in {Queued, Completed}
  {
    assert StatusOf(tasks, j) == Running;
    forall q | q in tasks && q.jobId == j ensures tasks[q].status in {Queued, Completed} {
      assert TaskSane(jobs, q, tasks[q]);
    }
    w :| w in tasks && w.jobId == j && tasks[w].status != Completed;
  }

  /** Deadlock freedom, whatever reports arrive: a running job whose graph is closed and acyclic and that has no task
      assigned or running always has a queued task that is ready and whose ref is in the queue. */
  lemma NoDeadlock(cfg: Config, states: seq<State>, calls: seq<Call>, n: nat, j: string, rank: string -> nat)
    returns (ready: TaskRef)
    requires Run(cfg, states, calls) && n <= |calls|
    requires j in states[n].jobs && states[n].jobs[j].status == Running
    requires GraphOk(states[n].tasks, j, rank)
    requires forall r :: r in states[n].tasks && r.jobId == j ==>
      states[n].tasks[r].status != Assigned && states[n].tasks[r].status != Running
    ensures ready.jobId == j && Ready(states[n].tasks, ready)
    ensures ready in states[n].queue.items || ready in states[n].queue.dead
  {
    AnyMode(states, calls);
    RunInv(cfg, states, calls, ANY, n);
    RunningJobUnfinished(cfg, states, calls, n);
    var w := OnlyQueuedLeft(states[n].jobs, states[n].tasks, j);
    ready := ReadyBelow(states[n].tasks, j, rank, w);
    RunnableIsWaiting(cfg, states, calls, n, ready);
  }

  // ---------- attempts ----------

  /** A task's attempts never exceed its allowance plus its preemptions and non-timeout lease expiries,
      and while it is queued one attempt is still in hand. */
  lemma AttemptsAccounted(cfg: Config, states: seq<State>, calls: seq<Call>, n: nat, r: TaskRef)
    requires Run(cfg, states, calls) && n <= |calls| && r in states[n].tasks
    ensures var t := states[n].tasks[r];
      && 0 <= t.attempt <= Allowance(t) + Setbacks(states[n].log, r)
      && (t.status == Queued ==> t.attempt < Allowance(t) + Setbacks(states[n].log, r))
  {
    RunInv(cfg, states, calls, ANY, n);
    assert AttemptOk(states[n].log, r, states[n].tasks[r]);
  }

  // ---------- leases ----------

  /** In every run a task has a lease id exactly while it is Assigned. */
  lemma LeaseIffAssigned(cfg: Config, states: seq<State>, calls: seq<Call>, n: nat, r: TaskRef)
    requires Run(cfg, states, calls) && n <= |calls| && r in states[n].tasks
    ensures states[n].tasks[r].leaseId != "" <==> states[n].tasks[r].status == Assigned
  {
    RunInv(cfg, states, calls, ANY, n);
    assert LeaseOk(cfg, states[n].clock, r, states[n].tasks[r]);
  }

  /** Lease fencing over a whole run: the lease ids given out for one task are pairwise distinct, and while a lease
      is held a report carrying an earlier one changes nothing. */
  lemma LeasesFenced(cfg: Config, states: seq<State>, calls: seq<Call>, n: nat, i: nat, k: nat)
    requires Run(cfg, states, calls) && InMode(states, calls, UNIQUE) && n <= |calls|
    requires i < k < |states[n].log| && states[n].log[i].HandedOut? && states[n].log[k].HandedOut?
    requires states[n].log[i].given.ref == states[n].log[k].given.ref
    ensures var s, a, b := states[n], states[n].log[i].given, states[n].log[k].given;
      && a.leaseId != b.leaseId && a.attempt < b.attempt
      && a.ref in s.tasks
      && forall req: ReportReq, listing, now ::
           s.tasks[a.ref].leaseId != "" && req.ref == a.ref && req.leaseId == a.leaseId ==>
             Report(s, req, listing, now) == s.(clock := now)
  {
    var s, a := states[n], states[n].log[i].given;
    RunInv(cfg, states, calls, UNIQUE, n);
    HandOutsDiffer(s.tasks, s.log, i, k);
    assert HandoutOk(s.tasks, s.log[i]);
    forall req: ReportReq, listing, now | s.tasks[a.ref].leaseId != "" && req.ref == a.ref && req.leaseId == a.leaseId
      ensures Report(s, req, listing, now) == s.(clock := now)
    {
      StaleReportIgnored(cfg, s, i, k, req, listing, now);
    }
  }

  // ---------- report replay ----------

  /** No report on r was accepted between two states of a run. */
  ghost predicate NoReportBetween(s: State, s': State, r: TaskRef) {
    |s.log| <= |s'.log| && forall i :: |s.log| <= i < |s'.log| ==> !(s'.log[i].Accepted? && s'.log[i].ref == r)
  }

  lemma ExtendedLastKey(s: State, s': State, r: TaskRef)
    requires Keeps(s, s') && NoReportBetween(s, s', r)
    requires forall i :: |s.log| <= i < |s'.log| ==> s'.log[i] != Submitted(r.jobId)
    ensures LastKey(s'.log, r) == LastKey(s.log, r)
  {
    var es := s'.log[|s.log|..];
    assert s'.log == s.log + es;
    forall i | 0 <= i < |es| ensures !(es[i].Accepted? && es[i].ref == r) && es[i] != Submitted(r.jobId) {
      assert es[i] == s'.log[|s.log| + i];
    }
    LastKeyQuiet(s.log, es, r);
  }

  lemma StepSubmitsOthers(cfg: Config, s: State, a: Action, now: int, r: TaskRef)
    requires FreshAction(s, a) && r.jobId in s.jobs
    ensures var s' := Step(cfg, s, a, now); forall i :: |s.log| <= i < |s'.log| ==> s'.log[i] != Submitted(r.jobId)
  {
    var s' := Step(cfg, s, a, now);
    forall i | |s.log| <= i < |s'.log| ensures s'.log[i] != Submitted(r.jobId) {
      StepEvents(cfg, s, a, now, i);
    }
  }

  lemma StepOfRunLastKey(cfg: Config, states: seq<State>, calls: seq<Call>, i: nat, r: TaskRef)
    requires Run(cfg, states, calls) && InMode(states, calls, UNIQUE) && i < |calls|
    requires r in states[i].tasks && NoReportBetween(states[i], states[i + 1], r)
    ensures LastKey(states[i + 1].log, r) == LastKey(states[i].log, r)
  {
    StepOfRunKeeps(cfg, states, calls, i);
    RunInv(cfg, states, calls, UNIQUE, i);
    assert Follows(cfg, states, calls, i);
    assert Admissible(states[i], calls[i].action, UNIQUE);
    assert TaskSane(states[i].jobs, r, states[i].tasks[r]);
    StepSubmitsOthers(cfg, states[i], calls[i].action, calls[i].now, r);
    ExtendedLastKey(states[i], states[i + 1], r);
  }

  lemma NoReportSplit(a: State, b: State, c: State, r: TaskRef)
    requires Keeps(a, b) && Keeps(b, c) && NoReportBetween(a, c, r)
    ensures NoReportBetween(a, b, r) && NoReportBetween(b, c, r)
  {
    forall i | |a.log| <= i < |b.log| ensures !(b.log[i].Accepted? && b.log[i].ref == r) {
      assert c.log[i] == c.log[..|b.log|][i];
    }
  }

  lemma {:induction false} LastKeyStays(cfg: Config, states: seq<State>, calls: seq<Call>, m: nat, n: nat, r: TaskRef)
    requires Run(cfg, states, calls) && InMode(states, calls, UNIQUE) && m <= n <= |calls|
    requires r in states[m].tasks && NoReportBetween(states[m], states[n], r)
    ensures LastKey(states[n].log, r) == LastKey(states[m].log, r)
  {
    hide Step, Legal, Admissible, LastKey;
    if m < n {
      RunKeeps(cfg, states, calls, m, n - 1);
      StepOfRunKeeps(cfg, states, calls, n - 1);
      NoReportSplit(states[m], states[n - 1], states[n], r);
      LastKeyStays(cfg, states, calls, m, n - 1, r);
      StepOfRunLastKey(cfg, states, calls, n - 1, r);
    }
  }

  /** Report replay: once a keyed report has been accepted, sending its key again changes nothing for as long as no other
      report on the task is accepted, whatever other calls are made in between. */
  lemma ReplayChangesNothing(cfg: Config, states: seq<State>, calls: seq<Call>, m: nat, n: nat,
                             req: ReportReq, listing: seq<TaskRef>, now: int)
    requires Run(cfg, states, calls) && InMode(states, calls, UNIQUE) && m < n <= |calls|
    requires calls[m].action.Tell? && Judge(states[m], calls[m].action.req).Accept?
    requires req.ref == calls[m].action.req.ref && req.key == calls[m].action.req.key && req.key != ""
    requires NoReportBetween(states[m + 1], states[n], req.ref)
    ensures Report(states[n], req, listing, now) == states[n].(clock := now)
  {
    hide PollAssignments, ReportedTask, ReadyRefs, StatusOf, WithModel, Admissible;
    assert Follows(cfg, states, calls, m);
    LastKeyPush(states[m].log, Accepted(req.ref, req.key), req.ref);
    assert states[m + 1].log == states[m].log + [Accepted(req.ref, req.key)];
    assert req.ref in states[m + 1].tasks;
    LastKeyStays(cfg, states, calls, m + 1, n, req.ref);
    RunInv(cfg, states, calls, UNIQUE, n);
    ReplayIgnored(states[n], req, listing, now);
  }

  // ---------- tenant quota ----------

  /** None of the first n calls is a final report that makes a job Running again. */
  ghost predicate NoReviving(states: seq<State>, calls: seq<Call>, n: nat)
    requires n <= |calls| && |states| == |calls| + 1
  {
    forall i :: 0 <= i < n && calls[i].action.Tell? ==> !Revives(states[i], calls[i].action.req)
  }
}
