/** A job that says it is Running is one whose tasks say so too: nothing failed and not everything completed.
    No assumption on reports is needed for this direction. */
module RunningJobs {
  import opened Text
  import opened Records
  import opened Leases
  import opened Scheduler
  import opened PollPreservation
  import Q = QueueModel

  ghost predicate RunningOk(jobs: map<string, Job>, tasks: map<TaskRef, Task>) {
    forall j :: j in jobs && jobs[j].status == Running ==> StatusOf(tasks, j) == Running
  }

  /** No task of the job comes to be Failed or Completed that was not so before, and none appears or disappears. */
  ghost predicate NoneFinishes(a: map<TaskRef, Task>, b: map<TaskRef, Task>, j: string) {
    forall r: TaskRef :: r.jobId == j ==>
      && (r in a <==> r in b)
      && (r in b && b[r].status in {Failed, Completed} ==> a[r].status == b[r].status)
  }

  lemma StaysRunning(a: map<TaskRef, Task>, b: map<TaskRef, Task>, j: string)
    requires StatusOf(a, j) == Running && NoneFinishes(a, b, j)
    ensures StatusOf(b, j) == Running
  {
    assert AnyFailed(b, j) ==> AnyFailed(a, j);
    assert HasTasks(b, j) && AllCompleted(b, j) ==> HasTasks(a, j) && AllCompleted(a, j);
  }

  lemma RunningKept(jobs: map<string, Job>, jobs': map<string, Job>, a: map<TaskRef, Task>, b: map<TaskRef, Task>)
    requires RunningOk(jobs, a)
    requires forall j :: j in jobs' && jobs'[j].status == Running ==>
      StatusOf(b, j) == Running || (j in jobs && jobs[j].status == Running && NoneFinishes(a, b, j))
    ensures RunningOk(jobs', b)
  {
    forall j | j in jobs' && jobs'[j].status == Running ensures StatusOf(b, j) == Running {
      if StatusOf(b, j) != Running {
        StaysRunning(a, b, j);
      }
    }
  }

  // ---------- one step ----------

  lemma GrantRunningOk(cfg: Config, s: State, worker: string, ref: TaskRef, now: int)
    requires RunningOk(s.jobs, s.tasks) && ref in s.tasks && ref.jobId in s.jobs && worker in s.workers
    ensures var s' := Grant(cfg, s, worker, ref, now).0; RunningOk(s'.jobs, s'.tasks)
  {
    hide StatusOf, AssignmentDecision, AssignmentOf;
    var s' := Grant(cfg, s, worker, ref, now).0;
    RunningKept(s.jobs, s'.jobs, s.tasks, s'.tasks);
  }

  lemma PreemptRunningOk(s: State, v: TaskRef, now: int)
    requires RunningOk(s.jobs, s.tasks) && v in s.tasks
    ensures RunningOk(Preempt(s, v, now).jobs, Preempt(s, v, now).tasks)
  {
    hide StatusOf;
    RunningKept(s.jobs, s.jobs, s.tasks, Preempt(s, v, now).tasks);
  }

  lemma CarryOutRunningOk(cfg: Config, s: State, worker: string, ref: TaskRef, now: int, sc: Screening)
    requires RunningOk(s.jobs, s.tasks) && ScreeningOk(s, worker, ref, now, sc)
    ensures var s' := CarryOut(cfg, s, worker, ref, now, sc).0; RunningOk(s'.jobs, s'.tasks)
  {
    hide RunningOk, Grant;
    match sc
    case Refuse(_) =>
    case GoAhead(None) => GrantRunningOk(cfg, s, worker, ref, now);
    case GoAhead(Some(v)) =>
      PreemptRunningOk(s, v, now);
      GrantRunningOk(cfg, Preempt(s, v, now), worker, ref, now);
  }

  lemma {:induction false} AssignAllRunningOk(cfg: Config, s: State, worker: string, max: int, claims: seq<Claim>, n: nat,
                                              now: int, choices: seq<Choice>)
    requires RunningOk(s.jobs, s.tasks) && n <= |claims|
    ensures var s' := AssignAll(cfg, s, worker, max, claims, n, now, choices).s; RunningOk(s'.jobs, s'.tasks)
  {
    hide RunningOk, Screen, CarryOut;
    if n > 0 {
      var acc := AssignAll(cfg, s, worker, max, claims, n - 1, now, choices);
      AssignAllRunningOk(cfg, s, worker, max, claims, n - 1, now, choices);
      var ref, c := claims[n - 1].ref, ChoiceAt(choices, n - 1);
      CarryOutRunningOk(cfg, acc.s, worker, ref, now, Screen(cfg, acc.s, worker, ref, now, c));
    }
  }

  lemma ExpireRunningOk(s: State, listing: seq<TaskRef>, now: int)
    requires RunningOk(s.jobs, s.tasks)
    ensures var s' := ExpireLeases(s, listing, now); RunningOk(s'.jobs, s'.tasks)
  {
    hide StatusOf, Expired, ExpiredTask;
    var s' := ExpireLeases(s, listing, now);
    forall j | j in s'.jobs && s'.jobs[j].status == Running
      ensures StatusOf(s'.tasks, j) == Running || (s.jobs[j].status == Running && NoneFinishes(s.tasks, s'.tasks, j))
    {
      if !Affected(s.tasks, j, now) {
        assert NoneFinishes(s.tasks, s'.tasks, j);
      }
    }
    RunningKept(s.jobs, s'.jobs, s.tasks, s'.tasks);
  }

  lemma PollRunningOk(cfg: Config, s: State, worker: string, max: int, now: int, o: PollOrders)
    requires RunningOk(s.jobs, s.tasks)
    ensures var s' := PollAssignments(cfg, s, worker, max, now, o).0; RunningOk(s'.jobs, s'.tasks)
  {
    hide RunningOk, ExpireLeases, AssignAll;
    if worker in s.workers {
      ExpireRunningOk(s.(clock := now, queue := Q.RequeueExpired(s.queue, o.receipts, now, PollMax(max) * 8)), o.tasks, now);
      var s2 := Swept(s, max, now, o);
      var (queue, claims) := PollClaims(cfg, s2, worker, max, now);
      var s3 := s2.(queue := queue);
      var sorted := SortClaims(cfg, s3, claims);
      AssignAllRunningOk(cfg, s3, worker, PollMax(max), sorted, |sorted|, now, o.choices);
    }
  }

  lemma AcceptRunningOk(s: State, req: ReportReq, listing: seq<TaskRef>, now: int)
    requires RunningOk(s.jobs, s.tasks) && req.ref in s.tasks && req.ref.jobId in s.jobs
    ensures var s' := AcceptReport(s, req, listing, now); RunningOk(s'.jobs, s'.tasks)
  {
    hide StatusOf, ReadyRefs, WithModel;
    var s' := AcceptReport(s, req, listing, now);
    RunningKept(s.jobs, s'.jobs, s.tasks, s'.tasks);
  }

  lemma AddJobRunningOk(cfg: Config, s: State, sub: Submission, now: int)
    requires RunningOk(s.jobs, s.tasks)
    ensures RunningOk(AddJob(cfg, s, sub, now).jobs, AddJob(cfg, s, sub, now).tasks)
  {
    if SubmitAllowed(cfg, s, sub) {
      var s' := AddJob(cfg, s, sub, now);
      OtherTasksKept(cfg, s, sub, now);
      forall r | r in s'.tasks
        ensures r.jobId == sub.jobId ==> s'.tasks[r].status == Queued
        ensures r.jobId != sub.jobId ==> r in s.tasks && s'.tasks[r] == s.tasks[r]
      {
        SubmittedTask(cfg, s, sub, now, r);
      }
      RunningKept(s.jobs, s'.jobs, s.tasks, s'.tasks);
    }
  }

  lemma CancelRunningOk(s: State, jobId: string, now: int)
    requires RunningOk(s.jobs, s.tasks)
    ensures RunningOk(CancelJob(s, jobId, now).jobs, CancelJob(s, jobId, now).tasks)
  {
    hide StatusOf;
    var s' := CancelJob(s, jobId, now);
    RunningKept(s.jobs, s'.jobs, s.tasks, s'.tasks);
  }

  lemma HeartbeatRunningOk(cfg: Config, s: State, worker: string, b: Beat, now: int)
    requires RunningOk(s.jobs, s.tasks)
    ensures RunningOk(Heartbeat(cfg, s, worker, b, now).jobs, Heartbeat(cfg, s, worker, b, now).tasks)
  {
    hide StatusOf, LeaseExpiry;
    var s' := Heartbeat(cfg, s, worker, b, now);
    RunningKept(s.jobs, s'.jobs, s.tasks, s'.tasks);
  }

  /** Every engine call keeps it, whatever reports arrive. */
  lemma StepRunningOk(cfg: Config, s: State, a: Action, now: int)
    requires RunningOk(s.jobs, s.tasks)
    ensures RunningOk(Step(cfg, s, a, now).jobs, Step(cfg, s, a, now).tasks)
  {
    hide PollAssignments, AddJob, AcceptReport, Heartbeat, CancelJob, StatusOf;
    match a
    case Submit(sub) => AddJobRunningOk(cfg, s, sub, now);
    case Poll(w, max, o) => PollRunningOk(cfg, s, w, max, now, o);
    case Tell(req, listing) =>
      if Judge(s.(clock := now), req).Accept? {
        AcceptRunningOk(s.(clock := now), req, listing, now);
      }
    case Pulse(w, b) => HeartbeatRunningOk(cfg, s, w, b, now);
    case Cancel(j) => CancelRunningOk(s, j, now);
    case Archive(j) =>
    case Register(id, w) =>
    case Revive(refs) =>
  }
}
