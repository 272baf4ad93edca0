/** Exactly which reports break the tie between a job's status and its tasks. */
module ReportLaws {
  import opened Records
  import opened Scheduler
  import opened Invariants
  import opened Preservation
  import opened WorkerRuntime

  ghost predicate OnlyFailed(tasks: map<TaskRef, Task>, ref: TaskRef) {
    forall r :: r in tasks && r.jobId == ref.jobId && tasks[r].status == Failed ==> r == ref
  }

  /** An accepted Running report on the task that decided its job's outcome: the last Failed one, or one of an
      all-completed job.  The engine stores such a report without looking at the job again. */
  ghost predicate Reopens(s: State, req: ReportReq) {
    && Judge(s, req).Accept? && req.status == SaysRunning
    && ((s.tasks[req.ref].status == Failed && OnlyFailed(s.tasks, req.ref))
        || (s.tasks[req.ref].status == Completed && AllCompleted(s.tasks, req.ref.jobId)))
  }

  lemma RunningReportJob(s: State, req: ReportReq, t: Task)
    requires StatusesOk(s.jobs, s.tasks) && Judge(s, req).Accept? && t.status == Running
    ensures JobOk(s.jobs[req.ref.jobId], s.tasks[req.ref := t], req.ref.jobId) <==>
      !((s.tasks[req.ref].status == Failed && OnlyFailed(s.tasks, req.ref))
        || (s.tasks[req.ref].status == Completed && AllCompleted(s.tasks, req.ref.jobId)))
  {
    var ref, j := req.ref, req.ref.jobId;
    var tasks' := s.tasks[ref := t];
    assert JobOk(s.jobs[j], s.tasks, j);
    assert ref in tasks' && tasks'[ref].status == Running;
    if f :| f in s.tasks && f.jobId == j && s.tasks[f].status == Failed && f != ref {
      assert tasks'[f].status == Failed;
      assert AnyFailed(tasks', j) && AnyFailed(s.tasks, j);
      assert !OnlyFailed(s.tasks, ref) && !AllCompleted(s.tasks, j);
    } else {
      assert OnlyFailed(s.tasks, ref);
      assert !AnyFailed(tasks', j);
      assert StatusOf(tasks', j) == Running;
      assert AnyFailed(s.tasks, j) <==> s.tasks[ref].status == Failed;
      if s.tasks[ref].status == Completed { assert ref in s.tasks; }
    }
  }

  lemma OtherJobsOk(s: State, ref: TaskRef, t: Task)
    requires StatusesOk(s.jobs, s.tasks) && ref in s.tasks
    ensures forall j :: j in s.jobs && j != ref.jobId ==> JobOk(s.jobs[j], s.tasks[ref := t], j)
  {
    forall j | j in s.jobs && j != ref.jobId ensures JobOk(s.jobs[j], s.tasks[ref := t], j) {
      assert JobOk(s.jobs[j], s.tasks, j);
      StatusOfSame(s.tasks, s.tasks[ref := t], j);
    }
  }

  lemma AcceptKeepsStatusesIff(s: State, req: ReportReq, listing: seq<TaskRef>, now: int)
    requires StatusesOk(s.jobs, s.tasks) && Judge(s, req).Accept?
    ensures var s' := AcceptReport(s, req, listing, now); StatusesOk(s'.jobs, s'.tasks) <==> !Reopens(s, req)
  {
    var s' := AcceptReport(s, req, listing, now);
    var t := ReportedTask(s.tasks[req.ref], req, now);
    if req.status == SaysRunning {
      RunningReportJob(s, req, t);
      OtherJobsOk(s, req.ref, t);
    } else {
      RecomputedJobOk(s.jobs, s.tasks, req.ref, t);
    }
  }

  /** Without the orderly-reports assumption job statuses can go wrong, and a report puts them wrong exactly if it is an
      accepted Running report on the task that decided its job. */
  lemma ReportKeepsStatusesIff(s: State, req: ReportReq, listing: seq<TaskRef>, now: int)
    requires StatusesOk(s.jobs, s.tasks)
    ensures var s' := Report(s, req, listing, now); StatusesOk(s'.jobs, s'.tasks) <==> !Reopens(s, req)
  {
    var s1 := s.(clock := now);
    assert Judge(s1, req) == Judge(s, req);
    if Judge(s1, req).Accept? {
      AcceptKeepsStatusesIff(s1, req, listing, now);
      assert Reopens(s1, req) <==> Reopens(s, req);
    }
  }

  /** An orderly report never does this. */
  lemma OrderlyNeverReopens(s: State, req: ReportReq)
    requires Orderly(s, req)
    ensures !Reopens(s, req)
  {
  }

  /** A worker's own Running report, delivered again after its final report, does whenever its task decided the job: the
      final report cleared the lease and replaced the key, so neither the lease check nor the replay check stops it. */
  lemma LateRunningReportAccepted(s: State, worker: string, a: Assignment)
    requires a.ref in s.tasks && a.ref.jobId in s.jobs && !IsClosed(s.jobs[a.ref.jobId].status)
    requires s.tasks[a.ref].status in {Completed, Failed} && s.tasks[a.ref].leaseId == ""
    requires s.tasks[a.ref].lastReportKey == IdempotencyKey(worker, a.ref, a.attempt)
    ensures Judge(s, RunningReport(worker, a)).Accept?
    ensures forall listing, now :: Report(s, RunningReport(worker, a), listing, now).tasks[a.ref].status == Running
    ensures Reopens(s, RunningReport(worker, a)) <==>
      if s.tasks[a.ref].status == Failed then OnlyFailed(s.tasks, a.ref) else AllCompleted(s.tasks, a.ref.jobId)
  {
    PhasesDiffer(worker, worker, a.ref, a.ref, a.attempt, a.attempt);
  }
}
