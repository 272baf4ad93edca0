/** Lease expiry, submissions and whole polls keep the invariants; so does every step. */
module PollPreservation {
  import opened Text
  import opened Records
  import opened Dag
  import opened Scheduler
  import opened Invariants
  import opened Preservation
  import Q = QueueModel

  // ---------- lease expiry ----------

  lemma {:induction false} LapseEventsShape(tasks: map<TaskRef, Task>, requeued: seq<TaskRef>, now: int)
    ensures forall i :: 0 <= i < |LapseEvents(tasks, requeued, now)| ==> LapseEvents(tasks, requeued, now)[i].Lapsed?
  {
    if |requeued| > 0 { LapseEventsShape(tasks, requeued[..|requeued| - 1], now); }
  }

  lemma {:induction false} LapseCounted(tasks: map<TaskRef, Task>, requeued: seq<TaskRef>, now: int, r: TaskRef)
    requires r in requeued && r in tasks && !TimedOut(tasks[r], now)
    ensures Setbacks(LapseEvents(tasks, requeued, now), r) >= 1
  {
    var last, front := requeued[|requeued| - 1], requeued[..|requeued| - 1];
    assert requeued == front + [last];
    var es := LapseEvents(tasks, front, now);
    if last == r {
      SetbacksPush(es, Lapsed(r), r);
    } else {
      LapseCounted(tasks, front, now, r);
      SetbacksAppend(es, if last in tasks && !TimedOut(tasks[last], now) then [Lapsed(last)] else [], r);
    }
  }

  lemma ExpiredTaskOk(cfg: Config, s: State, listing: seq<TaskRef>, now: int, r: TaskRef)
    requires Inv(cfg, s, Mode(false, false)) && Lists(listing, s.tasks.Keys)
    requires r in s.tasks && Expired(s.tasks[r], now)
    ensures var s' := ExpireLeases(s, listing, now);
      && LeaseOk(cfg, s.clock, r, s'.tasks[r])
      && AttemptOk(s'.log, r, s'.tasks[r])
      && s'.tasks[r].status in {Queued, Failed}
      && s'.tasks[r].lastReportKey == s.tasks[r].lastReportKey
      && s'.tasks[r].attempt == s.tasks[r].attempt
  {
    var t := s.tasks[r];
    var t' := ExpiredTask(t, now);
    var requeued := Requeued(s.tasks, listing, now);
    var es := LapseEvents(s.tasks, requeued, now);
    assert LeaseOk(cfg, s.clock, r, t) && AttemptOk(s.log, r, t);
    SetbacksAppend(s.log, es, r);
    if t'.status == Queued && !TimedOut(t, now) {
      LapseCounted(s.tasks, requeued, now, r);
    }
  }

  lemma ExpireTasks(cfg: Config, s: State, listing: seq<TaskRef>, now: int)
    requires Inv(cfg, s, Mode(false, false)) && Lists(listing, s.tasks.Keys)
    ensures var s' := ExpireLeases(s, listing, now);
      LeasesOk(cfg, s'.tasks, s.clock) && AttemptsOk(s'.tasks, s'.log) && KeysOk(s'.tasks, s'.log)
  {
    var s' := ExpireLeases(s, listing, now);
    var es := LapseEvents(s.tasks, Requeued(s.tasks, listing, now), now);
    LapseEventsShape(s.tasks, Requeued(s.tasks, listing, now), now);
    forall r | r in s'.tasks
      ensures LeaseOk(cfg, s.clock, r, s'.tasks[r]) && AttemptOk(s'.log, r, s'.tasks[r])
      ensures s'.tasks[r].lastReportKey == LastKey(s'.log, r)
    {
      LastKeyQuiet(s.log, es, r);
      if Expired(s.tasks[r], now) {
        ExpiredTaskOk(cfg, s, listing, now, r);
      } else {
        assert LeaseOk(cfg, s.clock, r, s.tasks[r]) && AttemptOk(s.log, r, s.tasks[r]);
        SetbacksAppend(s.log, es, r);
      }
    }
  }

  lemma ExpireSane(s: State, listing: seq<TaskRef>, now: int)
    requires Sane(s.jobs, s.tasks)
    ensures Sane(ExpireLeases(s, listing, now).jobs, ExpireLeases(s, listing, now).tasks)
  {
    var s' := ExpireLeases(s, listing, now);
    forall r | r in s'.tasks ensures TaskSane(s'.jobs, r, s'.tasks[r]) {
      assert TaskSane(s.jobs, r, s.tasks[r]);
    }
    forall j | j in s'.jobs && s'.jobs[j].status == Running ensures HasTasks(s'.tasks, j) {
      if Affected(s.tasks, j, now) {
        var r :| r in s.tasks && r.jobId == j && Expired(s.tasks[r], now);
        assert r in s'.tasks;
      } else {
        HasTasksKept(s.tasks, s'.tasks, j);
      }
    }
  }

  lemma ExpireStatuses(s: State, listing: seq<TaskRef>, now: int)
    requires StatusesOk(s.jobs, s.tasks)
    ensures StatusesOk(ExpireLeases(s, listing, now).jobs, ExpireLeases(s, listing, now).tasks)
  {
    var s' := ExpireLeases(s, listing, now);
    forall j | j in s'.jobs ensures JobOk(s'.jobs[j], s'.tasks, j) {
      assert JobOk(s.jobs[j], s.tasks, j);
      if !Affected(s.tasks, j, now) {
        StatusOfSame(s.tasks, s'.tasks, j);
      }
    }
  }

  lemma ExpireInv(cfg: Config, s: State, listing: seq<TaskRef>, now: int, m: Mode)
    requires Inv(cfg, s, m) && Lists(listing, s.tasks.Keys)
    ensures Inv(cfg, ExpireLeases(s, listing, now), m)
  {
    ExpireTasks(cfg, s, listing, now);
    ExpireSane(s, listing, now);
    if m.orderly { ExpireStatuses(s, listing, now); }
    if m.uniqueJobs {
      LapseEventsShape(s.tasks, Requeued(s.tasks, listing, now), now);
      HandoutsKept(s.tasks, AfterExpiry(s.tasks, now), s.log, LapseEvents(s.tasks, Requeued(s.tasks, listing, now), now));
    }
  }

  // ---------- submissions ----------

  ghost predicate IsNew(sub: Submission, dag: seq<DagTask>, now: int, r: TaskRef, t: Task) {
    exists i :: 0 <= i < |dag| && r == TaskRef(sub.jobId, dag[i].taskId) && t == NewTask(sub, dag[i], now)
  }

  lemma {:induction false} PutTasksShape(tasks: map<TaskRef, Task>, sub: Submission, dag: seq<DagTask>, now: int)
    ensures var p := PutTasks(tasks, sub, dag, now);
      && tasks.Keys <= p.Keys
      && (forall r :: r in p ==> IsNew(sub, dag, now, r, p[r]) || (r in tasks && p[r] == tasks[r]))
      && (forall i :: 0 <= i < |dag| ==> TaskRef(sub.jobId, dag[i].taskId) in p)
  {
    hide DecoratedInputs;
    if |dag| > 0 {
      var front, last := dag[..|dag| - 1], dag[|dag| - 1];
      PutTasksShape(tasks, sub, front, now);
      var p0, p := PutTasks(tasks, sub, front, now), PutTasks(tasks, sub, dag, now);
      forall r | r in p ensures IsNew(sub, dag, now, r, p[r]) || (r in tasks && p[r] == tasks[r]) {
        if r == TaskRef(sub.jobId, last.taskId) {
          assert dag[|dag| - 1] == last;
        } else if IsNew(sub, front, now, r, p0[r]) {
          var i :| 0 <= i < |front| && r == TaskRef(sub.jobId, front[i].taskId) && p0[r] == NewTask(sub, front[i], now);
          assert dag[i] == front[i];
        }
      }
      forall i | 0 <= i < |dag| ensures TaskRef(sub.jobId, dag[i].taskId) in p {
        if i < |front| { assert front[i] == dag[i]; }
      }
    }
  }

  /** After an accepted submission, a task is either one of the new job's, freshly queued, or an old one of another job. */
  lemma SubmittedTask(cfg: Config, s: State, sub: Submission, now: int, r: TaskRef)
    requires SubmitAllowed(cfg, s, sub) && r in AddJob(cfg, s, sub, now).tasks
    ensures var t := AddJob(cfg, s, sub, now).tasks[r];
      || (r.jobId == sub.jobId && |sub.tasks| > 0 && IsNew(sub, sub.tasks, now, r, t))
      || (r.jobId != sub.jobId && r in s.tasks && t == s.tasks[r])
  {
    PutTasksShape(WithoutJob(s.tasks, sub.jobId), sub, sub.tasks, now);
  }

  lemma OtherTasksKept(cfg: Config, s: State, sub: Submission, now: int)
    requires SubmitAllowed(cfg, s, sub)
    ensures var s' := AddJob(cfg, s, sub, now);
      forall r :: r in s.tasks && r.jobId != sub.jobId ==> r in s'.tasks && s'.tasks[r] == s.tasks[r]
  {
    PutTasksShape(WithoutJob(s.tasks, sub.jobId), sub, sub.tasks, now);
    var s' := AddJob(cfg, s, sub, now);
    forall r | r in s.tasks && r.jobId != sub.jobId ensures r in s'.tasks && s'.tasks[r] == s.tasks[r] {
      assert r in WithoutJob(s.tasks, sub.jobId);
      SubmittedTask(cfg, s, sub, now, r);
    }
  }

  lemma AddJobTasks(cfg: Config, s: State, sub: Submission, now: int)
    requires Inv(cfg, s, Mode(false, false)) && s.clock <= now && SubmitAllowed(cfg, s, sub)
    ensures var s' := AddJob(cfg, s, sub, now);
      LeasesOk(cfg, s'.tasks, now) && AttemptsOk(s'.tasks, s'.log) && KeysOk(s'.tasks, s'.log)
  {
    var s' := AddJob(cfg, s, sub, now);
    forall r | r in s'.tasks
      ensures LeaseOk(cfg, now, r, s'.tasks[r]) && AttemptOk(s'.log, r, s'.tasks[r])
      ensures s'.tasks[r].lastReportKey == LastKey(s'.log, r)
    {
      SubmittedTask(cfg, s, sub, now, r);
      LastKeyPush(s.log, Submitted(sub.jobId), r);
      SetbacksPush(s.log, Submitted(sub.jobId), r);
      if r.jobId != sub.jobId {
        assert LeaseOk(cfg, s.clock, r, s.tasks[r]) && AttemptOk(s.log, r, s.tasks[r]);
      }
    }
  }

  lemma AddJobSane(cfg: Config, s: State, sub: Submission, now: int)
    requires Sane(s.jobs, s.tasks) && SubmitAllowed(cfg, s, sub)
    ensures Sane(AddJob(cfg, s, sub, now).jobs, AddJob(cfg, s, sub, now).tasks)
  {
    hide PutTasks, DecoratedInputs, SubmitAllowed;
    var s' := AddJob(cfg, s, sub, now);
    PutTasksShape(WithoutJob(s.tasks, sub.jobId), sub, sub.tasks, now);
    OtherTasksKept(cfg, s, sub, now);
    forall r | r in s'.tasks ensures TaskSane(s'.jobs, r, s'.tasks[r]) {
      SubmittedTask(cfg, s, sub, now, r);
      if r.jobId != sub.jobId { assert TaskSane(s.jobs, r, s.tasks[r]); }
    }
    forall j | j in s'.jobs && s'.jobs[j].status == Running ensures HasTasks(s'.tasks, j) {
      if j == sub.jobId {
        assert TaskRef(j, sub.tasks[0].taskId) in s'.tasks;
      } else {
        var r :| r in s.tasks && r.jobId == j;
        assert r in s'.tasks;
      }
    }
  }

  lemma AddJobStatuses(cfg: Config, s: State, sub: Submission, now: int)
    requires StatusesOk(s.jobs, s.tasks) && SubmitAllowed(cfg, s, sub)
    ensures StatusesOk(AddJob(cfg, s, sub, now).jobs, AddJob(cfg, s, sub, now).tasks)
  {
    var s' := AddJob(cfg, s, sub, now);
    OtherTasksKept(cfg, s, sub, now);
    forall r | r in s'.tasks
      ensures r.jobId == sub.jobId ==> s'.tasks[r].status == Queued && |sub.tasks| > 0
      ensures r.jobId != sub.jobId ==> r in s.tasks && s'.tasks[r] == s.tasks[r]
    {
      SubmittedTask(cfg, s, sub, now, r);
    }
    forall j | j in s'.jobs ensures JobOk(s'.jobs[j], s'.tasks, j) {
      if j != sub.jobId {
        assert JobOk(s.jobs[j], s.tasks, j);
        StatusOfSame(s.tasks, s'.tasks, j);
      }
    }
  }

  lemma AddJobHandouts(cfg: Config, s: State, sub: Submission, now: int)
    requires Sane(s.jobs, s.tasks) && HandoutsOk(s.tasks, s.log) && sub.jobId !in s.jobs && SubmitAllowed(cfg, s, sub)
    ensures HandoutsOk(AddJob(cfg, s, sub, now).tasks, AddJob(cfg, s, sub, now).log)
  {
    var s' := AddJob(cfg, s, sub, now);
    OtherTasksKept(cfg, s, sub, now);
    forall r | r in s.tasks ensures r in s'.tasks && s.tasks[r].attempt <= s'.tasks[r].attempt {
      assert TaskSane(s.jobs, r, s.tasks[r]);
    }
    HandoutsKept(s.tasks, s'.tasks, s.log, [Submitted(sub.jobId)]);
  }

  lemma AddJobInv(cfg: Config, s: State, sub: Submission, now: int, m: Mode)
    requires Inv(cfg, s, m) && s.clock <= now <= INT64_MAX
    requires m.uniqueJobs ==> sub.jobId !in s.jobs
    ensures Inv(cfg, AddJob(cfg, s, sub, now), m)
  {
    if SubmitAllowed(cfg, s, sub) {
      AddJobTasks(cfg, s, sub, now);
      AddJobSane(cfg, s, sub, now);
      if m.orderly { AddJobStatuses(cfg, s, sub, now); }
      if m.uniqueJobs { AddJobHandouts(cfg, s, sub, now); }
    } else {
      ClockInv(cfg, s, now, m);
    }
  }

  // ---------- polls ----------

  lemma GrantInv(cfg: Config, s: State, worker: string, ref: TaskRef, now: int, m: Mode)
    requires Inv(cfg, s, m) && s.clock == now && 0 < now
    requires ref in s.tasks && s.tasks[ref].status == Queued && worker in s.workers
    requires ref.jobId in s.jobs && s.jobs[ref.jobId].status == Running
    ensures Inv(cfg, Grant(cfg, s, worker, ref, now).0, m)
  {
    if !cfg.policy.noop && !AssignmentDecision(cfg, s, ref, s.workers[worker]).allowed {
      DenyInv(cfg, s, ref, now, m);
    } else {
      HandOutInv(cfg, s, ref, worker, now, m);
    }
  }

  lemma CarryOutInv(cfg: Config, s: State, worker: string, ref: TaskRef, now: int, sc: Screening, m: Mode)
    requires Inv(cfg, s, m) && s.clock == now && 0 < now && ScreeningOk(s, worker, ref, now, sc)
    ensures Inv(cfg, CarryOut(cfg, s, worker, ref, now, sc).0, m)
    ensures CarryOut(cfg, s, worker, ref, now, sc).0.clock == now
  {
    match sc
    case Refuse(_) =>
    case GoAhead(None) => GrantInv(cfg, s, worker, ref, now, m);
    case GoAhead(Some(v)) =>
      PreemptInv(cfg, s, v, now, m);
      GrantInv(cfg, Preempt(s, v, now), worker, ref, now, m);
  }

  lemma AssignOneInv(cfg: Config, acc: Acc, worker: string, max: int, claim: Claim, now: int, c: Choice, m: Mode)
    requires Inv(cfg, acc.s, m) && acc.s.clock == now && 0 < now
    ensures Inv(cfg, AssignOne(cfg, acc, worker, max, claim, now, c).s, m)
    ensures AssignOne(cfg, acc, worker, max, claim, now, c).s.clock == now
  {
    CarryOutInv(cfg, acc.s, worker, claim.ref, now, Screen(cfg, acc.s, worker, claim.ref, now, c), m);
  }

  lemma {:induction false} AssignAllInv(cfg: Config, s: State, worker: string, max: int, claims: seq<Claim>, n: nat,
                                        now: int, choices: seq<Choice>, m: Mode)
    requires Inv(cfg, s, m) && s.clock == now && 0 < now && n <= |claims|
    ensures Inv(cfg, AssignAll(cfg, s, worker, max, claims, n, now, choices).s, m)
    ensures AssignAll(cfg, s, worker, max, claims, n, now, choices).s.clock == now
  {
    if n > 0 {
      AssignAllInv(cfg, s, worker, max, claims, n - 1, now, choices, m);
      AssignOneInv(cfg, AssignAll(cfg, s, worker, max, claims, n - 1, now, choices), worker, max, claims[n - 1], now,
                   ChoiceAt(choices, n - 1), m);
    }
  }

  lemma SweptInv(cfg: Config, s: State, max: int, now: int, o: PollOrders, m: Mode)
    requires Inv(cfg, s, m) && s.clock <= now <= INT64_MAX && Lists(o.tasks, s.tasks.Keys)
    ensures Inv(cfg, Swept(s, max, now, o), m) && Swept(s, max, now, o).clock == now
  {
    ClockInv(cfg, s, now, m);
    var s1 := s.(clock := now, queue := Q.RequeueExpired(s.queue, o.receipts, now, PollMax(max) * 8));
    assert Inv(cfg, s1, m);
    ExpireInv(cfg, s1, o.tasks, now, m);
  }

  lemma AssigningInv(cfg: Config, s: State, worker: string, max: int, now: int, o: PollOrders, m: Mode)
    requires Inv(cfg, s, m) && s.clock == now && 0 < now
    ensures Inv(cfg, Assigning(cfg, s, worker, max, now, o).s, m)
    ensures Assigning(cfg, s, worker, max, now, o).s.clock == now
  {
    var (queue, claims) := PollClaims(cfg, s, worker, max, now);
    var s1 := s.(queue := queue);
    var sorted := SortClaims(cfg, s1, claims);
    assert Inv(cfg, s1, m);
    AssignAllInv(cfg, s1, worker, PollMax(max), sorted, |sorted|, now, o.choices, m);
  }

  lemma PollInv(cfg: Config, s: State, worker: string, max: int, now: int, o: PollOrders, m: Mode)
    requires Inv(cfg, s, m) && s.clock <= now <= INT64_MAX && 0 < now && Lists(o.tasks, s.tasks.Keys)
    ensures Inv(cfg, PollAssignments(cfg, s, worker, max, now, o).0, m)
    ensures PollAssignments(cfg, s, worker, max, now, o).0.clock == now
  {
    if worker in s.workers {
      SweptInv(cfg, s, max, now, o, m);
      AssigningInv(cfg, Swept(s, max, now, o), worker, max, now, o, m);
    } else {
      ClockInv(cfg, s, now, m);
    }
  }

  // ---------- every step ----------

  lemma ReportInv(cfg: Config, s: State, req: ReportReq, listing: seq<TaskRef>, now: int, m: Mode)
    requires Inv(cfg, s, m) && s.clock <= now <= INT64_MAX && (m.orderly ==> Orderly(s, req))
    ensures Inv(cfg, Report(s, req, listing, now), m)
  {
    ClockInv(cfg, s, now, m);
    if Judge(s.(clock := now), req).Accept? {
      AcceptReportInv(cfg, s.(clock := now), req, listing, now, m);
    }
  }

  lemma StepInv(cfg: Config, s: State, a: Action, now: int, m: Mode)
    requires Inv(cfg, s, m) && Legal(s, a, now) && Admissible(s, a, m)
    ensures Inv(cfg, Step(cfg, s, a, now), m)
    ensures Step(cfg, s, a, now).clock == now
  {
    match a
    case Submit(sub) => AddJobInv(cfg, s, sub, now, m);
    case Poll(w, max, o) => PollInv(cfg, s, w, max, now, o, m);
    case Tell(req, listing) => ReportInv(cfg, s, req, listing, now, m);
    case Pulse(w, b) => HeartbeatInv(cfg, s, w, b, now, m);
    case Cancel(j) => CancelInv(cfg, s, j, now, m);
    case Archive(j) => ArchiveInv(cfg, s, j, now, m);
    case Register(id, w) => ClockInv(cfg, s, now, m);
    case Revive(refs) => ClockInv(cfg, s, now, m);
  }
}
