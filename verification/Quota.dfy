/** No step but an accepted submission makes a job Running, so the tenant quota on running jobs holds for ever. */
module Quota {
  import opened Text
  import opened Records
  import opened Listings
  import opened Scheduler
  import opened Invariants
  import opened Preservation
  import Policy
  import Q = QueueModel

  /** Every running job of s' was already running in s, for the same tenant. */
  ghost predicate NoneRevived(jobs: map<string, Job>, jobs': map<string, Job>) {
    forall j :: j in jobs' && jobs'[j].status == Running ==>
      j in jobs && jobs[j].status == Running && jobs[j].tenant == jobs'[j].tenant
  }

  lemma CarryOutNoneRevived(cfg: Config, s: State, worker: string, ref: TaskRef, now: int, sc: Screening)
    requires ScreeningOk(s, worker, ref, now, sc)
    ensures NoneRevived(s.jobs, CarryOut(cfg, s, worker, ref, now, sc).0.jobs)
  {
  }

  lemma AssignOneNoneRevived(cfg: Config, acc: Acc, worker: string, max: int, claim: Claim, now: int, c: Choice)
    ensures NoneRevived(acc.s.jobs, AssignOne(cfg, acc, worker, max, claim, now, c).s.jobs)
  {
    CarryOutNoneRevived(cfg, acc.s, worker, claim.ref, now, Screen(cfg, acc.s, worker, claim.ref, now, c));
  }

  lemma {:induction false} AssignAllNoneRevived(cfg: Config, s: State, worker: string, max: int, claims: seq<Claim>, n: nat,
                                                now: int, choices: seq<Choice>)
    requires n <= |claims|
    ensures NoneRevived(s.jobs, AssignAll(cfg, s, worker, max, claims, n, now, choices).s.jobs)
  {
    if n > 0 {
      AssignAllNoneRevived(cfg, s, worker, max, claims, n - 1, now, choices);
      AssignOneNoneRevived(cfg, AssignAll(cfg, s, worker, max, claims, n - 1, now, choices), worker, max, claims[n - 1], now,
                           ChoiceAt(choices, n - 1));
    }
  }

  /** If a job's tasks make it Running, they did before too, provided one was unfinished and no Failed one has moved on. */
  lemma RunningBefore(a: map<TaskRef, Task>, b: map<TaskRef, Task>, j: string, unfinished: TaskRef)
    requires StatusOf(b, j) == Running
    requires forall r :: r in a && a[r].status == Failed ==> r in b && b[r].status == Failed
    requires unfinished in a && unfinished.jobId == j && a[unfinished].status != Completed
    ensures StatusOf(a, j) == Running
  {
    if AnyFailed(a, j) {
      var r :| r in a && r.jobId == j && a[r].status == Failed;
      assert r in b && b[r].status == Failed;
    }
  }

  lemma ExpiryKeepsFailed(tasks: map<TaskRef, Task>, now: int)
    ensures forall r :: r in tasks && tasks[r].status == Failed ==>
      r in AfterExpiry(tasks, now) && AfterExpiry(tasks, now)[r].status == Failed
  {
  }

  lemma ExpiredJobRunning(jobs: map<string, Job>, tasks: map<TaskRef, Task>, j: string, now: int)
    requires j in jobs && JobOk(jobs[j], tasks, j) && Affected(tasks, j, now)
    requires Reconciled(jobs[j], AfterExpiry(tasks, now), j).status == Running
    ensures jobs[j].status == Running
  {
    var r :| r in tasks && r.jobId == j && Expired(tasks[r], now);
    ExpiryKeepsFailed(tasks, now);
    if !IsClosed(jobs[j].status) { RunningBefore(tasks, AfterExpiry(tasks, now), j, r); }
  }

  lemma ExpireNoneRevived(cfg: Config, s: State, listing: seq<TaskRef>, now: int)
    requires Inv(cfg, s, Mode(true, false))
    ensures NoneRevived(s.jobs, ExpireLeases(s, listing, now).jobs)
  {
    var s' := ExpireLeases(s, listing, now);
    forall j | j in s'.jobs && s'.jobs[j].status == Running
      ensures s.jobs[j].status == Running && s.jobs[j].tenant == s'.jobs[j].tenant
    {
      assert JobOk(s.jobs[j], s.tasks, j);
      if Affected(s.tasks, j, now) { ExpiredJobRunning(s.jobs, s.tasks, j, now); }
    }
  }

  lemma RecomputedRunning(jobs: map<string, Job>, tasks: map<TaskRef, Task>, ref: TaskRef, t: Task)
    requires ref in tasks && ref.jobId in jobs && JobOk(jobs[ref.jobId], tasks, ref.jobId)
    requires tasks[ref].status != Failed && tasks[ref].status != Completed && !IsClosed(jobs[ref.jobId].status)
    requires StatusOf(tasks[ref := t], ref.jobId) == Running
    ensures jobs[ref.jobId].status == Running
  {
    RunningBefore(tasks, tasks[ref := t], ref.jobId, ref);
  }

  lemma AcceptedJobs(s: State, req: ReportReq, listing: seq<TaskRef>, now: int)
    requires req.ref in s.tasks && req.ref.jobId in s.jobs
    ensures AcceptReport(s, req, listing, now).jobs ==
      if req.status == SaysRunning then s.jobs
      else s.jobs[req.ref.jobId := s.jobs[req.ref.jobId].(status :=
             StatusOf(s.tasks[req.ref := ReportedTask(s.tasks[req.ref], req, now)], req.ref.jobId))]
  {
  }

  /** An accepted final report that makes its job Running, though the job was not: the retry of a finished task, or the
      completion of the one that failed. */
  ghost predicate Revives(s: State, req: ReportReq) {
    && Judge(s, req).Accept? && req.status != SaysRunning
    && s.jobs[req.ref.jobId].status != Running
    && StatusOf(s.tasks[req.ref := ReportedTask(s.tasks[req.ref], req, s.clock)], req.ref.jobId) == Running
  }

  /** An orderly report never does this, while job statuses are right. */
  lemma OrderlyNeverRevives(s: State, req: ReportReq)
    requires StatusesOk(s.jobs, s.tasks) && Orderly(s, req)
    ensures !Revives(s, req)
  {
    if Revives(s, req) {
      assert JobOk(s.jobs[req.ref.jobId], s.tasks, req.ref.jobId);
      RecomputedRunning(s.jobs, s.tasks, req.ref, ReportedTask(s.tasks[req.ref], req, s.clock));
    }
  }

  lemma AcceptNoneRevived(s: State, req: ReportReq, listing: seq<TaskRef>, now: int)
    requires Judge(s, req).Accept? && !Revives(s, req)
    ensures NoneRevived(s.jobs, AcceptReport(s, req, listing, now).jobs)
  {
    hide StatusOf;
    var ref, j := req.ref, req.ref.jobId;
    AcceptedJobs(s, req, listing, now);
    StatusOfSame(s.tasks[ref := ReportedTask(s.tasks[ref], req, now)],
                 s.tasks[ref := ReportedTask(s.tasks[ref], req, s.clock)], j);
  }

  lemma PollNoneRevived(cfg: Config, s: State, worker: string, max: int, now: int, o: PollOrders)
    requires Inv(cfg, s, Mode(true, false)) && s.clock <= now <= INT64_MAX
    ensures NoneRevived(s.jobs, PollAssignments(cfg, s, worker, max, now, o).0.jobs)
  {
    if worker in s.workers {
      var s1 := s.(clock := now, queue := Q.RequeueExpired(s.queue, o.receipts, now, PollMax(max) * 8));
      ClockInv(cfg, s, now, Mode(true, false));
      assert Inv(cfg, s1, Mode(true, false));
      ExpireNoneRevived(cfg, s1, o.tasks, now);
      var s2 := Swept(s, max, now, o);
      var (queue, claims) := PollClaims(cfg, s2, worker, max, now);
      var s3 := s2.(queue := queue);
      var sorted := SortClaims(cfg, s3, claims);
      AssignAllNoneRevived(cfg, s3, worker, PollMax(max), sorted, |sorted|, now, o.choices);
    }
  }

  lemma ReportNoneRevived(s: State, req: ReportReq, listing: seq<TaskRef>, now: int)
    requires !Revives(s, req)
    ensures NoneRevived(s.jobs, Report(s, req, listing, now).jobs)
  {
    hide AcceptReport;
    var s1 := s.(clock := now);
    if Judge(s1, req).Accept? {
      assert !Revives(s1, req) by { SameRevival(s, req, now); }
      AcceptNoneRevived(s1, req, listing, now);
    }
  }

  lemma SameRevival(s: State, req: ReportReq, now: int)
    ensures Revives(s.(clock := now), req) <==> Revives(s, req)
  {
    if Judge(s, req).Accept? {
      StatusOfSame(s.tasks[req.ref := ReportedTask(s.tasks[req.ref], req, now)],
                   s.tasks[req.ref := ReportedTask(s.tasks[req.ref], req, s.clock)], req.ref.jobId);
    }
  }

  /** While job statuses are right, only a submission or a reviving report makes a job Running. */
  lemma StepNoneRevived(cfg: Config, s: State, a: Action, now: int)
    requires Inv(cfg, s, Mode(true, false)) && Legal(s, a, now)
    requires a.Submit? ==> !SubmitAllowed(cfg, s, a.sub)
    requires a.Tell? ==> !Revives(s, a.req)
    ensures NoneRevived(s.jobs, Step(cfg, s, a, now).jobs)
  {
    hide PollAssignments, Report, Inv, Lists, SubmitAllowed, Revives;
    match a
    case Poll(w, max, o) => PollNoneRevived(cfg, s, w, max, now, o);
    case Tell(req, listing) => ReportNoneRevived(s, req, listing, now);
    case Submit(sub) =>
    case Pulse(w, b) =>
    case Cancel(j) =>
    case Archive(j) =>
    case Register(id, w) =>
    case Revive(refs) =>
  }

  // ---------- the running jobs of some tenants ----------

  /** The running jobs of the tenants that who selects. */
  ghost function RunningFor(jobs: map<string, Job>, who: string -> bool): set<string> {
    set j | j in jobs && jobs[j].status == Running && who(jobs[j].tenant)
  }

  /** The tenant, as its submissions spell it. */
  function Spelled(t: string): string -> bool { x => x == t }

  /** Every spelling that the policy looks up under one name. */
  function Under(name: string): string -> bool { x => Policy.QuotaTenant(x) == name }

  /** For a tenant with a name, these are the jobs that a submission's policy check counts. */
  lemma SpelledCount(jobs: map<string, Job>, t: string)
    ensures t != "" ==> CountJobs(jobs, t, Running) == |RunningFor(jobs, Spelled(t))|
    ensures |RunningFor(jobs, Spelled(t))| <= CountJobs(jobs, t, Running)
  {
    var all, own := JobsOf(jobs, t, Running), RunningFor(jobs, Spelled(t));
    assert own <= all;
    SubsetSize(own, all);
    if t != "" { assert own == all; }
  }

  /** The status that lease expiry leaves a job with. */
  ghost function SweptStatus(s: State, now: int, j: string): Status
    requires j in s.jobs
  {
    if Affected(s.tasks, j, now) && !IsClosed(s.jobs[j].status) then StatusOf(AfterExpiry(s.tasks, now), j)
    else s.jobs[j].status
  }

  /** The selected tenants' jobs that are running once a poll has swept the expired leases. */
  ghost function RunningSwept(s: State, now: int, who: string -> bool): set<string> {
    set j | j in s.jobs && SweptStatus(s, now, j) == Running && who(s.jobs[j].tenant)
  }

  lemma SweptRunning(s: State, listing: seq<TaskRef>, now: int, who: string -> bool)
    ensures RunningFor(ExpireLeases(s, listing, now).jobs, who) == RunningSwept(s, now, who)
  {
    hide StatusOf, Affected, AfterExpiry, Requeued, LapseEvents;
  }

  // ---------- a poll and its denials ----------

  /** No assignment was denied between the two states. */
  ghost predicate NoDenial(s: State, s': State) {
    forall i :: |s.log| <= i < |s'.log| ==> !s'.log[i].Denied?
  }

  /** The log has grown, and the jobs are as before unless an assignment was denied. */
  ghost predicate OnlyDenies(s: State, s': State) {
    && |s.log| <= |s'.log| && s'.log[..|s.log|] == s.log
    && (NoDenial(s, s') ==> s'.jobs == s.jobs)
  }

  lemma OnlyDeniesTrans(a: State, b: State, c: State)
    requires OnlyDenies(a, b) && OnlyDenies(b, c)
    ensures OnlyDenies(a, c)
  {
    assert c.log[..|a.log|] == c.log[..|b.log|][..|a.log|];
    if NoDenial(a, c) {
      forall i | |a.log| <= i < |b.log| ensures !b.log[i].Denied? {
        assert b.log[i] == c.log[..|b.log|][i];
      }
    }
  }

  lemma GrantDenies(cfg: Config, s: State, worker: string, ref: TaskRef, now: int)
    requires ref in s.tasks && ref.jobId in s.jobs && worker in s.workers
    ensures OnlyDenies(s, Grant(cfg, s, worker, ref, now).0)
  {
    hide AssignmentDecision, AssignmentOf, LeasedTask;
    var s' := Grant(cfg, s, worker, ref, now).0;
    assert s'.log[|s.log|].Denied? || s'.jobs == s.jobs;
  }

  lemma CarryOutDenies(cfg: Config, s: State, worker: string, ref: TaskRef, now: int, sc: Screening)
    requires ScreeningOk(s, worker, ref, now, sc)
    ensures OnlyDenies(s, CarryOut(cfg, s, worker, ref, now, sc).0)
  {
    hide Grant;
    match sc
    case Refuse(_) =>
    case GoAhead(None) => GrantDenies(cfg, s, worker, ref, now);
    case GoAhead(Some(v)) =>
      var s1 := Preempt(s, v, now);
      assert OnlyDenies(s, s1);
      GrantDenies(cfg, s1, worker, ref, now);
      OnlyDeniesTrans(s, s1, Grant(cfg, s1, worker, ref, now).0);
  }

  lemma {:induction false} AssignAllDenies(cfg: Config, s: State, worker: string, max: int, claims: seq<Claim>, n: nat,
                                           now: int, choices: seq<Choice>)
    requires n <= |claims|
    ensures OnlyDenies(s, AssignAll(cfg, s, worker, max, claims, n, now, choices).s)
  {
    hide Screen, CarryOut, OnlyDenies;
    if n == 0 {
      NothingDenied(s);
    } else {
      var acc := AssignAll(cfg, s, worker, max, claims, n - 1, now, choices);
      AssignAllDenies(cfg, s, worker, max, claims, n - 1, now, choices);
      var ref, c := claims[n - 1].ref, ChoiceAt(choices, n - 1);
      CarryOutDenies(cfg, acc.s, worker, ref, now, Screen(cfg, acc.s, worker, ref, now, c));
      OnlyDeniesTrans(s, acc.s, CarryOut(cfg, acc.s, worker, ref, now, Screen(cfg, acc.s, worker, ref, now, c)).0);
    }
  }

  lemma NothingDenied(s: State)
    ensures OnlyDenies(s, s)
  {
  }

  /** A poll leaves running what its sweep leaves running, less the jobs it denies an assignment. */
  lemma PollRunning(cfg: Config, s: State, worker: string, max: int, now: int, o: PollOrders, who: string -> bool)
    requires worker in s.workers
    ensures var s' := PollAssignments(cfg, s, worker, max, now, o).0;
      && RunningFor(s'.jobs, who) <= RunningSwept(s, now, who)
      && (NoDenial(s, s') ==> RunningFor(s'.jobs, who) == RunningSwept(s, now, who))
  {
    hide ExpireLeases, AssignAll, SortClaims, SweptStatus;
    var s1 := s.(clock := now, queue := Q.RequeueExpired(s.queue, o.receipts, now, PollMax(max) * 8));
    var s2 := Swept(s, max, now, o);
    var (queue, claims) := PollClaims(cfg, s2, worker, max, now);
    var s3 := s2.(queue := queue);
    var sorted := SortClaims(cfg, s3, claims);
    SweptRunning(s1, o.tasks, now, who);
    SweptAlike(s, s1, now, who);
    AssignAllNoneRevived(cfg, s3, worker, PollMax(max), sorted, |sorted|, now, o.choices);
    AssignAllDenies(cfg, s3, worker, PollMax(max), sorted, |sorted|, now, o.choices);
    SweepLogs(s1, o.tasks, now);
  }

  lemma SweptAlike(s: State, s1: State, now: int, who: string -> bool)
    requires s1.jobs == s.jobs && s1.tasks == s.tasks
    ensures RunningSwept(s1, now, who) == RunningSwept(s, now, who)
  {
    hide StatusOf, Affected, AfterExpiry;
  }

  lemma SweepLogs(s: State, listing: seq<TaskRef>, now: int)
    ensures |s.log| <= |ExpireLeases(s, listing, now).log|
  {
  }

  // ---------- what one call does to the number ----------

  /** The calls that take the number of running jobs above the limit, told from the state before: a submission that is
      accepted, has tasks and finds the limit reached by other jobs; a reviving report that finds it reached; and a poll
      whose sweep leaves more than the limit running. */
  ghost predicate Overruns(cfg: Config, s: State, a: Action, now: int, who: string -> bool, limit: nat) {
    match a
    case Submit(sub) => SubmitsAtLimit(cfg, s, sub, who, limit)
    case Tell(req, _) => RevivesAtLimit(s, req, who, limit)
    case Poll(w, _, _) => w in s.workers && |RunningSwept(s, now, who)| > limit
    case _ => false
  }

  /** The submission is accepted and runs, for one of the selected tenants, whose other running jobs reach the limit. */
  ghost predicate SubmitsAtLimit(cfg: Config, s: State, sub: Submission, who: string -> bool, limit: nat) {
    SubmitAllowed(cfg, s, sub) && |sub.tasks| > 0 && who(sub.tenant) && |RunningFor(s.jobs, who) - {sub.jobId}| >= limit
  }

  /** The report revives a job of the selected tenants while they have as many running as the limit. */
  ghost predicate RevivesAtLimit(s: State, req: ReportReq, who: string -> bool, limit: nat) {
    Revives(s, req) && who(s.jobs[req.ref.jobId].tenant) && |RunningFor(s.jobs, who)| >= limit
  }

  lemma SubmitRunning(cfg: Config, s: State, sub: Submission, now: int, who: string -> bool)
    requires SubmitAllowed(cfg, s, sub)
    ensures RunningFor(AddJob(cfg, s, sub, now).jobs, who)
         == RunningFor(s.jobs, who) - {sub.jobId} + if |sub.tasks| > 0 && who(sub.tenant) then {sub.jobId} else {}
  {
    hide PutTasks, SourceRefs, WithoutJob, SubmitAllowed;
  }

  lemma RevivedRunning(s: State, req: ReportReq, listing: seq<TaskRef>, now: int, who: string -> bool)
    requires Revives(s, req)
    ensures RunningFor(Report(s, req, listing, now).jobs, who)
         == RunningFor(s.jobs, who) + if who(s.jobs[req.ref.jobId].tenant) then {req.ref.jobId} else {}
  {
    hide AcceptReport, StatusOf;
    SameRevival(s, req, now);
    var s1 := s.(clock := now);
    assert Judge(s1, req).Accept?;
    AcceptedJobs(s1, req, listing, now);
  }

  lemma FewerRunning(jobs: map<string, Job>, jobs': map<string, Job>, who: string -> bool)
    requires NoneRevived(jobs, jobs')
    ensures |RunningFor(jobs', who)| <= |RunningFor(jobs, who)|
  {
    assert RunningFor(jobs', who) <= RunningFor(jobs, who);
    SubsetSize(RunningFor(jobs', who), RunningFor(jobs, who));
  }

  lemma SubmitWithin(cfg: Config, s: State, sub: Submission, now: int, who: string -> bool, limit: nat)
    requires |RunningFor(s.jobs, who)| <= limit
    ensures |RunningFor(AddJob(cfg, s, sub, now).jobs, who)| <= limit <==> !Overruns(cfg, s, Submit(sub), now, who, limit)
  {
    hide RunningFor, SubmitDecision;
    if SubmitAllowed(cfg, s, sub) {
      SubmitRunning(cfg, s, sub, now, who);
      SubsetSize(RunningFor(s.jobs, who) - {sub.jobId}, RunningFor(s.jobs, who));
    }
  }

  lemma TellWithin(cfg: Config, s: State, req: ReportReq, listing: seq<TaskRef>, now: int, who: string -> bool, limit: nat)
    requires |RunningFor(s.jobs, who)| <= limit
    ensures |RunningFor(Report(s, req, listing, now).jobs, who)| <= limit
       <==> !Overruns(cfg, s, Tell(req, listing), now, who, limit)
  {
    hide Report, StatusOf;
    if Revives(s, req) {
      RevivedRunning(s, req, listing, now, who);
      assert req.ref.jobId !in RunningFor(s.jobs, who);
    } else {
      ReportNoneRevived(s, req, listing, now);
      FewerRunning(s.jobs, Report(s, req, listing, now).jobs, who);
    }
  }

  /** A poll keeps within the limit unless its sweep overruns it; then it does not, unless it denies an assignment. */
  lemma PollWithin(cfg: Config, s: State, worker: string, max: int, now: int, o: PollOrders, who: string -> bool, limit: nat)
    requires |RunningFor(s.jobs, who)| <= limit
    ensures var s' := PollAssignments(cfg, s, worker, max, now, o).0;
      var over := Overruns(cfg, s, Poll(worker, max, o), now, who, limit);
      && (!over ==> |RunningFor(s'.jobs, who)| <= limit)
      && (over && NoDenial(s, s') ==> |RunningFor(s'.jobs, who)| > limit)
  {
    hide RunningFor, RunningSwept, NoDenial, Assigning, Settle, Swept;
    if worker in s.workers {
      PollRunning(cfg, s, worker, max, now, o, who);
      SubsetSize(RunningFor(PollAssignments(cfg, s, worker, max, now, o).0.jobs, who), RunningSwept(s, now, who));
    }
  }

  /** Exactly which calls take the number of running jobs above the limit, without any assumption on reports or ids. */
  lemma StepWithin(cfg: Config, s: State, a: Action, now: int, who: string -> bool, limit: nat)
    requires |RunningFor(s.jobs, who)| <= limit
    ensures var s' := Step(cfg, s, a, now);
      var over := Overruns(cfg, s, a, now, who, limit);
      && (!over ==> |RunningFor(s'.jobs, who)| <= limit)
      && (over && (a.Poll? ==> NoDenial(s, s')) ==> |RunningFor(s'.jobs, who)| > limit)
  {
    hide PollAssignments, Report, AddJob, Overruns, RunningFor, NoDenial;
    match a
    case Submit(sub) => SubmitWithin(cfg, s, sub, now, who, limit);
    case Tell(req, listing) => TellWithin(cfg, s, req, listing, now, who, limit);
    case Poll(w, max, o) => PollWithin(cfg, s, w, max, now, o, who, limit);
    case _ => QuietWithin(cfg, s, a, now, who, limit);
  }

  lemma QuietWithin(cfg: Config, s: State, a: Action, now: int, who: string -> bool, limit: nat)
    requires !a.Submit? && !a.Tell? && !a.Poll? && |RunningFor(s.jobs, who)| <= limit
    ensures |RunningFor(Step(cfg, s, a, now).jobs, who)| <= limit && !Overruns(cfg, s, a, now, who, limit)
  {
    hide Extendable, Extended, CanceledTask, RunningFor;
    assert NoneRevived(s.jobs, Step(cfg, s, a, now).jobs);
    FewerRunning(s.jobs, Step(cfg, s, a, now).jobs, who);
  }

  // ---------- the policy's part ----------

  /** The policy limits the running jobs of tenant t, as its submissions spell it, to limit.  The empty spelling is looked
      up as "default", and its check counts the running jobs of all tenants. */
  ghost predicate HasQuota(p: Policy.Engine, t: string, limit: nat) {
    && !p.noop && limit > 0
    && Policy.QuotaTenant(t) in p.quotas && p.quotas[Policy.QuotaTenant(t)].maxRunningJobs == limit
  }

  /** A submission accepted for the tenant finds it below its quota. */
  lemma AcceptedBelowQuota(cfg: Config, s: State, sub: Submission, t: string, limit: nat)
    requires HasQuota(cfg.policy, t, limit)
    ensures !SubmitsAtLimit(cfg, s, sub, Spelled(t), limit)
  {
    hide RunningFor, CountJobs;
    if sub.tenant == t && SubmitAllowed(cfg, s, sub) {
      assert CountJobs(s.jobs, t, Running) < limit;
      SpelledCount(s.jobs, t);
      SubsetSize(RunningFor(s.jobs, Spelled(t)) - {sub.jobId}, RunningFor(s.jobs, Spelled(t)));
    }
  }

  /** While job statuses are right, a sweep makes no job run that did not. */
  lemma SweepRevivesNone(s: State, now: int, who: string -> bool)
    requires StatusesOk(s.jobs, s.tasks)
    ensures RunningSwept(s, now, who) <= RunningFor(s.jobs, who)
  {
    hide StatusOf, Affected, AfterExpiry, JobOk;
    forall j | j in RunningSwept(s, now, who) ensures j in RunningFor(s.jobs, who) {
      assert JobOk(s.jobs[j], s.tasks, j);
      if Affected(s.tasks, j, now) { ExpiredJobRunning(s.jobs, s.tasks, j, now); }
    }
  }

  lemma SweepWithin(cfg: Config, s: State, worker: string, max: int, o: PollOrders, now: int, who: string -> bool, limit: nat)
    requires StatusesOk(s.jobs, s.tasks) && |RunningFor(s.jobs, who)| <= limit
    ensures !Overruns(cfg, s, Poll(worker, max, o), now, who, limit)
  {
    hide RunningFor, RunningSwept, StatusesOk;
    SweepRevivesNone(s, now, who);
    SubsetSize(RunningSwept(s, now, who), RunningFor(s.jobs, who));
  }
}
