/** What a step leaves in place, and what every hand-out it logs can rely on. */
module Steps {
  import opened Text
  import opened Records
  import opened Leases
  import opened Scheduler
  import opened Invariants
  import opened Preservation
  import opened PollPreservation
  import Q = QueueModel

  ghost predicate SameSpec(t: Task, t': Task) {
    && t'.typ == t.typ && t'.inputs == t.inputs && t'.deps == t.deps
    && t'.maxRetries == t.maxRetries && t'.timeoutSec == t.timeoutSec && t'.createdAt == t.createdAt
  }

  /** Tasks stay with the specification they were submitted with; jobs stay, keep their tenant, and once closed
      stay closed; the history only grows. */
  ghost predicate Keeps(s: State, s': State) {
    && (forall r :: r in s.tasks ==> r in s'.tasks && SameSpec(s.tasks[r], s'.tasks[r]))
    && (forall j :: j in s.jobs ==> j in s'.jobs && s'.jobs[j].tenant == s.jobs[j].tenant
                                    && (IsClosed(s.jobs[j].status) ==> IsClosed(s'.jobs[j].status)))
    && |s.log| <= |s'.log| && s'.log[..|s.log|] == s.log
  }

  lemma KeepsTrans(a: State, b: State, c: State)
    requires Keeps(a, b) && Keeps(b, c)
    ensures Keeps(a, c)
  {
    assert c.log[..|a.log|] == c.log[..|b.log|][..|a.log|];
    forall r | r in a.tasks ensures r in c.tasks && SameSpec(a.tasks[r], c.tasks[r]) {
      assert r in b.tasks && SameSpec(a.tasks[r], b.tasks[r]);
    }
    forall j | j in a.jobs
      ensures j in c.jobs && c.jobs[j].tenant == a.jobs[j].tenant
      ensures IsClosed(a.jobs[j].status) ==> IsClosed(c.jobs[j].status)
    {
      assert j in b.jobs;
    }
  }

  // ---------- polls ----------

  /** Within a poll the set of tasks is fixed, completed tasks are untouched and no job is closed. */
  ghost predicate Gentle(s: State, s': State) {
    && Keeps(s, s')
    && s'.tasks.Keys == s.tasks.Keys && s'.jobs.Keys == s.jobs.Keys
    && (forall r :: r in s.tasks && s.tasks[r].status == Completed ==> s'.tasks[r] == s.tasks[r])
    && (forall j :: j in s.jobs && IsClosed(s'.jobs[j].status) ==> IsClosed(s.jobs[j].status))
  }

  lemma GentleTrans(a: State, b: State, c: State)
    requires Gentle(a, b) && Gentle(b, c)
    ensures Gentle(a, c)
  {
    KeepsTrans(a, b, c);
    forall r | r in a.tasks && a.tasks[r].status == Completed ensures c.tasks[r] == a.tasks[r] {
      assert b.tasks[r] == a.tasks[r];
    }
    forall j | j in a.jobs && IsClosed(c.jobs[j].status) ensures IsClosed(a.jobs[j].status) {
      assert j in b.jobs;
    }
  }

  /** What a worker may rely on when it is handed a task: the job is open, every dependency is completed,
      and the inputs carry each dependency's output. */
  ghost predicate FairHandOut(s: State, e: Event)
    requires e.HandedOut?
  {
    var ref := e.given.ref;
    && ref in s.tasks && ref.jobId in s.jobs
    && !IsClosed(s.jobs[ref.jobId].status)
    && (forall d :: d in s.tasks[ref].deps ==>
          TaskRef(ref.jobId, d) in s.tasks && s.tasks[TaskRef(ref.jobId, d)].status == Completed)
    && CarriesOwn(s, e.given)
    && forall i :: 0 <= i < |s.tasks[ref].deps| ==> CarriesOutput(s, e.given, s.tasks[ref].deps[i])
  }

  /** The assignment names the task's type and carries its inputs, apart from those named after a dependency's output. */
  ghost predicate CarriesOwn(s: State, a: Assignment)
    requires a.ref in s.tasks
  {
    var t := s.tasks[a.ref];
    && a.typ == t.typ
    && forall k :: k in t.inputs && (forall i :: 0 <= i < |t.deps| ==> k != DepKey(t.deps[i])) ==>
         k in a.inputs && a.inputs[k] == t.inputs[k]
  }

  ghost predicate CarriesOutput(s: State, a: Assignment, dep: string) {
    DepKey(dep) in a.inputs && a.inputs[DepKey(dep)] == OutputOf(s.tasks, a.ref.jobId, dep)
  }

  /** A poll logs no submissions and no accepted reports, and its hand-outs are fair. */
  ghost predicate FairEvent(s: State, e: Event) {
    !e.Submitted? && !e.Accepted? && (e.HandedOut? ==> FairHandOut(s, e))
  }

  /** Every event logged since the log had length n is fair in s. */
  ghost predicate FairSince(s: State, n: nat) {
    forall i :: n <= i < |s.log| ==> FairEvent(s, s.log[i])
  }

  lemma FairKept(s: State, s': State, e: Event)
    requires FairEvent(s, e) && Gentle(s, s')
    ensures FairEvent(s', e)
  {
    if !e.HandedOut? { return; }
    var ref := e.given.ref;
    assert SameSpec(s.tasks[ref], s'.tasks[ref]);
    var deps := s.tasks[ref].deps;
    forall i | 0 <= i < |deps| ensures DepDone(s'.tasks, ref.jobId, deps[i]) && CarriesOutput(s', e.given, deps[i]) {
      assert DepDone(s.tasks, ref.jobId, deps[i]) && CarriesOutput(s, e.given, deps[i]);
    }
  }

  lemma FairSinceStep(s: State, s': State, n: nat)
    requires FairSince(s, n) && Gentle(s, s') && n <= |s.log| && FairSince(s', |s.log|)
    ensures FairSince(s', n)
  {
    forall i | n <= i < |s'.log| ensures FairEvent(s', s'.log[i]) {
      if i < |s.log| {
        assert s'.log[i] == s'.log[..|s.log|][i] == s.log[i];
        FairKept(s, s', s.log[i]);
      }
    }
  }

  lemma DepKeyInjective(a: string, b: string)
    requires DepKey(a) == DepKey(b)
    ensures a == b
  {
    assert a == DepKey(a)[4..|DepKey(a)| - 11];
    assert b == DepKey(b)[4..|DepKey(b)| - 11];
  }

  lemma {:induction false} DepOutputsCarried(inputs: map<string, string>, tasks: map<TaskRef, Task>, jobId: string, deps: seq<string>, i: nat)
    requires i < |deps|
    ensures var m := WithDepOutputs(inputs, tasks, jobId, deps);
      DepKey(deps[i]) in m && m[DepKey(deps[i])] == OutputOf(tasks, jobId, deps[i])
  {
    var last := deps[|deps| - 1];
    if DepKey(deps[i]) == DepKey(last) {
      DepKeyInjective(deps[i], last);
    } else {
      DepOutputsCarried(inputs, tasks, jobId, deps[..|deps| - 1], i);
    }
  }

  lemma {:induction false} OwnInputsCarried(inputs: map<string, string>, tasks: map<TaskRef, Task>, jobId: string,
                                            deps: seq<string>, k: string)
    requires k in inputs && forall i :: 0 <= i < |deps| ==> k != DepKey(deps[i])
    ensures var m := WithDepOutputs(inputs, tasks, jobId, deps); k in m && m[k] == inputs[k]
  {
    hide DepKey, OutputOf;
    if |deps| > 0 {
      assert k != DepKey(deps[|deps| - 1]);
      OwnInputsCarried(inputs, tasks, jobId, deps[..|deps| - 1], k);
    }
  }

  lemma HandOutOwn(cfg: Config, s: State, ref: TaskRef, worker: string, now: int)
    requires ref in s.tasks
    ensures CarriesOwn(HandOut(cfg, s, ref, worker, now), AssignmentOf(s, ref, worker, now))
  {
    hide DepKey, WithDepOutputs, LeaseExpiry, NewLeaseId;
    var t := s.tasks[ref];
    forall k | k in t.inputs && (forall i :: 0 <= i < |t.deps| ==> k != DepKey(t.deps[i]))
      ensures k in AssignmentOf(s, ref, worker, now).inputs && AssignmentOf(s, ref, worker, now).inputs[k] == t.inputs[k]
    {
      OwnInputsCarried(t.inputs, s.tasks, ref.jobId, t.deps, k);
    }
  }

  lemma HandOutGentle(cfg: Config, s: State, ref: TaskRef, worker: string, now: int)
    requires ref in s.tasks && s.tasks[ref].status == Queued
    ensures Gentle(s, HandOut(cfg, s, ref, worker, now))
  {
    var t := LeasedTask(cfg, s.tasks[ref], ref.taskId, worker, now);
    assert SameSpec(s.tasks[ref], t);
    assert HandOut(cfg, s, ref, worker, now).tasks == s.tasks[ref := t];
  }

  lemma HandOutFair(cfg: Config, s: State, ref: TaskRef, worker: string, now: int)
    requires ref in s.tasks && ref.jobId in s.jobs && s.tasks[ref].status == Queued
    requires s.jobs[ref.jobId].status == Running && DepsDone(s.tasks, ref.jobId, s.tasks[ref].deps)
    ensures FairSince(HandOut(cfg, s, ref, worker, now), |s.log|)
  {
    var s' := HandOut(cfg, s, ref, worker, now);
    var a := AssignmentOf(s, ref, worker, now);
    var deps := s.tasks[ref].deps;
    HandOutOwn(cfg, s, ref, worker, now);
    forall i | 0 <= i < |deps| ensures DepDone(s'.tasks, ref.jobId, deps[i]) && CarriesOutput(s', a, deps[i]) {
      assert DepDone(s.tasks, ref.jobId, deps[i]);
      DepOutputsCarried(s.tasks[ref].inputs, s.tasks, ref.jobId, deps, i);
    }
  }

  lemma DenyGentle(s: State, ref: TaskRef, now: int)
    requires ref in s.tasks && ref.jobId in s.jobs && s.tasks[ref].status == Queued && s.jobs[ref.jobId].status == Running
    ensures Gentle(s, Deny(s, ref, now)) && FairSince(Deny(s, ref, now), |s.log|)
  {
  }

  lemma PreemptGentle(s: State, v: TaskRef, now: int)
    requires v in s.tasks && s.tasks[v].status in {Running, Assigned}
    ensures Gentle(s, Preempt(s, v, now)) && FairSince(Preempt(s, v, now), |s.log|)
  {
  }

  lemma GrantGentle(cfg: Config, s: State, worker: string, ref: TaskRef, now: int)
    requires ref in s.tasks && ref.jobId in s.jobs && s.tasks[ref].status == Queued && worker in s.workers
    requires s.jobs[ref.jobId].status == Running && DepsDone(s.tasks, ref.jobId, s.tasks[ref].deps)
    ensures var s' := Grant(cfg, s, worker, ref, now).0; Gentle(s, s') && FairSince(s', |s.log|)
  {
    if !cfg.policy.noop && !AssignmentDecision(cfg, s, ref, s.workers[worker]).allowed {
      DenyGentle(s, ref, now);
    } else {
      HandOutGentle(cfg, s, ref, worker, now);
      HandOutFair(cfg, s, ref, worker, now);
    }
  }

  /** Preempting a task that occupies a worker undoes no completed dependency. */
  lemma PreemptKeepsDeps(s: State, v: TaskRef, now: int, jobId: string, deps: seq<string>)
    requires v in s.tasks && (s.tasks[v].status == Running || s.tasks[v].status == Assigned)
    requires DepsDone(s.tasks, jobId, deps)
    ensures DepsDone(Preempt(s, v, now).tasks, jobId, deps)
  {
    forall i | 0 <= i < |deps| ensures DepDone(Preempt(s, v, now).tasks, jobId, deps[i]) {
      assert DepDone(s.tasks, jobId, deps[i]);
    }
  }

  lemma PreemptGrantGentle(cfg: Config, s: State, v: TaskRef, worker: string, ref: TaskRef, now: int)
    requires v in s.tasks && s.tasks[v].status in {Running, Assigned}
    requires Runnable(s, ref, now) && worker in s.workers
    ensures var s' := Grant(cfg, Preempt(s, v, now), worker, ref, now).0; Gentle(s, s') && FairSince(s', |s.log|)
  {
    var s1 := Preempt(s, v, now);
    PreemptGentle(s, v, now);
    PreemptKeepsDeps(s, v, now, ref.jobId, s.tasks[ref].deps);
    GrantGentle(cfg, s1, worker, ref, now);
    var s' := Grant(cfg, s1, worker, ref, now).0;
    GentleTrans(s, s1, s');
    FairSinceStep(s1, s', |s.log|);
  }

  lemma GentleSelf(s: State)
    ensures Gentle(s, s) && FairSince(s, |s.log|)
  {
  }

  lemma CarryOutGentle(cfg: Config, s: State, worker: string, ref: TaskRef, now: int, sc: Screening)
    requires ScreeningOk(s, worker, ref, now, sc)
    ensures var s' := CarryOut(cfg, s, worker, ref, now, sc).0; Gentle(s, s') && FairSince(s', |s.log|)
  {
    match sc
    case Refuse(_) => GentleSelf(s);
    case GoAhead(None) => GrantGentle(cfg, s, worker, ref, now);
    case GoAhead(Some(v)) => PreemptGrantGentle(cfg, s, v, worker, ref, now);
  }

  lemma TryAssignGentle(cfg: Config, s: State, worker: string, ref: TaskRef, now: int, c: Choice)
    ensures Gentle(s, TryAssign(cfg, s, worker, ref, now, c).0)
    ensures FairSince(TryAssign(cfg, s, worker, ref, now, c).0, |s.log|)
  {
    CarryOutGentle(cfg, s, worker, ref, now, Screen(cfg, s, worker, ref, now, c));
  }

  lemma GentleThen(s: State, s1: State, s2: State)
    requires Gentle(s, s1) && FairSince(s1, |s.log|) && Gentle(s1, s2) && FairSince(s2, |s1.log|)
    ensures Gentle(s, s2) && FairSince(s2, |s.log|)
  {
    GentleTrans(s, s1, s2);
    FairSinceStep(s1, s2, |s.log|);
  }

  lemma AssignOneGentle(cfg: Config, s: State, acc: Acc, worker: string, max: int, claim: Claim, now: int, c: Choice)
    requires Gentle(s, acc.s) && FairSince(acc.s, |s.log|)
    ensures Gentle(s, AssignOne(cfg, acc, worker, max, claim, now, c).s)
    ensures FairSince(AssignOne(cfg, acc, worker, max, claim, now, c).s, |s.log|)
  {
    if |acc.given| < max {
      TryAssignGentle(cfg, acc.s, worker, claim.ref, now, c);
      GentleThen(s, acc.s, TryAssign(cfg, acc.s, worker, claim.ref, now, c).0);
    }
  }

  lemma {:induction false} AssignAllGentle(cfg: Config, s: State, worker: string, max: int, claims: seq<Claim>, n: nat,
                                           now: int, choices: seq<Choice>)
    requires n <= |claims|
    ensures var s' := AssignAll(cfg, s, worker, max, claims, n, now, choices).s; Gentle(s, s') && FairSince(s', |s.log|)
  {
    if n == 0 {
      GentleSelf(s);
    } else {
      AssignAllGentle(cfg, s, worker, max, claims, n - 1, now, choices);
      AssignOneGentle(cfg, s, AssignAll(cfg, s, worker, max, claims, n - 1, now, choices), worker, max, claims[n - 1], now,
                      ChoiceAt(choices, n - 1));
    }
  }

  lemma ExpiredSpec(t: Task, now: int)
    requires Expired(t, now)
    ensures SameSpec(t, ExpiredTask(t, now)) && t.status != Completed
  {
  }

  lemma ExpireKeeps(s: State, listing: seq<TaskRef>, now: int)
    ensures Keeps(s, ExpireLeases(s, listing, now))
  {
    forall r | r in s.tasks ensures SameSpec(s.tasks[r], AfterExpiry(s.tasks, now)[r]) {
      if Expired(s.tasks[r], now) { ExpiredSpec(s.tasks[r], now); }
    }
  }

  lemma ExpireFair(s: State, listing: seq<TaskRef>, now: int)
    ensures FairSince(ExpireLeases(s, listing, now), |s.log|)
  {
    hide ExpiredTask, Reconciled;
    LapseEventsShape(s.tasks, Requeued(s.tasks, listing, now), now);
  }

  lemma ExpireGentle(s: State, listing: seq<TaskRef>, now: int)
    ensures var s' := ExpireLeases(s, listing, now); Gentle(s, s') && FairSince(s', |s.log|)
  {
    hide FairSince, SameSpec, LapseEvents, Requeued;
    ExpireKeeps(s, listing, now);
    ExpireFair(s, listing, now);
  }

  lemma PollGentle(cfg: Config, s: State, worker: string, max: int, now: int, o: PollOrders)
    ensures var s' := PollAssignments(cfg, s, worker, max, now, o).0; Gentle(s, s') && FairSince(s', |s.log|)
  {
    if worker in s.workers {
      var s1 := s.(clock := now, queue := Q.RequeueExpired(s.queue, o.receipts, now, PollMax(max) * 8));
      var s2 := Swept(s, max, now, o);
      ExpireGentle(s1, o.tasks, now);
      var (queue, claims) := PollClaims(cfg, s2, worker, max, now);
      var s3 := s2.(queue := queue);
      var sorted := SortClaims(cfg, s3, claims);
      AssignAllGentle(cfg, s3, worker, PollMax(max), sorted, |sorted|, now, o.choices);
      PhasesGentle(s, s1, s2, s3, Assigning(cfg, s2, worker, max, now, o));
    }
  }

  /** Queue and clock changes between the phases of a poll do not matter to Gentle and FairSince. */
  lemma PhasesGentle(s: State, s1: State, s2: State, s3: State, acc: Acc)
    requires s1.jobs == s.jobs && s1.tasks == s.tasks && s1.log == s.log
    requires Gentle(s1, s2) && FairSince(s2, |s1.log|)
    requires s3.jobs == s2.jobs && s3.tasks == s2.tasks && s3.log == s2.log
    requires Gentle(s3, acc.s) && FairSince(acc.s, |s3.log|)
    ensures Gentle(s, Settle(acc)) && FairSince(Settle(acc), |s.log|)
  {
    FairElsewhere(s2, s3, |s.log|);
    assert Gentle(s, s3);
    GentleTrans(s, s3, acc.s);
    FairSinceStep(s3, acc.s, |s.log|);
    FairElsewhere(acc.s, Settle(acc), |s.log|);
  }

  lemma FairElsewhere(s: State, s': State, n: nat)
    requires FairSince(s, n) && s'.jobs == s.jobs && s'.tasks == s.tasks && s'.log == s.log
    ensures FairSince(s', n)
  {
    forall i | n <= i < |s'.log| ensures FairEvent(s', s'.log[i]) {
      assert FairEvent(s, s.log[i]);
      if s.log[i].HandedOut? { FairSame(s, s', s.log[i]); }
    }
  }

  lemma FairSame(s: State, s': State, e: Event)
    requires e.HandedOut? && FairHandOut(s, e) && s'.jobs == s.jobs && s'.tasks == s.tasks
    ensures FairHandOut(s', e)
  {
    var deps := s.tasks[e.given.ref].deps;
    forall i | 0 <= i < |deps| ensures CarriesOutput(s', e.given, deps[i]) {
      assert CarriesOutput(s, e.given, deps[i]);
    }
  }

  // ---------- every step ----------

  lemma AddJobKeeps(cfg: Config, s: State, sub: Submission, now: int)
    requires Sane(s.jobs, s.tasks) && sub.jobId !in s.jobs
    ensures Keeps(s, AddJob(cfg, s, sub, now))
  {
    if SubmitAllowed(cfg, s, sub) {
      OtherTasksKept(cfg, s, sub, now);
      forall r | r in s.tasks ensures r.jobId != sub.jobId {
        assert TaskSane(s.jobs, r, s.tasks[r]);
      }
    }
  }

  lemma AcceptKeeps(s: State, req: ReportReq, listing: seq<TaskRef>, now: int)
    requires Judge(s, req).Accept?
    ensures Keeps(s, AcceptReport(s, req, listing, now))
  {
    assert SameSpec(s.tasks[req.ref], ReportedTask(s.tasks[req.ref], req, now));
    assert AcceptReport(s, req, listing, now).tasks == s.tasks[req.ref := ReportedTask(s.tasks[req.ref], req, now)];
  }

  lemma HeartbeatKeeps(cfg: Config, s: State, w: string, b: Beat, now: int)
    ensures Keeps(s, Heartbeat(cfg, s, w, b, now))
  {
  }

  lemma CancelKeeps(s: State, j: string, now: int)
    ensures Keeps(s, CancelJob(s, j, now))
  {
  }

  lemma ReportKeeps(s: State, req: ReportReq, listing: seq<TaskRef>, now: int)
    ensures Keeps(s, Report(s, req, listing, now))
  {
    var s1 := s.(clock := now);
    if Judge(s1, req).Accept? { AcceptKeeps(s1, req, listing, now); }
  }

  lemma StepKeeps(cfg: Config, s: State, a: Action, now: int)
    requires Sane(s.jobs, s.tasks) && FreshAction(s, a)
    ensures Keeps(s, Step(cfg, s, a, now))
  {
    hide PollAssignments, Report, Heartbeat, CancelJob, AddJob, Sane;
    match a
    case Submit(sub) => AddJobKeeps(cfg, s, sub, now);
    case Poll(w, max, o) => PollGentle(cfg, s, w, max, now, o);
    case Tell(req, listing) => ReportKeeps(s, req, listing, now);
    case Pulse(w, b) => HeartbeatKeeps(cfg, s, w, b, now);
    case Cancel(j) => CancelKeeps(s, j, now);
    case Archive(j) =>
    case Register(id, w) =>
    case Revive(refs) =>
  }

  /** A hand-out logged by a step is fair: only polls hand tasks out. */
  lemma StepFair(cfg: Config, s: State, a: Action, now: int, i: nat)
    requires |s.log| <= i < |Step(cfg, s, a, now).log| && Step(cfg, s, a, now).log[i].HandedOut?
    ensures a.Poll? && FairHandOut(Step(cfg, s, a, now), Step(cfg, s, a, now).log[i])
  {
    if a.Poll? {
      PollGentle(cfg, s, a.worker, a.max, now, a.orders);
      assert FairEvent(Step(cfg, s, a, now), Step(cfg, s, a, now).log[i]);
    }
  }

  /** The events a step adds: a submission only for its own job, an accepted report only for its own task. */
  lemma StepEvents(cfg: Config, s: State, a: Action, now: int, i: nat)
    requires |s.log| <= i < |Step(cfg, s, a, now).log|
    ensures var e := Step(cfg, s, a, now).log[i];
      && (e.Submitted? ==> a.Submit? && e.jobId == a.sub.jobId)
      && (e.Accepted? ==> a.Tell? && e.ref == a.req.ref && e.key == a.req.key && i == |s.log|)
  {
    if a.Poll? {
      PollGentle(cfg, s, a.worker, a.max, now, a.orders);
      assert FairEvent(Step(cfg, s, a, now), Step(cfg, s, a, now).log[i]);
    }
  }
}
