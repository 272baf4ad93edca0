/** A run in which a tenant exceeds its quota although no report revives a job: a reopening report leaves a Failed job
    without a failed task, and the next lease to expire in it makes it Running. */
module ExpiryInstance {
  import opened Text
  import opened Records
  import opened Leases
  import opened Dag
  import opened Scheduler
  import opened NoLost
  import opened QueueLaws
  import opened Quota
  import opened Runs
  import opened QuotaRuns
  import opened RunInstances
  import Q = QueueModel

  const LEASED := TaskRef("j", "b")
  const FAILING := TaskRef("j", "a")

  /** Below zero, a task's retry limit lets its first failed report be final. */
  const PAIR := Submission("j", "acme", "", "", "", "", "", [
    DagTask("b", "tool_execution", map[], [], 0, 0, None, None),
    DagTask("a", "tool_execution", map[], ["b"], 0, -1, None, None)])

  const FAILED_REPORT := ReportReq("w", FAILING, "", "k", SaysOther, "")
  const AGAIN_REPORT := ReportReq("w", FAILING, "", "k2", SaysRunning, "")
  const LATER := DEFAULT_LEASE + 5

  const PAIR_LISTING := [LEASED, FAILING]
  const LISTING := [LEASED, FAILING, OTHER]

  function Calls(choices: seq<Choice>): seq<Call> {
    [ Call(Register("w", NO_WORKER), 1),
      Call(Submit(PAIR), 2),
      Call(FIRST_POLL, 3),
      Call(Tell(FAILED_REPORT, PAIR_LISTING), 4),
      Call(Submit(OneTask("b", "acme")), 5),
      Call(Tell(AGAIN_REPORT, LISTING), 6),
      Call(Poll("w", 1, PollOrders([], LISTING, choices)), LATER)]
  }

  lemma {:induction false} TraceStep(cfg: Config, s: State, calls: seq<Call>, i: nat)
    requires i < |calls|
    ensures Trace(cfg, s, calls)[i + 1] == Step(cfg, Trace(cfg, s, calls)[i], calls[i].action, calls[i].now)
    decreases |calls|
  {
    hide Step;
    if i > 0 {
      var next := Step(cfg, s, calls[0].action, calls[0].now);
      TraceStep(cfg, next, calls[1..], i - 1);
      assert Trace(cfg, s, calls)[i] == Trace(cfg, next, calls[1..])[i - 1];
      assert Trace(cfg, s, calls)[i + 1] == Trace(cfg, next, calls[1..])[i];
      assert calls[i] == calls[1..][i - 1];
    }
  }

  // ---------- no assignment is denied ----------

  /** A policy of quotas on jobs alone denies no assignment. */
  lemma NeverDenied(cfg: Config, s: State, ref: TaskRef, w: Worker)
    requires cfg.policy == ONE_JOB && ref in s.tasks && ref.jobId in s.jobs
    ensures AssignmentDecision(cfg, s, ref, w).allowed
  {
  }

  lemma CarryOutJobs(cfg: Config, s: State, worker: string, ref: TaskRef, now: int, sc: Screening)
    requires cfg.policy == ONE_JOB && ScreeningOk(s, worker, ref, now, sc)
    ensures CarryOut(cfg, s, worker, ref, now, sc).0.jobs == s.jobs
  {
    hide AssignmentDecision, AssignmentOf, LeasedTask;
    match sc
    case Refuse(_) =>
    case GoAhead(None) => NeverDenied(cfg, s, ref, s.workers[worker]);
    case GoAhead(Some(v)) => NeverDenied(cfg, Preempt(s, v, now), ref, s.workers[worker]);
  }

  lemma {:induction false} AssignAllJobs(cfg: Config, s: State, worker: string, max: int, claims: seq<Claim>, n: nat,
                                         now: int, choices: seq<Choice>)
    requires cfg.policy == ONE_JOB && n <= |claims|
    ensures AssignAll(cfg, s, worker, max, claims, n, now, choices).s.jobs == s.jobs
  {
    hide Screen, CarryOut;
    if n > 0 {
      var acc := AssignAll(cfg, s, worker, max, claims, n - 1, now, choices);
      AssignAllJobs(cfg, s, worker, max, claims, n - 1, now, choices);
      var ref, c := claims[n - 1].ref, ChoiceAt(choices, n - 1);
      CarryOutJobs(cfg, acc.s, worker, ref, now, Screen(cfg, acc.s, worker, ref, now, c));
    }
  }

  lemma PollJobs(cfg: Config, s: State, worker: string, max: int, now: int, o: PollOrders)
    requires cfg.policy == ONE_JOB && worker in s.workers
    ensures PollAssignments(cfg, s, worker, max, now, o).0.jobs == Swept(s, max, now, o).jobs
  {
    hide AssignAll, SortClaims, ExpireLeases;
    var s2 := Swept(s, max, now, o);
    var (queue, claims) := PollClaims(cfg, s2, worker, max, now);
    var s3 := s2.(queue := queue);
    var sorted := SortClaims(cfg, s3, claims);
    AssignAllJobs(cfg, s3, worker, PollMax(max), sorted, |sorted|, now, o.choices);
  }

  // ---------- the pair is submitted ----------

  lemma PairStored(cfg: Config, s: State)
    requires SubmitAllowed(cfg, s, PAIR) && s.tasks == map[] && s.jobs == map[] && s.queue.items == []
    ensures var s' := AddJob(cfg, s, PAIR, 2);
      && s'.jobs == map["j" := Job("acme", "", Running)]
      && s'.tasks == map[LEASED := NewTask(PAIR, PAIR.tasks[0], 2), FAILING := NewTask(PAIR, PAIR.tasks[1], 2)]
      && s'.queue.items == [LEASED]
  {
    hide DecoratedInputs, SubmitAllowed;
    var none, dag := WithoutJob(s.tasks, "j"), PAIR.tasks;
    assert none == map[];
    var one := dag[..1];
    assert one == [dag[0]] && one[..0] == [] && dag[..|dag| - 1] == one;
    assert PutTasks(none, PAIR, one[..0], 2) == none;
    assert PutTasks(none, PAIR, one, 2) == none[LEASED := NewTask(PAIR, dag[0], 2)];
    assert PutTasks(none, PAIR, dag, 2) == none[LEASED := NewTask(PAIR, dag[0], 2)][FAILING := NewTask(PAIR, dag[1], 2)];
    assert SourceRefs("j", one[..0]) == [];
    assert SourceRefs("j", one) == [] + [LEASED];
    assert SourceRefs("j", dag) == [LEASED] + [];
  }

  // ---------- the first poll ----------

  lemma HasMember(refs: seq<TaskRef>)
    requires |refs| > 0
    ensures exists r :: r in refs
  {
    assert refs[0] in refs;
  }

  lemma NothingExpires(s: State, listing: seq<TaskRef>, now: int)
    requires forall r :: r in s.tasks ==> s.tasks[r].leaseId == ""
    ensures ExpireLeases(s, listing, now).tasks == s.tasks && ExpireLeases(s, listing, now).jobs == s.jobs
    ensures ExpireLeases(s, listing, now).queue == s.queue && ExpireLeases(s, listing, now).workers == s.workers
    ensures ExpireLeases(s, listing, now).clock == s.clock
  {
    if |Requeued(s.tasks, listing, now)| > 0 { HasMember(Requeued(s.tasks, listing, now)); }
    assert s.queue.items + [] == s.queue.items;
  }

  lemma OnlyWorker(cfg: Config, s: State, ref: TaskRef, now: int)
    requires ref in s.tasks && ref.jobId in s.jobs
    ensures BestWorker(cfg, s, ref, ["w"], now) in {"", "w"}
  {
    hide EligibleFor, ScoreFor, TaskKey;
    assert ["w"][1..] == [];
  }

  /** The worker polls for one task and is handed the one that is ready. */
  lemma HandedOver(cfg: Config, s: State, ref: TaskRef, now: int)
    requires cfg.policy == ONE_JOB && Runnable(s, ref, now) && "w" in s.workers && !AtCapacity(s.workers["w"])
    ensures TryAssign(cfg, s, "w", ref, now, Choice(false, ["w"], [])).0
         == HandOut(cfg, s, ref, "w", now)
  {
    hide BestWorker, AssignmentDecision, HandOut, AtCapacity;
    OnlyWorker(cfg, s, ref, now);
    NeverDenied(cfg, s, ref, s.workers["w"]);
  }

  lemma OneClaim(cfg: Config, s: State, ref: TaskRef, now: int)
    requires s.queue.items == [ref]
    ensures var claims := PollClaims(cfg, s, "w", 1, now).1; |claims| == 1 && claims[0].ref == ref
  {
    hide Q.Receipt;
    assert Q.ClaimCount(s.queue, PollMax(1) * 32) == 1;
  }

  lemma OneSorted(cfg: Config, s: State, claims: seq<Claim>)
    requires |claims| == 1
    ensures SortClaims(cfg, s, claims) == claims
  {
    hide ClaimBefore;
    assert claims[1..] == [] && claims == [claims[0]];
  }

  lemma FirstPoll(cfg: Config, s: State, o: PollOrders)
    requires cfg.policy == ONE_JOB && "w" in s.workers && !AtCapacity(s.workers["w"])
    requires s.queue.items == [LEASED] && s.queue.inflight == map[] && o.receipts == []
    requires forall r :: r in s.tasks ==> s.tasks[r].leaseId == ""
    requires Runnable(s, LEASED, 3) && o.choices == [Choice(false, ["w"], [])]
    ensures var s' := PollAssignments(cfg, s, "w", 1, 3, o).0;
      && s'.jobs == s.jobs && s'.tasks == s.tasks[LEASED := LeasedTask(cfg, s.tasks[LEASED], "b", "w", 3)]
      && s'.workers == s.workers && s'.clock == 3
  {
    hide LeasedTask, AssignmentOf, Runnable, AtCapacity, SortClaims, TryAssign, Settle, Requeued, AfterExpiry;
    var s1 := s.(clock := 3, queue := Q.RequeueExpired(s.queue, [], 3, PollMax(1) * 8));
    assert s1.queue == s.queue by { Idle(s.queue); }
    NothingExpires(s1, o.tasks, 3);
    var s2 := Swept(s, 1, 3, o);
    OneClaim(cfg, s2, LEASED, 3);
    var (queue, claims) := PollClaims(cfg, s2, "w", 1, 3);
    var s3 := s2.(queue := queue);
    OneSorted(cfg, s3, claims);
    StillRunnable(s, s3, LEASED, 3);
    HandedOver(cfg, s3, LEASED, 3);
    Single(cfg, s3, claims, o);
    SettledTasks(Assigning(cfg, s2, "w", 1, 3, o));
  }

  lemma SettledTasks(acc: Acc)
    ensures Settle(acc).tasks == acc.s.tasks && Settle(acc).jobs == acc.s.jobs
    ensures Settle(acc).workers == acc.s.workers && Settle(acc).clock == acc.s.clock
  {
  }

  lemma Idle(q: Q.QueueState)
    ensures Q.RequeueExpired(q, [], 3, PollMax(1) * 8) == q
  {
  }

  lemma StillRunnable(s: State, s': State, ref: TaskRef, now: int)
    requires Runnable(s, ref, now) && s'.jobs == s.jobs && s'.tasks == s.tasks
    ensures Runnable(s', ref, now)
  {
  }

  lemma Single(cfg: Config, s: State, claims: seq<Claim>, o: PollOrders)
    requires |claims| == 1 && claims[0].ref == LEASED && o.choices == [Choice(false, ["w"], [])]
    ensures AssignAll(cfg, s, "w", PollMax(1), claims, 1, 3, o.choices).s
         == TryAssign(cfg, s, "w", LEASED, 3, Choice(false, ["w"], [])).0
  {
    hide TryAssign;
    var start := AssignAll(cfg, s, "w", PollMax(1), claims, 0, 3, o.choices);
    assert start == Acc(s, [], [], [], []);
  }

  // ---------- stage by stage ----------

  /** The queue is in order, no claim is outstanding, the worker is registered, and the clock reads now. */
  ghost predicate Calm(s: State, now: int) {
    && NothingLost(s) && Valid(s.queue) && s.queue.inflight == map[]
    && "w" in s.workers && s.clock == now
  }

  lemma CalmStep(cfg: Config, s: State, a: Action, was: int, now: int)
    requires Calm(s, was) && Legal(s, a, now)
    requires "w" in Step(cfg, s, a, now).workers && Step(cfg, s, a, now).clock == now
    ensures Calm(Step(cfg, s, a, now), now)
  {
    hide Step, Legal, Valid, NothingLost;
    StepNoLoss(cfg, s, a, now);
    StepLeavesNoClaim(cfg, s, a, now);
  }

  const OPEN_JOB := map["j" := Job("acme", "", Running)]
  const FAILED_JOB := map["j" := Job("acme", "", Failed)]
  const TWO_JOBS := map["j" := Job("acme", "", Failed), "b" := Job("acme", "", Running)]

  /** The leased task of the pair: its lease lapses one lease duration after the first poll. */
  ghost predicate Leased(t: Task) {
    t.status == Assigned && t.leaseId != "" && t.leaseExpires == Some(DEFAULT_LEASE + 3) && t.timeoutSec == 0
  }

  ghost predicate Unleased(t: Task, status: Status, key: string) {
    t.status == status && t.leaseId == "" && t.lastReportKey == key && t.attempt == 0 && t.maxRetries == -1
  }

  lemma LeaseGiven(cfg: Config, t: Task)
    requires cfg.leaseNanos == DEFAULT_LEASE && t.timeoutSec == 0
    ensures Leased(LeasedTask(cfg, t, "b", "w", 3))
  {
    assert |NewLeaseId("w", "b", t.attempt + 1, 3)| > 0;
  }

  // The state after each call, as far as the next calls depend on it.

  ghost predicate After1(s: State) {
    Calm(s, 1) && s.jobs == map[] && s.tasks == map[] && s.queue.items == [] && !AtCapacity(s.workers["w"])
  }

  ghost predicate After2(s: State) {
    && Calm(s, 2) && s.jobs == OPEN_JOB && s.queue.items == [LEASED] && !AtCapacity(s.workers["w"])
    && s.tasks == map[LEASED := NewTask(PAIR, PAIR.tasks[0], 2), FAILING := NewTask(PAIR, PAIR.tasks[1], 2)]
  }

  ghost predicate After3(s: State) {
    && Calm(s, 3) && s.jobs == OPEN_JOB && s.tasks.Keys == {LEASED, FAILING}
    && Leased(s.tasks[LEASED]) && Unleased(s.tasks[FAILING], Queued, "")
  }

  ghost predicate After4(s: State) {
    && Calm(s, 4) && s.jobs == FAILED_JOB && s.tasks.Keys == {LEASED, FAILING}
    && Leased(s.tasks[LEASED]) && Unleased(s.tasks[FAILING], Failed, "k")
  }

  ghost predicate After5(s: State) {
    && Calm(s, 5) && s.jobs == TWO_JOBS && s.tasks.Keys == {LEASED, FAILING, OTHER}
    && Leased(s.tasks[LEASED]) && Unleased(s.tasks[FAILING], Failed, "k") && s.tasks[OTHER].leaseId == ""
  }

  ghost predicate After6(s: State) {
    && Calm(s, 6) && s.jobs == TWO_JOBS && s.tasks.Keys == {LEASED, FAILING, OTHER}
    && Leased(s.tasks[LEASED]) && Unleased(s.tasks[FAILING], Running, "k2") && s.tasks[OTHER].leaseId == ""
  }

  lemma Registered1(cfg: Config)
    ensures Legal(INIT, Register("w", NO_WORKER), 1) && After1(Step(cfg, INIT, Register("w", NO_WORKER), 1))
  {
    NothingToLose();
    QuietStays(INIT, Step(cfg, INIT, Register("w", NO_WORKER), 1));
  }

  lemma QuietStays(s: State, s': State)
    requires NothingLost(s) && s'.tasks == s.tasks && s'.queue == s.queue
    ensures NothingLost(s')
  {
  }

  lemma Submitted2(cfg: Config, s: State)
    requires cfg.policy == ONE_JOB && After1(s)
    ensures Legal(s, Submit(PAIR), 2) && After2(Step(cfg, s, Submit(PAIR), 2))
  {
    hide NewTask, PutTasks, SourceRefs, WithoutJob, CountJobs, NothingLost, Valid, AtCapacity;
    CountNone(s.jobs, "acme");
    assert SubmitAllowed(cfg, s, PAIR);
    PairStored(cfg, s);
    CalmStep(cfg, s, Submit(PAIR), 1, 2);
  }

  const FIRST_POLL := Poll("w", 1, PollOrders([], PAIR_LISTING, [Choice(false, ["w"], [])]))

  lemma Polled3(cfg: Config, s: State)
    requires cfg.policy == ONE_JOB && cfg.leaseNanos == DEFAULT_LEASE && After2(s)
    ensures Legal(s, FIRST_POLL, 3) && After3(Step(cfg, s, FIRST_POLL, 3))
  {
    hide DecoratedInputs, LeasedTask, NothingLost, Valid, AtCapacity, PollAssignments, Leased;
    assert Runnable(s, LEASED, 3);
    FirstPoll(cfg, s, FIRST_POLL.orders);
    LeaseGiven(cfg, s.tasks[LEASED]);
    CalmStep(cfg, s, FIRST_POLL, 2, 3);
  }

  lemma FailureReported(s: State)
    requires s.jobs == OPEN_JOB && s.tasks.Keys == {LEASED, FAILING} && Unleased(s.tasks[FAILING], Queued, "")
    ensures var s' := Report(s, FAILED_REPORT, PAIR_LISTING, 4);
      && s'.jobs == FAILED_JOB && s'.tasks.Keys == {LEASED, FAILING} && s'.tasks[LEASED] == s.tasks[LEASED]
      && Unleased(s'.tasks[FAILING], Failed, "k") && s'.workers == s.workers && s'.clock == 4
  {
    hide ReadyRefs, EqualFold, ContainsFold;
    var s' := Report(s, FAILED_REPORT, PAIR_LISTING, 4);
    assert s'.tasks == s.tasks[FAILING := ReportedTask(s.tasks[FAILING], FAILED_REPORT, 4)];
    assert s'.tasks[FAILING].status == Failed;
    assert AnyFailed(s'.tasks, "j");
  }

  lemma PairListed(s: State)
    requires s.tasks.Keys == {LEASED, FAILING}
    ensures Lists(PAIR_LISTING, s.tasks.Keys)
  {
  }

  lemma Reported4(cfg: Config, s: State)
    requires After3(s)
    ensures var a := Tell(FAILED_REPORT, PAIR_LISTING);
      Legal(s, a, 4) && After4(Step(cfg, s, a, 4)) && !Revives(s, a.req)
  {
    hide Report, NothingLost, Valid, Leased, Unleased, StatusOf, Lists;
    PairListed(s);
    FailureReported(s);
    CalmStep(cfg, s, Tell(FAILED_REPORT, PAIR_LISTING), 3, 4);
  }

  /** With its job failed, the tenant is admitted again. */
  lemma AdmittedAgain(cfg: Config, s: State)
    requires cfg.policy == ONE_JOB && s.jobs == FAILED_JOB && s.tasks.Keys == {LEASED, FAILING}
    ensures var s' := AddJob(cfg, s, OneTask("b", "acme"), 5);
      && s'.jobs == TWO_JOBS && s'.tasks.Keys == {LEASED, FAILING, OTHER} && s'.tasks[OTHER].leaseId == ""
      && s'.tasks[LEASED] == s.tasks[LEASED] && s'.tasks[FAILING] == s.tasks[FAILING]
      && s'.workers == s.workers && s'.clock == 5
  {
    hide DecoratedInputs, SourceRefs;
    var sub := OneTask("b", "acme");
    assert JobsOf(s.jobs, "acme", Running) == {};
    assert SubmitAllowed(cfg, s, sub);
    var others := WithoutJob(s.tasks, "b");
    assert others == s.tasks;
    assert sub.tasks[..0] == [];
    assert PutTasks(others, sub, [], 5) == others;
    assert PutTasks(others, sub, sub.tasks, 5) == others[OTHER := NewTask(sub, TASK, 5)];
  }

  lemma Submitted5(cfg: Config, s: State)
    requires cfg.policy == ONE_JOB && After4(s)
    ensures Legal(s, Submit(OneTask("b", "acme")), 5) && After5(Step(cfg, s, Submit(OneTask("b", "acme")), 5))
  {
    hide AddJob, NothingLost, Valid, Leased, Unleased;
    AdmittedAgain(cfg, s);
    CalmStep(cfg, s, Submit(OneTask("b", "acme")), 4, 5);
  }

  lemma AllListed(s: State)
    requires s.tasks.Keys == {LEASED, FAILING, OTHER}
    ensures Lists(LISTING, s.tasks.Keys)
  {
  }

  lemma RunningReported(s: State)
    requires s.jobs == TWO_JOBS && s.tasks.Keys == {LEASED, FAILING, OTHER} && Unleased(s.tasks[FAILING], Failed, "k")
    ensures var s' := Report(s, AGAIN_REPORT, LISTING, 6);
      && s'.jobs == TWO_JOBS && s'.tasks.Keys == {LEASED, FAILING, OTHER} && s'.tasks[LEASED] == s.tasks[LEASED]
      && s'.tasks[OTHER] == s.tasks[OTHER]
      && Unleased(s'.tasks[FAILING], Running, "k2") && s'.workers == s.workers && s'.clock == 6
  {
    assert |"k2"| != |"k"|;
    assert Judge(s.(clock := 6), AGAIN_REPORT).Accept?;
  }

  lemma Reported6(cfg: Config, s: State)
    requires After5(s)
    ensures var a := Tell(AGAIN_REPORT, LISTING);
      Legal(s, a, 6) && After6(Step(cfg, s, a, 6)) && !Revives(s, a.req)
  {
    hide Report, NothingLost, Valid, Leased, Unleased, Lists;
    AllListed(s);
    RunningReported(s);
    CalmStep(cfg, s, Tell(AGAIN_REPORT, LISTING), 5, 6);
  }

  /** The lapsed lease has the job reconciled, and nothing in it is failed any more. */
  lemma SweepRevives(s: State)
    requires s.jobs == TWO_JOBS && s.tasks.Keys == {LEASED, FAILING, OTHER}
    requires Leased(s.tasks[LEASED]) && Unleased(s.tasks[FAILING], Running, "k2") && s.tasks[OTHER].leaseId == ""
    ensures RunningSwept(s, LATER, Spelled("acme")) == {"j", "b"}
  {
    var tasks := AfterExpiry(s.tasks, LATER);
    assert Expired(s.tasks[LEASED], LATER) && tasks[LEASED].status == Queued;
    assert !Expired(s.tasks[FAILING], LATER) && tasks[FAILING].status == Running;
    assert Affected(s.tasks, "j", LATER) && !Affected(s.tasks, "b", LATER);
    assert StatusOf(tasks, "j") == Running;
  }

  lemma Polled7(cfg: Config, s: State, choices: seq<Choice>)
    requires cfg.policy == ONE_JOB && After6(s)
    ensures var a := Poll("w", 1, PollOrders([], LISTING, choices));
      && Legal(s, a, LATER) && |RunningFor(Step(cfg, s, a, LATER).jobs, Spelled("acme"))| == 2
      && Overruns(cfg, s, a, LATER, Spelled("acme"), 1)
  {
    hide NothingLost, Valid, PollAssignments, ExpireLeases, Lists, Leased, Unleased, RunningFor, RunningSwept, NoDenial;
    var o := PollOrders([], LISTING, choices);
    AllListed(s);
    NoReceipts(s.queue);
    PollJobs(cfg, s, "w", 1, LATER, o);
    SweepRevives(s);
    var s1 := s.(clock := LATER, queue := Q.RequeueExpired(s.queue, [], LATER, PollMax(1) * 8));
    SweptAlike(s, s1, LATER, Spelled("acme"));
    SweptRunning(s1, LISTING, LATER, Spelled("acme"));
    assert |{"j", "b"}| == 2;
  }

  lemma NoReceipts(q: Q.QueueState)
    requires q.inflight == map[]
    ensures Lists([], q.inflight.Keys)
  {
  }

  lemma Reached(cfg: Config, states: seq<State>, choices: seq<Choice>)
    requires cfg.leaseNanos == DEFAULT_LEASE && cfg.policy == ONE_JOB && states == Trace(cfg, INIT, Calls(choices))
    ensures |states| == 8 && After1(states[1]) && After2(states[2]) && After3(states[3])
    ensures After4(states[4]) && After5(states[5]) && After6(states[6])
    ensures forall i :: 0 <= i < 7 ==> states[i + 1] == Step(cfg, states[i], Calls(choices)[i].action, Calls(choices)[i].now)
  {
    hide Step, Legal, After1, After2, After3, After4, After5, After6, Revives, Trace;
    forall i | 0 <= i < 7 ensures states[i + 1] == Step(cfg, states[i], Calls(choices)[i].action, Calls(choices)[i].now) {
      TraceStep(cfg, INIT, Calls(choices), i);
    }
    Registered1(cfg);
    Submitted2(cfg, states[1]);
    Polled3(cfg, states[2]);
    Reported4(cfg, states[3]);
    Submitted5(cfg, states[4]);
    Reported6(cfg, states[5]);
  }

  /** A run that ends with two jobs running under a quota of one, though no report of it revives a job. */
  lemma ExpiryExceedsQuota(cfg: Config, choices: seq<Choice>)
    requires cfg.leaseNanos == DEFAULT_LEASE && cfg.policy == ONE_JOB
    ensures var calls := Calls(choices);
      var states := Trace(cfg, INIT, calls);
      && Run(cfg, states, calls) && NoReviving(states, calls, 7)
      && HasQuota(cfg.policy, "acme", 1)
      && |RunningFor(states[7].jobs, Spelled("acme"))| == 2 && OverrunsAt(cfg, states, calls, 6, Spelled("acme"), 1)
  {
    hide Overruns, Step, Legal, After1, After2, After3, After4, After5, After6, Revives, RunningFor, Trace;
    var calls := Calls(choices);
    var states := Trace(cfg, INIT, calls);
    Reached(cfg, states, choices);
    Registered1(cfg);
    Submitted2(cfg, states[1]);
    Polled3(cfg, states[2]);
    Reported4(cfg, states[3]);
    Submitted5(cfg, states[4]);
    Reported6(cfg, states[5]);
    Polled7(cfg, states[6], choices);
    assert Follows(cfg, states, calls, 0) && Follows(cfg, states, calls, 1) && Follows(cfg, states, calls, 2);
    assert Follows(cfg, states, calls, 3) && Follows(cfg, states, calls, 4) && Follows(cfg, states, calls, 5);
    assert Follows(cfg, states, calls, 6);
    OtherSpelling();
  }
}
