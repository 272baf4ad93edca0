/** Over a run: a worker that sends its heartbeats in time keeps its lease until the attempt's deadline. */
module LeaseRuns {
  import opened Text
  import opened Records
  import opened Leases
  import opened Scheduler
  import opened Invariants
  import opened PollPreservation
  import opened PollConsistency
  import opened Settlement
  import opened LeaseLaws
  import opened Runs
  import QueueLaws

  /** When a lease given or renewed at `from` runs out: one lease duration later, or at the end of the attempt. */
  ghost function RunsTo(cfg: Config, t: Task, from: int): int {
    var deadline := (if LeaseStart(t.leaseId).Some? then LeaseStart(t.leaseId).value else from) + t.timeoutSec * 1_000_000_000;
    if t.timeoutSec > 0 && deadline < from + cfg.leaseNanos then deadline else from + cfg.leaseNanos
  }

  /** Worker w holds task r under the lease, which runs at least as long as if it was last renewed at `from`. */
  ghost predicate Held(cfg: Config, s: State, r: TaskRef, w: string, held: Task, from: int) {
    && r in s.tasks && w in s.workers
    && s.tasks[r].status == Assigned && s.tasks[r].worker == w && s.tasks[r].leaseId == held.leaseId
    && s.tasks[r].timeoutSec == held.timeoutSec && s.tasks[r].attempt == held.attempt
    && s.tasks[r].leaseExpires.Some? && s.tasks[r].leaseExpires.value >= RunsTo(cfg, s.tasks[r], from)
  }

  /** The lease is still running at `now`, reckoned from when it was last renewed. */
  ghost predicate InTime(cfg: Config, t: Task, from: int, now: int) { now < RunsTo(cfg, t, from) }

  ghost predicate PreemptedSince(s: State, s': State, r: TaskRef) {
    exists i :: |s.log| <= i < |s'.log| && s'.log[i] == Preempted(r)
  }

  /** The call neither accepts a report on the task nor submits its job anew, and preempts the task in no poll. */
  ghost predicate Undisturbed(cfg: Config, s: State, a: Action, now: int, r: TaskRef) {
    && !(a.Tell? && a.req.ref == r && Judge(s, a.req).Accept?)
    && !(a.Submit? && a.sub.jobId == r.jobId && SubmitAllowed(cfg, s, a.sub))
    && !PreemptedSince(s, Step(cfg, s, a, now), r)
  }

  // ---------- polls ----------

  /** The log has grown, and the task is as before unless it was preempted. */
  ghost predicate OrPreempted(s: State, s': State, r: TaskRef)
    requires r in s.tasks
  {
    && |s.log| <= |s'.log| && s'.log[..|s.log|] == s.log && s'.workers == s.workers
    && (PreemptedSince(s, s', r) || (r in s'.tasks && s'.tasks[r] == s.tasks[r]))
  }

  lemma CarryOutHolds(cfg: Config, s: State, worker: string, ref: TaskRef, now: int, sc: Screening, r: TaskRef)
    requires ScreeningOk(s, worker, ref, now, sc) && r in s.tasks && s.tasks[r].status == Assigned
    ensures OrPreempted(s, CarryOut(cfg, s, worker, ref, now, sc).0, r)
  {
    hide AssignmentDecision, AssignmentOf, LeasedTask, DepsDone, TaskRank;
    if sc.GoAhead? && sc.victim == Some(r) {
      assert CarryOut(cfg, s, worker, ref, now, sc).0.log[|s.log|] == Preempted(r);
    }
  }

  lemma OrPreemptedThen(a: State, b: State, c: State, r: TaskRef)
    requires r in a.tasks && OrPreempted(a, b, r) && |b.log| <= |c.log| && c.log[..|b.log|] == b.log && c.workers == b.workers
    requires r in b.tasks && b.tasks[r] == a.tasks[r] ==> OrPreempted(b, c, r)
    ensures OrPreempted(a, c, r)
  {
    assert c.log[..|a.log|] == c.log[..|b.log|][..|a.log|];
    if i :| |a.log| <= i < |b.log| && b.log[i] == Preempted(r) {
      assert c.log[i] == c.log[..|b.log|][i];
    }
  }

  lemma CarryOutLogs(cfg: Config, s: State, worker: string, ref: TaskRef, now: int, sc: Screening)
    requires ScreeningOk(s, worker, ref, now, sc)
    ensures var s' := CarryOut(cfg, s, worker, ref, now, sc).0;
      |s.log| <= |s'.log| && s'.log[..|s.log|] == s.log && s'.workers == s.workers
  {
    hide AssignmentDecision, AssignmentOf, LeasedTask, DepsDone, TaskRank;
  }

  lemma {:induction false} AssignAllHolds(cfg: Config, s: State, worker: string, max: int, claims: seq<Claim>, n: nat,
                                          now: int, choices: seq<Choice>, r: TaskRef)
    requires n <= |claims| && r in s.tasks && s.tasks[r].status == Assigned
    ensures OrPreempted(s, AssignAll(cfg, s, worker, max, claims, n, now, choices).s, r)
  {
    hide Screen, CarryOut;
    if n > 0 {
      var acc := AssignAll(cfg, s, worker, max, claims, n - 1, now, choices);
      AssignAllHolds(cfg, s, worker, max, claims, n - 1, now, choices, r);
      var ref := claims[n - 1].ref;
      var sc := Screen(cfg, acc.s, worker, ref, now, ChoiceAt(choices, n - 1));
      CarryOutLogs(cfg, acc.s, worker, ref, now, sc);
      if r in acc.s.tasks && acc.s.tasks[r] == s.tasks[r] {
        CarryOutHolds(cfg, acc.s, worker, ref, now, sc, r);
      }
      OrPreemptedThen(s, acc.s, CarryOut(cfg, acc.s, worker, ref, now, sc).0, r);
    }
  }

  lemma SweptHolds(s: State, max: int, now: int, o: PollOrders, r: TaskRef)
    requires r in s.tasks && s.tasks[r].leaseExpires.Some? && now <= s.tasks[r].leaseExpires.value
    ensures var s' := Swept(s, max, now, o);
      OrPreempted(s, s', r) && r in s'.tasks && s'.tasks[r] == s.tasks[r]
  {
    hide ExpiredTask, Requeued, Reconciled, Affected;
  }

  lemma PollHolds(cfg: Config, s: State, worker: string, max: int, now: int, o: PollOrders, r: TaskRef)
    requires r in s.tasks && s.tasks[r].status == Assigned
    requires s.tasks[r].leaseExpires.Some? && now <= s.tasks[r].leaseExpires.value
    ensures OrPreempted(s, PollAssignments(cfg, s, worker, max, now, o).0, r)
  {
    hide AssignAll, SortClaims, Swept, PreemptedSince;
    if worker in s.workers {
      var s2 := Swept(s, max, now, o);
      SweptHolds(s, max, now, o, r);
      var (queue, claims) := PollClaims(cfg, s2, worker, max, now);
      var s3 := s2.(queue := queue);
      var sorted := SortClaims(cfg, s3, claims);
      Elsewhere(s, s2, s3, r);
      AssignAllHolds(cfg, s3, worker, PollMax(max), sorted, |sorted|, now, o.choices, r);
      var s4 := Assigning(cfg, s2, worker, max, now, o).s;
      OrPreemptedThen(s, s3, s4, r);
      Elsewhere(s, s4, Settle(Assigning(cfg, s2, worker, max, now, o)), r);
    }
  }

  lemma Elsewhere(s: State, a: State, b: State, r: TaskRef)
    requires r in s.tasks && OrPreempted(s, a, r) && b.tasks == a.tasks && b.log == a.log && b.workers == a.workers
    ensures OrPreempted(s, b, r)
  {
  }

  // ---------- one call ----------

  lemma StaysHeld(cfg: Config, s: State, s': State, r: TaskRef, w: string, held: Task, from: int)
    requires Held(cfg, s, r, w, held, from) && r in s'.tasks && s'.tasks[r] == s.tasks[r] && w in s'.workers
    ensures Held(cfg, s', r, w, held, from)
  {
  }

  lemma BeatHolds(cfg: Config, s: State, v: string, b: Beat, now: int, r: TaskRef, w: string, held: Task, from: int)
    requires Inv(cfg, s, ANY) && s.clock <= now <= INT64_MAX
    requires Held(cfg, s, r, w, held, from) && InTime(cfg, s.tasks[r], from, now)
    ensures Held(cfg, Heartbeat(cfg, s, v, b, now), r, w, held, if v == w then now else from)
  {
    hide Inv, LeaseStart, RunsTo;
    var s' := Heartbeat(cfg, s, v, b, now);
    if v == w {
      HeartbeatRenews(cfg, s, w, b, now, r);
      Renewed(cfg, s.tasks[r], s'.tasks[r], now);
    } else {
      LeaseNonEmpty(cfg, s, r);
      HeartbeatOnlyExtends(cfg, s, v, b, now, r);
      SameRuns(cfg, s.tasks[r], s'.tasks[r], from);
      BeatKeeps(cfg, s, v, b, now, r);
    }
  }

  lemma BeatKeeps(cfg: Config, s: State, v: string, b: Beat, now: int, r: TaskRef)
    requires r in s.tasks
    ensures var s' := Heartbeat(cfg, s, v, b, now);
      && r in s'.tasks && s'.tasks[r].status == s.tasks[r].status && s'.tasks[r].worker == s.tasks[r].worker
      && s'.tasks[r].timeoutSec == s.tasks[r].timeoutSec && s'.tasks[r].attempt == s.tasks[r].attempt
      && s'.tasks[r].leaseId == s.tasks[r].leaseId
      && s.workers.Keys <= s'.workers.Keys
  {
    hide LeaseExpiry, Extendable;
  }

  lemma LeaseNonEmpty(cfg: Config, s: State, r: TaskRef)
    requires Inv(cfg, s, ANY) && r in s.tasks && s.tasks[r].status == Assigned
    ensures s.tasks[r].leaseId != ""
  {
    hide AttemptsOk, KeysOk, Sane, HandoutsOk, StatusesOk, LeaseStart, NewLeaseId;
    assert LeaseOk(cfg, s.clock, r, s.tasks[r]);
  }

  lemma Renewed(cfg: Config, t: Task, t': Task, now: int)
    requires LeaseStart(t.leaseId).Some? && t' == t.(leaseExpires := t'.leaseExpires, updatedAt := now)
    requires var deadline := LeaseStart(t.leaseId).value + t.timeoutSec * 1_000_000_000;
      t'.leaseExpires == Some(if t.timeoutSec > 0 && deadline < now + cfg.leaseNanos then deadline else now + cfg.leaseNanos)
    ensures t'.leaseExpires == Some(RunsTo(cfg, t', now))
  {
    hide LeaseStart;
  }

  lemma SameRuns(cfg: Config, t: Task, t': Task, from: int)
    requires t'.leaseId == t.leaseId && t'.timeoutSec == t.timeoutSec
    ensures RunsTo(cfg, t', from) == RunsTo(cfg, t, from)
  {
    hide LeaseStart;
  }

  lemma ReportHolds(s: State, req: ReportReq, listing: seq<TaskRef>, now: int, r: TaskRef)
    requires r in s.tasks && !(req.ref == r && Judge(s, req).Accept?)
    ensures var s' := Report(s, req, listing, now);
      r in s'.tasks && s'.tasks[r] == s.tasks[r] && s.workers.Keys <= s'.workers.Keys
  {
    hide StatusOf, ReadyRefs, ReportedTask, EqualFold, ContainsFold, Trim;
    assert Judge(s.(clock := now), req) == Judge(s, req);
  }

  /** One call leaves the lease held, renewed if it is a heartbeat of the worker. */
  lemma HeldStep(cfg: Config, s: State, a: Action, now: int, r: TaskRef, w: string, held: Task, from: int)
    requires Inv(cfg, s, ANY) && Legal(s, a, now) && Undisturbed(cfg, s, a, now, r)
    requires Held(cfg, s, r, w, held, from) && InTime(cfg, s.tasks[r], from, now)
    ensures Held(cfg, Step(cfg, s, a, now), r, w, held, if a.Pulse? && a.from == w then now else from)
  {
    hide Inv, RunsTo, PollAssignments, Report, AddJob, Heartbeat, Lists, PreemptedSince, SubmitAllowed, Registered;
    var s' := Step(cfg, s, a, now);
    match a
    case Submit(sub) => SubmitHolds(cfg, s, sub, now, r); StaysHeld(cfg, s, s', r, w, held, from);
    case Poll(v, max, o) => PollHolds(cfg, s, v, max, now, o, r); StaysHeld(cfg, s, s', r, w, held, from);
    case Tell(req, listing) => ReportHolds(s, req, listing, now, r); StaysHeld(cfg, s, s', r, w, held, from);
    case Pulse(v, b) => BeatHolds(cfg, s, v, b, now, r, w, held, from);
    case Cancel(j) => CancelHolds(s, j, now, r); StaysHeld(cfg, s, s', r, w, held, from);
    case Archive(j) => StaysHeld(cfg, s, s', r, w, held, from);
    case Register(id, v) => StaysHeld(cfg, s, s', r, w, held, from);
    case Revive(refs) => StaysHeld(cfg, s, s', r, w, held, from);
  }

  lemma SubmitHolds(cfg: Config, s: State, sub: Submission, now: int, r: TaskRef)
    requires r in s.tasks && !(sub.jobId == r.jobId && SubmitAllowed(cfg, s, sub))
    ensures var s' := AddJob(cfg, s, sub, now); r in s'.tasks && s'.tasks[r] == s.tasks[r] && s'.workers == s.workers
  {
    hide PutTasks, SourceRefs, SubmitDecision;
    if SubmitAllowed(cfg, s, sub) { OtherTasksKept(cfg, s, sub, now); }
  }

  lemma CancelHolds(s: State, j: string, now: int, r: TaskRef)
    requires r in s.tasks && s.tasks[r].status == Assigned
    ensures var s' := CancelJob(s, j, now); r in s'.tasks && s'.tasks[r] == s.tasks[r] && s'.workers == s.workers
  {
  }

  // ---------- a lease newly given ----------

  ghost predicate Fresh(cfg: Config, s: State, r: TaskRef, now: int) {
    r in s.tasks && s.tasks[r].leaseExpires == Some(RunsTo(cfg, s.tasks[r], now))
  }

  lemma GrantFresh(cfg: Config, s: State, worker: string, ref: TaskRef, now: int)
    requires ref in s.tasks && ref.jobId in s.jobs && worker in s.workers && 0 < now <= INT64_MAX
    ensures Grant(cfg, s, worker, ref, now).1.Given? ==> Fresh(cfg, Grant(cfg, s, worker, ref, now).0, ref, now)
  {
    hide LeaseStart, NewLeaseId, AssignmentDecision, AssignmentOf;
    LeaseStartRoundTrip(worker, ref.taskId, s.tasks[ref].attempt + 1, now);
  }

  lemma TryFresh(cfg: Config, s: State, worker: string, ref: TaskRef, now: int, c: Choice)
    requires 0 < now <= INT64_MAX
    ensures TryAssign(cfg, s, worker, ref, now, c).1.Given? ==> Fresh(cfg, TryAssign(cfg, s, worker, ref, now, c).0, ref, now)
  {
    hide Grant, Fresh, BestWorker, Victim, DepsDone, TaskRank;
    match Screen(cfg, s, worker, ref, now, c)
    case Refuse(_) =>
    case GoAhead(None) => GrantFresh(cfg, s, worker, ref, now);
    case GoAhead(Some(v)) => GrantFresh(cfg, Preempt(s, v, now), worker, ref, now);
  }

  lemma FreshStays(cfg: Config, s0: State, acc: Acc, worker: string, claims: seq<Claim>, n: nat, now: int, c: Choice, i: nat)
    requires Frame(s0, acc.s) && n < |claims| && i < |acc.given| && Kept(s0, acc, worker, claims, n, i)
    requires Fresh(cfg, acc.s, acc.given[i].ref, now)
    ensures Fresh(cfg, TryAssign(cfg, acc.s, worker, claims[n].ref, now, c).0, acc.given[i].ref, now)
  {
    hide RunsTo, TryAssign, TaskRank;
    var other, ref := acc.given[i].ref, claims[n].ref;
    FrameRank(s0, acc.s, other);
    FrameRank(s0, acc.s, ref);
    assert ClaimRank(s0, other) >= ClaimRank(s0, ref);
    TryAssignSpares(cfg, acc.s, worker, ref, now, c, other);
  }

  lemma {:induction false} AssignAllFresh(cfg: Config, s: State, worker: string, max: int, claims: seq<Claim>, n: nat,
                                          now: int, choices: seq<Choice>)
    requires n <= |claims| && max >= 1 && ByRank(s, claims) && 0 < now <= INT64_MAX
    ensures var acc := AssignAll(cfg, s, worker, max, claims, n, now, choices);
      forall i :: 0 <= i < |acc.given| ==> Fresh(cfg, acc.s, acc.given[i].ref, now)
  {
    hide TryAssign, Screen, Fresh, ByRank, Kept, Frame;
    if n > 0 {
      var acc := AssignAll(cfg, s, worker, max, claims, n - 1, now, choices);
      var ref, c := claims[n - 1].ref, ChoiceAt(choices, n - 1);
      AssignAllFresh(cfg, s, worker, max, claims, n - 1, now, choices);
      AssignAllOk(cfg, s, worker, max, claims, n - 1, now, choices);
      TryAssignFrame(cfg, acc.s, worker, ref, now, c);
      TryFresh(cfg, acc.s, worker, ref, now, c);
      forall i | 0 <= i < |acc.given| ensures Fresh(cfg, TryAssign(cfg, acc.s, worker, ref, now, c).0, acc.given[i].ref, now) {
        FreshStays(cfg, s, acc, worker, claims, n - 1, now, c, i);
      }
    }
  }

  /** A poll leaves each task it returns held by the worker under a lease that runs from now. */
  lemma GivenHeld(cfg: Config, s: State, worker: string, max: int, now: int, o: PollOrders, i: nat)
    requires QueueLaws.Valid(s.queue) && worker in s.workers && 0 < now <= INT64_MAX
    requires var result := PollAssignments(cfg, s, worker, max, now, o).1; result.Polled? && i < |result.assignments|
    ensures var (s', result) := PollAssignments(cfg, s, worker, max, now, o);
      var r := result.assignments[i].ref;
      && r in s'.tasks && Held(cfg, s', r, worker, s'.tasks[r], now)
      && s'.tasks[r].leaseExpires == Some(RunsTo(cfg, s'.tasks[r], now))
  {
    hide AssignAll, SortClaims, RunsTo, Swept;
    PollIsConsistent(cfg, s, worker, max, now, o);
    var s2 := Swept(s, max, now, o);
    var (queue, claims) := PollClaims(cfg, s2, worker, max, now);
    var s3 := s2.(queue := queue);
    var sorted := SortClaims(cfg, s3, claims);
    SortedByRank(cfg, s3, claims);
    AssignAllFresh(cfg, s3, worker, PollMax(max), sorted, |sorted|, now, o.choices);
    var acc := Assigning(cfg, s2, worker, max, now, o);
    assert acc == AssignAll(cfg, s3, worker, PollMax(max), sorted, |sorted|, now, o.choices);
    assert i < |acc.given| && Fresh(cfg, acc.s, acc.given[i].ref, now);
    SettledAlike(cfg, acc, acc.given[i].ref, now);
    WorkersStay(cfg, s, worker, max, now, o);
  }

  lemma SettledAlike(cfg: Config, acc: Acc, r: TaskRef, now: int)
    requires Fresh(cfg, acc.s, r, now)
    ensures Fresh(cfg, Settle(acc), r, now)
  {
  }

  lemma WorkersStay(cfg: Config, s: State, worker: string, max: int, now: int, o: PollOrders)
    ensures PollAssignments(cfg, s, worker, max, now, o).0.workers == s.workers
  {
    hide AssignAll, SortClaims;
    if worker in s.workers {
      var s2 := Swept(s, max, now, o);
      var (queue, claims) := PollClaims(cfg, s2, worker, max, now);
      var s3 := s2.(queue := queue);
      var sorted := SortClaims(cfg, s3, claims);
      SortedByRank(cfg, s3, claims);
      AssignAllOk(cfg, s3, worker, PollMax(max), sorted, |sorted|, now, o.choices);
    }
  }

  // ---------- over a run ----------

  /** When the lease was last renewed before call k: at the last heartbeat of w since call m, or at `from` if there was none. */
  function LastBeat(calls: seq<Call>, m: nat, k: nat, w: string, from: int): int
    requires m <= k <= |calls|
    decreases k
  {
    if k == m then from
    else if calls[k - 1].action.Pulse? && calls[k - 1].action.from == w then calls[k - 1].now
    else LastBeat(calls, m, k - 1, w, from)
  }

  /** Call k comes less than a lease after the last heartbeat, before the attempt's deadline, and disturbs nothing. */
  ghost predicate OnTime(cfg: Config, states: seq<State>, calls: seq<Call>, m: nat, k: nat, r: TaskRef, w: string, from: int)
    requires m <= k < |calls| && |states| == |calls| + 1 && r in states[m].tasks
  {
    && Undisturbed(cfg, states[k], calls[k].action, calls[k].now, r)
    && calls[k].now < LastBeat(calls, m, k, w, from) + cfg.leaseNanos
    && var t := states[m].tasks[r];
       t.timeoutSec > 0 && LeaseStart(t.leaseId).Some? ==>
         calls[k].now < LeaseStart(t.leaseId).value + t.timeoutSec * 1_000_000_000
  }

  ghost predicate AllOnTime(cfg: Config, states: seq<State>, calls: seq<Call>, m: nat, n: nat, r: TaskRef, w: string, from: int)
    requires m <= n <= |calls| && |states| == |calls| + 1 && r in states[m].tasks
  {
    forall k :: m <= k < n ==> OnTime(cfg, states, calls, m, k, r, w, from)
  }

  lemma StillInTime(cfg: Config, s: State, r: TaskRef, w: string, held: Task, from: int, now: int)
    requires Held(cfg, s, r, w, held, from) && LeaseStart(held.leaseId).Some? && now < from + cfg.leaseNanos
    requires held.timeoutSec > 0 ==> now < LeaseStart(held.leaseId).value + held.timeoutSec * 1_000_000_000
    ensures InTime(cfg, s.tasks[r], from, now)
  {
    hide LeaseStart;
  }

  /** While a worker's heartbeats come less than a lease apart, and no call comes later than that or past the attempt's
      deadline, the worker keeps the task under the same lease: no poll takes it back for a lapsed lease.  Only an accepted
      report on the task, a new submission of its job, or preemption can end the lease. */
  lemma {:induction false} HeartbeatsKeepLease(cfg: Config, states: seq<State>, calls: seq<Call>, m: nat, n: nat, r: TaskRef,
                                               w: string, from: int)
    requires Run(cfg, states, calls) && m <= n <= |calls| && r in states[m].tasks
    requires Held(cfg, states[m], r, w, states[m].tasks[r], from)
    requires AllOnTime(cfg, states, calls, m, n, r, w, from)
    ensures Held(cfg, states[n], r, w, states[m].tasks[r], LastBeat(calls, m, n, w, from))
  {
    hide Step, Legal, Held, Undisturbed, LeaseStart, Inv;
    if m < n {
      HeartbeatsKeepLease(cfg, states, calls, m, n - 1, r, w, from);
      assert OnTime(cfg, states, calls, m, n - 1, r, w, from);
      HeldAgain(cfg, states, calls, m, n - 1, r, w, from);
    }
  }

  lemma HeldAgain(cfg: Config, states: seq<State>, calls: seq<Call>, m: nat, k: nat, r: TaskRef, w: string, from: int)
    requires Run(cfg, states, calls) && m <= k < |calls| && r in states[m].tasks
    requires OnTime(cfg, states, calls, m, k, r, w, from)
    requires Held(cfg, states[k], r, w, states[m].tasks[r], LastBeat(calls, m, k, w, from))
    ensures Held(cfg, states[k + 1], r, w, states[m].tasks[r], LastBeat(calls, m, k + 1, w, from))
  {
    hide Step, Legal, Undisturbed, LeaseStart, Inv, RunsTo;
    AnyMode(states, calls);
    RunInv(cfg, states, calls, ANY, k);
    assert Follows(cfg, states, calls, k);
    var beat, t := LastBeat(calls, m, k, w, from), states[m].tasks[r];
    StartKnown(cfg, states[k], r);
    StillInTime(cfg, states[k], r, w, t, beat, calls[k].now);
    HeldStep(cfg, states[k], calls[k].action, calls[k].now, r, w, t, beat);
  }

  lemma StartKnown(cfg: Config, s: State, r: TaskRef)
    requires Inv(cfg, s, ANY) && r in s.tasks && s.tasks[r].status == Assigned
    ensures LeaseStart(s.tasks[r].leaseId).Some?
  {
    hide AttemptsOk, KeysOk, Sane, HandoutsOk, StatusesOk, LeaseStart, NewLeaseId;
    assert LeaseOk(cfg, s.clock, r, s.tasks[r]);
  }
}
