/** Deadlines and fencing: what heartbeats and polls do to leases, and which reports are turned away. */
module LeaseLaws {
  import opened Text
  import opened Records
  import opened Leases
  import opened Scheduler
  import opened Invariants
  import opened Preservation
  import opened PollPreservation
  import Q = QueueModel

  // ---------- heartbeats ----------

  /** A heartbeat never moves a lease's expiry backwards, and never past the attempt's deadline. */
  lemma HeartbeatOnlyExtends(cfg: Config, s: State, worker: string, b: Beat, now: int, r: TaskRef)
    requires Inv(cfg, s, Mode(false, false)) && s.clock <= now <= INT64_MAX
    requires r in s.tasks && s.tasks[r].leaseId != ""
    ensures var t, t' := s.tasks[r], Heartbeat(cfg, s, worker, b, now).tasks[r];
      && t'.leaseId == t.leaseId && LeaseStart(t.leaseId).Some?
      && t.leaseExpires.Some? && t'.leaseExpires.Some?
      && t.leaseExpires.value <= t'.leaseExpires.value
      && (t.timeoutSec > 0 ==> t'.leaseExpires.value <= LeaseStart(t.leaseId).value + t.timeoutSec * SECOND)
  {
    hide AttemptsOk, KeysOk, Sane, HandoutsOk, StatusesOk, LeaseStart, NewLeaseId;
    assert LeaseOk(cfg, s.clock, r, s.tasks[r]);
    HeartbeatInv(cfg, s, worker, b, now, Mode(false, false));
    assert LeaseOk(cfg, now, r, Heartbeat(cfg, s, worker, b, now).tasks[r]);
  }

  /** A heartbeat renews each lease of its worker that has not lapsed, for one lease duration from now, or up to the end of the
      attempt if that comes first; nothing else about the task changes but the time it was updated. */
  lemma HeartbeatRenews(cfg: Config, s: State, worker: string, b: Beat, now: int, r: TaskRef)
    requires Inv(cfg, s, Mode(false, false)) && s.clock <= now <= INT64_MAX && worker in s.workers
    requires r in s.tasks && s.tasks[r].status == Assigned && s.tasks[r].worker == worker
    requires s.tasks[r].leaseExpires.Some? && s.tasks[r].leaseExpires.value > now
    ensures LeaseStart(s.tasks[r].leaseId).Some?
    ensures var t, t' := s.tasks[r], Heartbeat(cfg, s, worker, b, now).tasks[r];
      var deadline := LeaseStart(t.leaseId).value + t.timeoutSec * 1_000_000_000;
      && t'.leaseExpires == Some(if t.timeoutSec > 0 && deadline < now + cfg.leaseNanos then deadline else now + cfg.leaseNanos)
      && t' == t.(leaseExpires := t'.leaseExpires, updatedAt := now)
  {
    hide AttemptsOk, KeysOk, Sane, HandoutsOk, StatusesOk, LeaseStart, NewLeaseId;
    assert LeaseOk(cfg, s.clock, r, s.tasks[r]);
  }

  /** It leaves alone every task of another worker and every task without a live lease. */
  lemma HeartbeatSpares(cfg: Config, s: State, worker: string, b: Beat, now: int, r: TaskRef)
    requires worker != "" && r in s.tasks
    requires s.tasks[r].worker != worker || s.tasks[r].leaseId == "" || s.tasks[r].status !in {Running, Assigned}
      || (s.tasks[r].leaseExpires.Some? && s.tasks[r].leaseExpires.value <= now)
    ensures Heartbeat(cfg, s, worker, b, now).tasks[r] == s.tasks[r]
  {
  }

  // ---------- polls ----------

  /** Every lease held runs at least to `now`. */
  ghost predicate NoneLapsed(tasks: map<TaskRef, Task>, now: int) {
    forall r :: r in tasks && tasks[r].leaseId != "" ==> tasks[r].leaseExpires.Some? && tasks[r].leaseExpires.value >= now
  }

  lemma GrantNoneLapsed(cfg: Config, s: State, worker: string, ref: TaskRef, now: int)
    requires NoneLapsed(s.tasks, now) && cfg.leaseNanos > 0 && 0 < now <= INT64_MAX
    requires ref in s.tasks && ref.jobId in s.jobs && worker in s.workers
    ensures NoneLapsed(Grant(cfg, s, worker, ref, now).0.tasks, now)
  {
    LeaseStartRoundTrip(worker, ref.taskId, s.tasks[ref].attempt + 1, now);
  }

  lemma CarryOutNoneLapsed(cfg: Config, s: State, worker: string, ref: TaskRef, now: int, sc: Screening)
    requires NoneLapsed(s.tasks, now) && cfg.leaseNanos > 0 && 0 < now <= INT64_MAX && ScreeningOk(s, worker, ref, now, sc)
    ensures NoneLapsed(CarryOut(cfg, s, worker, ref, now, sc).0.tasks, now)
  {
    match sc
    case Refuse(_) =>
    case GoAhead(None) => GrantNoneLapsed(cfg, s, worker, ref, now);
    case GoAhead(Some(v)) => GrantNoneLapsed(cfg, Preempt(s, v, now), worker, ref, now);
  }

  lemma AssignOneNoneLapsed(cfg: Config, acc: Acc, worker: string, max: int, claim: Claim, now: int, c: Choice)
    requires NoneLapsed(acc.s.tasks, now) && cfg.leaseNanos > 0 && 0 < now <= INT64_MAX
    ensures NoneLapsed(AssignOne(cfg, acc, worker, max, claim, now, c).s.tasks, now)
  {
    CarryOutNoneLapsed(cfg, acc.s, worker, claim.ref, now, Screen(cfg, acc.s, worker, claim.ref, now, c));
  }

  lemma {:induction false} AssignAllNoneLapsed(cfg: Config, s: State, worker: string, max: int, claims: seq<Claim>, n: nat,
                                               now: int, choices: seq<Choice>)
    requires NoneLapsed(s.tasks, now) && cfg.leaseNanos > 0 && 0 < now <= INT64_MAX && n <= |claims|
    ensures NoneLapsed(AssignAll(cfg, s, worker, max, claims, n, now, choices).s.tasks, now)
  {
    if n > 0 {
      AssignAllNoneLapsed(cfg, s, worker, max, claims, n - 1, now, choices);
      AssignOneNoneLapsed(cfg, AssignAll(cfg, s, worker, max, claims, n - 1, now, choices), worker, max, claims[n - 1], now,
                          ChoiceAt(choices, n - 1));
    }
  }

  lemma ExpireNoneLapsed(cfg: Config, s: State, listing: seq<TaskRef>, now: int)
    requires Inv(cfg, s, Mode(false, false))
    ensures NoneLapsed(ExpireLeases(s, listing, now).tasks, now)
  {
    forall r | r in s.tasks && AfterExpiry(s.tasks, now)[r].leaseId != ""
      ensures s.tasks[r].leaseExpires.Some? && s.tasks[r].leaseExpires.value >= now && !Expired(s.tasks[r], now)
    {
      assert LeaseOk(cfg, s.clock, r, s.tasks[r]);
    }
  }

  /** After a poll at `now`, no lease has lapsed, and none has outlived the deadline of its attempt. */
  lemma PollClearsDeadlines(cfg: Config, s: State, worker: string, max: int, now: int, o: PollOrders, r: TaskRef)
    requires Inv(cfg, s, Mode(false, false)) && s.clock <= now && 0 < now <= INT64_MAX && Lists(o.tasks, s.tasks.Keys)
    requires worker in s.workers
    requires r in PollAssignments(cfg, s, worker, max, now, o).0.tasks
    ensures var t := PollAssignments(cfg, s, worker, max, now, o).0.tasks[r];
      t.leaseId != "" ==>
        && t.leaseExpires.Some? && t.leaseExpires.value >= now
        && (t.timeoutSec > 0 ==> AttemptDeadline(t, now).Some? && AttemptDeadline(t, now).value >= now)
  {
    var s1 := s.(clock := now, queue := Q.RequeueExpired(s.queue, o.receipts, now, PollMax(max) * 8));
    ClockInv(cfg, s, now, Mode(false, false));
    assert Inv(cfg, s1, Mode(false, false));
    ExpireNoneLapsed(cfg, s1, o.tasks, now);
    var s2 := Swept(s, max, now, o);
    var (queue, claims) := PollClaims(cfg, s2, worker, max, now);
    var s3 := s2.(queue := queue);
    var sorted := SortClaims(cfg, s3, claims);
    AssignAllNoneLapsed(cfg, s3, worker, PollMax(max), sorted, |sorted|, now, o.choices);
    PollInv(cfg, s, worker, max, now, o, Mode(false, false));
    var s' := PollAssignments(cfg, s, worker, max, now, o).0;
    assert LeaseOk(cfg, s'.clock, r, s'.tasks[r]);
  }

  // ---------- backoff ----------

  /** A queued task whose retry time has not come. */
  ghost predicate BackingOff(tasks: map<TaskRef, Task>, r: TaskRef, now: int) {
    r in tasks && tasks[r].status == Queued && tasks[r].leaseExpires.Some? && tasks[r].leaseExpires.value > now
  }

  ghost predicate Untouched(s: State, s': State, r: TaskRef) {
    r in s.tasks && r in s'.tasks && s'.tasks[r] == s.tasks[r]
  }

  lemma CarryOutWaits(cfg: Config, s: State, worker: string, ref: TaskRef, now: int, sc: Screening, r: TaskRef)
    requires ScreeningOk(s, worker, ref, now, sc) && BackingOff(s.tasks, r, now)
    ensures Untouched(s, CarryOut(cfg, s, worker, ref, now, sc).0, r)
  {
    hide LeasedTask, AssignmentOf, AssignmentDecision, TaskRank, DepsDone;
    match sc
    case Refuse(_) =>
    case GoAhead(_) => assert r != ref;
  }

  lemma {:induction false} AssignAllWaits(cfg: Config, s: State, worker: string, max: int, claims: seq<Claim>, n: nat,
                                          now: int, choices: seq<Choice>, r: TaskRef)
    requires BackingOff(s.tasks, r, now) && n <= |claims|
    ensures Untouched(s, AssignAll(cfg, s, worker, max, claims, n, now, choices).s, r)
  {
    hide Screen, CarryOut;
    if n > 0 {
      var acc := AssignAll(cfg, s, worker, max, claims, n - 1, now, choices);
      AssignAllWaits(cfg, s, worker, max, claims, n - 1, now, choices, r);
      var claim, c := claims[n - 1], ChoiceAt(choices, n - 1);
      CarryOutWaits(cfg, acc.s, worker, claim.ref, now, Screen(cfg, acc.s, worker, claim.ref, now, c), r);
    }
  }

  /** Retry backoff is honoured: until its retry time a queued task is left alone by every poll, whoever polls. */
  lemma PollHonoursBackoff(cfg: Config, s: State, worker: string, max: int, now: int, o: PollOrders, r: TaskRef)
    requires BackingOff(s.tasks, r, now)
    ensures Untouched(s, PollAssignments(cfg, s, worker, max, now, o).0, r)
  {
    if worker in s.workers {
      var s2 := Swept(s, max, now, o);
      assert Untouched(s, s2, r);
      var (queue, claims) := PollClaims(cfg, s2, worker, max, now);
      var s3 := s2.(queue := queue);
      var sorted := SortClaims(cfg, s3, claims);
      AssignAllWaits(cfg, s3, worker, PollMax(max), sorted, |sorted|, now, o.choices, r);
    }
  }

  /** A failed attempt with retries left is queued for its backoff: at least one second, at most 32. */
  lemma FailureBacksOff(s: State, req: ReportReq, listing: seq<TaskRef>, now: int, later: int)
    requires Judge(s, req).Accept? && req.status == SaysOther && s.tasks[req.ref].attempt <= s.tasks[req.ref].maxRetries
    requires now <= later
    ensures BackingOff(Report(s, req, listing, now).tasks, req.ref, later) <==>
              later < now + RetryBackoff(s.tasks[req.ref].attempt)
    ensures later < now + SECOND ==> BackingOff(Report(s, req, listing, now).tasks, req.ref, later)
    ensures later >= now + 32 * SECOND ==> !BackingOff(Report(s, req, listing, now).tasks, req.ref, later)
  {
    BackoffRange(s.tasks[req.ref].attempt);
    hide RetryBackoff;
  }

  // ---------- fencing ----------

  /** Two hand-outs of one task never carry the same lease id, and the later one has the larger attempt. */
  lemma HandOutsDiffer(tasks: map<TaskRef, Task>, log: seq<Event>, i: nat, k: nat)
    requires HandoutsOk(tasks, log) && i < k < |log|
    requires log[i].HandedOut? && log[k].HandedOut? && log[i].given.ref == log[k].given.ref
    ensures log[i].given.attempt < log[k].given.attempt
    ensures log[i].given.leaseId != log[k].given.leaseId
  {
    var a, b := log[i], log[k];
    assert Earlier(a, b) && HandoutOk(tasks, a) && HandoutOk(tasks, b);
    if a.given.leaseId == b.given.leaseId {
      LeaseIdAttempt(a.worker, b.worker, a.given.ref.taskId, a.given.attempt, b.given.attempt, a.at, b.at);
    }
  }

  /** While a task holds a lease, a report that carries the lease of an earlier hand-out of it changes nothing. */
  lemma StaleReportIgnored(cfg: Config, s: State, i: nat, k: nat, req: ReportReq, listing: seq<TaskRef>, now: int)
    requires Inv(cfg, s, Mode(false, true)) && i < k < |s.log|
    requires s.log[i].HandedOut? && s.log[k].HandedOut?
    requires s.log[i].given.ref == s.log[k].given.ref == req.ref
    requires req.ref in s.tasks && s.tasks[req.ref].leaseId != ""
    requires req.leaseId == s.log[i].given.leaseId
    ensures Report(s, req, listing, now) == s.(clock := now)
  {
    var ref, t := req.ref, s.tasks[req.ref];
    var a, b := s.log[i], s.log[k];
    assert HandoutOk(s.tasks, a) && HandoutOk(s.tasks, b) && Earlier(a, b);
    assert LeaseOk(cfg, s.clock, ref, t);
    LeaseIdNonEmpty(a.worker, ref.taskId, a.given.attempt, a.at);
    if req.leaseId == t.leaseId {
      LeaseIdAttempt(a.worker, t.worker, ref.taskId, a.given.attempt, t.attempt, a.at, LeaseStart(t.leaseId).value);
    }
  }

  // ---------- replays ----------

  /** Re-sending the key of the last accepted report changes nothing, whatever else the report says. */
  lemma ReplayIgnored(s: State, req: ReportReq, listing: seq<TaskRef>, now: int)
    requires KeysOk(s.tasks, s.log) && req.key != "" && LastKey(s.log, req.ref) == req.key
    ensures Report(s, req, listing, now) == s.(clock := now)
  {
    if req.ref in s.tasks { assert s.tasks[req.ref].lastReportKey == req.key; }
  }
}
