/** No runnable task is ever lost: a queued task whose dependencies are all completed always has its ref in the queue. */
module NoLost {
  import opened Text
  import opened Records
  import opened Dag
  import opened Scheduler
  import opened PollPreservation
  import opened PollConsistency
  import opened Settlement
  import opened QueueLaws
  import Q = QueueModel

  ghost predicate NothingLost(s: State) {
    forall ref :: Ready(s.tasks, ref) ==> Q.Tracked(s.queue, ref)
  }

  /** The same, apart from refs known to be tracked elsewhere. */
  ghost predicate Covered(known: set<TaskRef>, s: State) {
    forall ref :: Ready(s.tasks, ref) && ref !in known ==> Q.Tracked(s.queue, ref)
  }

  /** Readiness can only come from the task or one of its dependencies changing. */
  lemma ReadyBefore(a: map<TaskRef, Task>, b: map<TaskRef, Task>, ref: TaskRef)
    requires Ready(b, ref) && ref in a && a[ref].status == Queued && a[ref].deps == b[ref].deps
    requires forall r :: r in b && r.jobId == ref.jobId && b[r].status == Completed ==> r in a && a[r].status == Completed
    ensures Ready(a, ref)
  {
    forall i | 0 <= i < |a[ref].deps| ensures DepDone(a, ref.jobId, a[ref].deps[i]) {
      assert DepDone(b, ref.jobId, b[ref].deps[i]);
    }
  }

  lemma EnqueueTracked(q: Q.QueueState, refs: seq<TaskRef>, ref: TaskRef)
    requires Q.Tracked(q, ref) || ref in refs
    ensures Q.Tracked(Q.Enqueue(q, refs), ref)
  {
    if r :| r in q.inflight && q.inflight[r].ref == ref { assert Q.Enqueue(q, refs).inflight[r].ref == ref; }
  }

  // ---------- the moves inside a poll ----------

  /** One task leaves the queued state, or none becomes newly ready: nothing is lost. */
  lemma UnreadyMove(known: set<TaskRef>, s: State, s': State, ref: TaskRef, t: Task)
    requires Covered(known, s) && ref in s.tasks && s'.tasks == s.tasks[ref := t] && s'.queue == s.queue
    requires t.status != Queued && t.status != Completed
    ensures Covered(known, s')
  {
    forall r | Ready(s'.tasks, r) && r !in known ensures Q.Tracked(s'.queue, r) {
      ReadyBefore(s.tasks, s'.tasks, r);
    }
  }

  lemma PreemptNoLoss(known: set<TaskRef>, s: State, v: TaskRef, now: int)
    requires Covered(known, s) && v in s.tasks
    ensures Covered(known, Preempt(s, v, now))
  {
    var s' := Preempt(s, v, now);
    forall r | Ready(s'.tasks, r) && r !in known ensures Q.Tracked(s'.queue, r) {
      if r != v { ReadyBefore(s.tasks, s'.tasks, r); }
      EnqueueTracked(s.queue, [v], r);
    }
  }

  lemma GrantNoLoss(known: set<TaskRef>, cfg: Config, s: State, worker: string, ref: TaskRef, now: int)
    requires Covered(known, s) && ref in s.tasks && ref.jobId in s.jobs && worker in s.workers
    ensures Covered(known, Grant(cfg, s, worker, ref, now).0)
  {
    var s' := Grant(cfg, s, worker, ref, now).0;
    UnreadyMove(known, s, s', ref, s'.tasks[ref]);
  }

  lemma CarryOutNoLoss(known: set<TaskRef>, cfg: Config, s: State, worker: string, ref: TaskRef, now: int, sc: Screening)
    requires Covered(known, s) && ScreeningOk(s, worker, ref, now, sc)
    ensures Covered(known, CarryOut(cfg, s, worker, ref, now, sc).0)
  {
    match sc
    case Refuse(_) =>
    case GoAhead(None) => GrantNoLoss(known, cfg, s, worker, ref, now);
    case GoAhead(Some(v)) =>
      PreemptNoLoss(known, s, v, now);
      GrantNoLoss(known, cfg, Preempt(s, v, now), worker, ref, now);
  }

  lemma AssignOneNoLoss(known: set<TaskRef>, cfg: Config, acc: Acc, worker: string, max: int, claim: Claim, now: int, c: Choice)
    requires Covered(known, acc.s)
    ensures Covered(known, AssignOne(cfg, acc, worker, max, claim, now, c).s)
  {
    CarryOutNoLoss(known, cfg, acc.s, worker, claim.ref, now, Screen(cfg, acc.s, worker, claim.ref, now, c));
  }

  lemma {:induction false} AssignAllNoLoss(known: set<TaskRef>, cfg: Config, s: State, worker: string, max: int, claims: seq<Claim>, n: nat,
                                           now: int, choices: seq<Choice>)
    requires Covered(known, s) && n <= |claims|
    ensures Covered(known, AssignAll(cfg, s, worker, max, claims, n, now, choices).s)
  {
    if n > 0 {
      AssignAllNoLoss(known, cfg, s, worker, max, claims, n - 1, now, choices);
      AssignOneNoLoss(known, cfg, AssignAll(cfg, s, worker, max, claims, n - 1, now, choices), worker, max, claims[n - 1], now,
                      ChoiceAt(choices, n - 1));
    }
  }

  // ---------- settling ----------

  /** Every acked claim is filed in flight as it was made, and its task is no longer queued. */
  ghost predicate AcksSafe(acc: Acc) {
    forall i :: 0 <= i < |acc.acks| ==>
      && acc.acks[i].receipt in acc.s.queue.inflight
      && acc.s.queue.inflight[acc.acks[i].receipt] == acc.acks[i]
      && acc.acks[i].ref in acc.s.tasks
      && acc.s.tasks[acc.acks[i].ref].status != Queued
  }

  lemma AckTracked(q: Q.QueueState, acks: seq<Claim>, ref: TaskRef)
    requires Q.Tracked(q, ref)
    requires forall i :: 0 <= i < |acks| && acks[i].receipt in q.inflight ==> q.inflight[acks[i].receipt].ref != ref
    ensures Q.Tracked(Q.Ack(q, acks), ref)
  {
    var q' := Q.Ack(q, acks);
    AckInflight(q, acks, "");
    if r :| r in q.inflight && q.inflight[r].ref == ref {
      AckInflight(q, acks, r);
      assert r in q'.inflight && q'.inflight[r].ref == ref;
    }
  }

  lemma SettleNoLoss(acc: Acc)
    requires NothingLost(acc.s) && AcksSafe(acc)
    ensures NothingLost(Settle(acc))
  {
    var s' := Settle(acc);
    forall ref | Ready(s'.tasks, ref) ensures Q.Tracked(s'.queue, ref) {
      assert Ready(acc.s.tasks, ref);
      AckTracked(acc.s.queue, acc.acks, ref);
      NackTracked(Q.Ack(acc.s.queue, acc.acks), acc.nacks, false, ref);
      NackTracked(Q.Nack(Q.Ack(acc.s.queue, acc.acks), acc.nacks, false), acc.errs, true, ref);
    }
  }

  /** Acked claims belong to assignments that are still held when the poll settles. */
  lemma AssigningAcksSafe(cfg: Config, s: State, worker: string, max: int, now: int, o: PollOrders)
    requires Valid(s.queue)
    ensures AcksSafe(Assigning(cfg, s, worker, max, now, o))
  {
    var (queue, claims) := PollClaims(cfg, s, worker, max, now);
    var s1 := s.(queue := queue);
    var sorted := SortClaims(cfg, s1, claims);
    var acc := Assigning(cfg, s, worker, max, now, o);
    AssigningOk(cfg, s, worker, max, now, o);
    ClaimsSettledOnce(cfg, s, worker, max, now, o);
    forall i | 0 <= i < |acc.acks|
      ensures acc.acks[i].receipt in acc.s.queue.inflight && acc.s.queue.inflight[acc.acks[i].receipt] == acc.acks[i]
      ensures acc.acks[i].ref in acc.s.tasks && acc.s.tasks[acc.acks[i].ref].status != Queued
    {
      assert Kept(s1, acc, worker, sorted, |sorted|, i);
      assert acc.acks[i] in multiset(acc.acks);
      assert acc.acks[i] in multiset(claims);
      var k :| 0 <= k < |claims| && claims[k] == acc.acks[i];
      ClaimFiled(s.queue, Q.ClaimCount(s.queue, PollMax(max) * 32), worker, now, cfg.leaseNanos, k);
    }
  }

  // ---------- sweeping ----------

  lemma ExpireNoLoss(known: set<TaskRef>, s: State, listing: seq<TaskRef>, now: int)
    requires Covered(known, s) && Lists(listing, s.tasks.Keys)
    ensures Covered(known, ExpireLeases(s, listing, now))
  {
    var s' := ExpireLeases(s, listing, now);
    forall r | Ready(s'.tasks, r) && r !in known ensures Q.Tracked(s'.queue, r) {
      if Expired(s.tasks[r], now) {
        assert r in Requeued(s.tasks, listing, now);
      } else {
        ReadyBefore(s.tasks, s'.tasks, r);
      }
      EnqueueTracked(s.queue, Requeued(s.tasks, listing, now), r);
    }
  }

  lemma SweptNoLoss(s: State, max: int, now: int, o: PollOrders)
    requires NothingLost(s) && Lists(o.tasks, s.tasks.Keys)
    ensures NothingLost(Swept(s, max, now, o))
  {
    var due := Q.Due(s.queue, o.receipts, now, PollMax(max) * 8);
    var s1 := s.(clock := now, queue := Q.RequeueExpired(s.queue, o.receipts, now, PollMax(max) * 8));
    forall r | Ready(s1.tasks, r) ensures Q.Tracked(s1.queue, r) {
      ReleaseTracked(s.queue, due, r);
    }
    ExpireNoLoss({}, s1, o.tasks, now);
  }

  lemma AssigningNoLoss(cfg: Config, s: State, worker: string, max: int, now: int, o: PollOrders)
    requires NothingLost(s) && Valid(s.queue)
    ensures NothingLost(Assigning(cfg, s, worker, max, now, o).s)
  {
    var n := Q.ClaimCount(s.queue, PollMax(max) * 32);
    var (queue, claims) := PollClaims(cfg, s, worker, max, now);
    var s1 := s.(queue := queue);
    forall r | Ready(s1.tasks, r) ensures Q.Tracked(s1.queue, r) {
      ClaimsTracked(s.queue, n, worker, now, cfg.leaseNanos, r);
    }
    var sorted := SortClaims(cfg, s1, claims);
    AssignAllNoLoss({}, cfg, s1, worker, PollMax(max), sorted, |sorted|, now, o.choices);
  }

  lemma PollNoLoss(cfg: Config, s: State, worker: string, max: int, now: int, o: PollOrders)
    requires NothingLost(s) && Valid(s.queue) && Lists(o.tasks, s.tasks.Keys)
    ensures NothingLost(PollAssignments(cfg, s, worker, max, now, o).0)
    ensures Valid(PollAssignments(cfg, s, worker, max, now, o).0.queue)
  {
    if worker in s.workers {
      var swept := Swept(s, max, now, o);
      SweptNoLoss(s, max, now, o);
      SweptValid(s, max, now, o);
      AssigningNoLoss(cfg, swept, worker, max, now, o);
      AssigningAcksSafe(cfg, swept, worker, max, now, o);
      SettleNoLoss(Assigning(cfg, swept, worker, max, now, o));
      PollIsConsistent(cfg, s, worker, max, now, o);
    }
  }

  // ---------- the other steps ----------

  lemma {:induction false} SourceRefsAll(jobId: string, dag: seq<DagTask>, i: nat)
    requires i < |dag| && |dag[i].deps| == 0
    ensures TaskRef(jobId, dag[i].taskId) in SourceRefs(jobId, dag)
  {
    if i < |dag| - 1 {
      SourceRefsAll(jobId, dag[..|dag| - 1], i);
    }
  }

  lemma AddJobNoLoss(known: set<TaskRef>, cfg: Config, s: State, sub: Submission, now: int)
    requires Covered(known, s)
    ensures Covered(known, AddJob(cfg, s, sub, now))
  {
    var s' := AddJob(cfg, s, sub, now);
    if SubmitAllowed(cfg, s, sub) {
      forall r | Ready(s'.tasks, r) && r !in known ensures Q.Tracked(s'.queue, r) {
        SubmittedTask(cfg, s, sub, now, r);
        if r.jobId == sub.jobId {
          var t := s'.tasks[r];
          if |t.deps| > 0 {
            assert DepDone(s'.tasks, r.jobId, t.deps[0]);
            SubmittedTask(cfg, s, sub, now, TaskRef(r.jobId, t.deps[0]));
            assert false;
          }
          var i :| 0 <= i < |sub.tasks| && r == TaskRef(sub.jobId, sub.tasks[i].taskId) && t == NewTask(sub, sub.tasks[i], now);
          SourceRefsAll(sub.jobId, sub.tasks, i);
        } else {
          forall d | d in s'.tasks && d.jobId == r.jobId ensures d in s.tasks && s'.tasks[d] == s.tasks[d] {
            SubmittedTask(cfg, s, sub, now, d);
          }
          ReadyBefore(s.tasks, s'.tasks, r);
        }
        EnqueueTracked(s.queue, SourceRefs(sub.jobId, sub.tasks), r);
      }
    }
  }

  /** A step that keeps the queue, the dependencies and the set of completed tasks, and queues no task, loses nothing. */
  lemma QuietNoLoss(known: set<TaskRef>, s: State, s': State)
    requires Covered(known, s) && s'.queue == s.queue
    requires forall r :: r in s'.tasks ==> r in s.tasks && s'.tasks[r].deps == s.tasks[r].deps
    requires forall r :: r in s'.tasks && s'.tasks[r].status == Queued ==> s.tasks[r].status == Queued
    requires forall r :: r in s'.tasks && s'.tasks[r].status == Completed ==> s.tasks[r].status == Completed
    ensures Covered(known, s')
  {
    forall r | Ready(s'.tasks, r) && r !in known ensures Q.Tracked(s'.queue, r) {
      ReadyBefore(s.tasks, s'.tasks, r);
    }
  }

  lemma AcceptNoLoss(known: set<TaskRef>, s: State, req: ReportReq, listing: seq<TaskRef>, now: int)
    requires Covered(known, s) && Lists(listing, s.tasks.Keys) && Judge(s, req).Accept?
    ensures Covered(known, AcceptReport(s, req, listing, now))
  {
    var ref := req.ref;
    var s' := AcceptReport(s, req, listing, now);
    var t := ReportedTask(s.tasks[ref], req, now);
    var refs := if req.status == SaysRunning then []
      else if t.status == Queued then [ref]
      else if t.status == Completed then ReadyRefs(s'.tasks, ref.jobId, listing) else [];
    assert s'.tasks == s.tasks[ref := t];
    forall r | Ready(s'.tasks, r) && r !in known ensures Q.Tracked(s'.queue, r) {
      if t.status == Completed && r.jobId == ref.jobId {
        assert r in listing;
        assert r in refs;
      } else if r != ref {
        ReadyBefore(s.tasks, s'.tasks, r);
      }
      EnqueueTracked(s.queue, refs, r);
      assert s'.queue.items == Q.Enqueue(s.queue, refs).items;
    }
  }

  lemma ReviveNoLoss(s: State, refs: seq<TaskRef>, now: int)
    requires NothingLost(s)
    ensures NothingLost(RequeueDead(s, refs, now))
  {
    forall r | Ready(s.tasks, r) ensures Q.Tracked(Q.RequeueDead(s.queue, refs), r) {
      RequeueDeadTracked(s.queue, refs, r);
    }
  }

  lemma ReportNoLoss(known: set<TaskRef>, s: State, req: ReportReq, listing: seq<TaskRef>, now: int)
    requires Covered(known, s) && Valid(s.queue) && Lists(listing, s.tasks.Keys)
    ensures Covered(known, Report(s, req, listing, now)) && Valid(Report(s, req, listing, now).queue)
  {
    var s1 := s.(clock := now);
    if Judge(s1, req).Accept? { AcceptNoLoss(known, s1, req, listing, now); }
  }

  lemma HeartbeatNoLoss(known: set<TaskRef>, cfg: Config, s: State, w: string, b: Beat, now: int)
    requires Covered(known, s)
    ensures Covered(known, Heartbeat(cfg, s, w, b, now)) && Heartbeat(cfg, s, w, b, now).queue == s.queue
  {
    QuietNoLoss(known, s, Heartbeat(cfg, s, w, b, now));
  }

  lemma CancelNoLoss(known: set<TaskRef>, s: State, j: string, now: int)
    requires Covered(known, s)
    ensures Covered(known, CancelJob(s, j, now)) && CancelJob(s, j, now).queue == s.queue
  {
    QuietNoLoss(known, s, CancelJob(s, j, now));
  }

  /** Every step keeps the queue valid and loses no runnable task; reused job ids and disorderly reports included. */
  lemma StepNoLoss(cfg: Config, s: State, a: Action, now: int)
    requires NothingLost(s) && Valid(s.queue) && Legal(s, a, now)
    ensures NothingLost(Step(cfg, s, a, now)) && Valid(Step(cfg, s, a, now).queue)
  {
    hide PollAssignments, Report, Heartbeat, CancelJob, SubmitAllowed, SourceRefs;
    match a
    case Submit(sub) => AddJobNoLoss({}, cfg, s, sub, now);
    case Poll(w, max, o) => PollNoLoss(cfg, s, w, max, now, o);
    case Tell(req, listing) => ReportNoLoss({}, s, req, listing, now);
    case Pulse(w, b) => HeartbeatNoLoss({}, cfg, s, w, b, now);
    case Cancel(j) => CancelNoLoss({}, s, j, now);
    case Archive(j) => QuietNoLoss({}, s, ArchiveJob(s, j, now));
    case Register(id, w) => QuietNoLoss({}, s, RegisterWorker(s, id, w, now));
    case Revive(refs) => ReviveNoLoss(s, refs, now);
  }
}
