/** Exactly when a claim is served, and how many a poll takes on. */
module AssignmentLaws {
  import opened Text
  import opened Records
  import opened Leases
  import opened Scheduler
  import opened PreemptionLaws
  import opened PolicyLaws
  import opened QueueLaws
  import Q = QueueModel

  /** The task may go to this worker now: its job runs, it is queued and not backing off, its dependencies are completed, no
      other worker is the better choice, and the worker has room, or a task of lower priority to give up. */
  ghost predicate MayGo(cfg: Config, s: State, worker: string, ref: TaskRef, now: int, listing: seq<string>) {
    && ref.jobId in s.jobs && s.jobs[ref.jobId].status == Running
    && ref in s.tasks && s.tasks[ref].status == Queued
    && (s.tasks[ref].leaseExpires == None || s.tasks[ref].leaseExpires.value <= now)
    && (forall d :: d in s.tasks[ref].deps ==>
          TaskRef(ref.jobId, d) in s.tasks && s.tasks[TaskRef(ref.jobId, d)].status == Completed)
    && worker in s.workers && BestWorker(cfg, s, ref, listing, now) in {"", worker}
    && (|| !cfg.preempt
        || s.workers[worker].runningTasks < Capacity(s.workers[worker])
        || exists r :: r in s.tasks && Busy(s.tasks[r], worker) && TaskRank(s.tasks[r]) < TaskRank(s.tasks[ref]))
  }

  lemma ScreenedIff(cfg: Config, s: State, worker: string, ref: TaskRef, now: int, c: Choice)
    requires Covers(c.tasks, s.tasks, worker)
    ensures Screen(cfg, s, worker, ref, now, c).GoAhead? <==> !c.fault && MayGo(cfg, s, worker, ref, now, c.workers)
  {
    hide TaskRank, Capacity, BestWorker, Victim;
    if !c.fault && Runnable(s, ref, now) && worker in s.workers {
      VictimIff(s, worker, TaskRank(s.tasks[ref]), c.tasks);
    }
  }

  /** Preempting, handing out and denying leave the number of running tasks of a tenant as it was after any preemption. */
  lemma GrantKeepsRunning(cfg: Config, s: State, worker: string, ref: TaskRef, now: int, tenant: string)
    requires ref in s.tasks && ref.jobId in s.jobs && worker in s.workers && s.tasks[ref].status == Queued
    ensures CountTasks(Grant(cfg, s, worker, ref, now).0, tenant, Running) == CountTasks(s, tenant, Running)
  {
    hide AssignmentOf, NewLeaseId, LeaseExpiry, AssignmentDecision;
    var s' := Grant(cfg, s, worker, ref, now).0;
    assert TasksOf(s'.jobs, s'.tasks, tenant, Running) == TasksOf(s.jobs, s.tasks, tenant, Running);
  }

  /** A claim is served exactly when the store answers, the task may go to the worker, and the policy permits it, the
      tenant's running tasks being counted after any preemption. */
  lemma ServedIff(cfg: Config, s: State, worker: string, ref: TaskRef, now: int, c: Choice, name: string)
    requires Covers(c.tasks, s.tasks, worker)
    requires ref.jobId in s.jobs ==> GoesBy(s.jobs[ref.jobId].tenant, name)
    ensures var (s', r) := TryAssign(cfg, s, worker, ref, now, c);
      r.Given? <==> (
        && !c.fault
        && MayGo(cfg, s, worker, ref, now, c.workers)
        && (cfg.policy.noop || (
              && TasksBelow(cfg.policy, name, CountTasks(s', s.jobs[ref.jobId].tenant, Running))
              && Permits(cfg.policy, p => AboutAssignment(p, name, s.tasks[ref], s.workers[worker])))))
  {
    hide Screen, MayGo, Covers, Permits, GoesBy, CountTasks, TasksBelow, Grant;
    ScreenedIff(cfg, s, worker, ref, now, c);
    var sc := Screen(cfg, s, worker, ref, now, c);
    if sc.GoAhead? {
      assert Runnable(s, ref, now);
      var g := if sc.victim.Some? then Preempt(s, sc.victim.value, now) else s;
      assert TryAssign(cfg, s, worker, ref, now, c) == Grant(cfg, g, worker, ref, now);
      GrantPermittedIff(cfg, g, worker, ref, now, name);
      GrantKeepsRunning(cfg, g, worker, ref, now, s.jobs[ref.jobId].tenant);
    }
  }

  // ---------- the loop over the claims ----------

  /** A poll claims from the front of the queue, as many refs as there are, but at most 32 for each task asked for; it holds
      them for one lease. */
  lemma ClaimsTaken(cfg: Config, s: State, worker: string, max: int, now: int, i: nat)
    requires var claims := PollClaims(cfg, s, worker, max, now).1; i < |claims|
    ensures var (queue, claims) := PollClaims(cfg, s, worker, max, now);
      var most := 32 * if max > 0 then max else 1;
      && |claims| == (if most < |s.queue.items| then most else |s.queue.items|)
      && claims[i].ref == s.queue.items[i] && claims[i].claimedBy == worker
      && claims[i].visibleAt == now + if cfg.leaseNanos > 0 then cfg.leaseNanos else 15 * SECOND
  {
    hide Q.Claims;
    ClaimsShape(s.queue, Q.ClaimCount(s.queue, PollMax(max) * 32), worker, now, cfg.leaseNanos, i);
  }

  /** Until the poll has handed out as many tasks as it may, each claim in turn is tried in the state the ones before it left,
      and what comes of it is what the claim gets. */
  lemma EachTried(cfg: Config, s: State, worker: string, max: int, claims: seq<Claim>, k: nat, now: int, choices: seq<Choice>)
    requires k < |claims|
    ensures var a, b := AssignAll(cfg, s, worker, max, claims, k, now, choices),
                        AssignAll(cfg, s, worker, max, claims, k + 1, now, choices);
      var (s', r) := TryAssign(cfg, a.s, worker, claims[k].ref, now, if k < |choices| then choices[k] else NO_CHOICE);
      && (|a.given| < max ==> b.s == s')
      && (|a.given| < max && r.Given? ==> b.given == a.given + [r.a] && b.acks == a.acks + [claims[k]])
      && (|a.given| < max && r.NotReady? ==> b.given == a.given && b.nacks == a.nacks + [claims[k]])
      && (|a.given| < max && r.StoreFault? ==> b.given == a.given && b.errs == a.errs + [claims[k]])
      && (|a.given| >= max ==> b == a.(nacks := a.nacks + [claims[k]]))
  {
    hide TryAssign;
  }
}
