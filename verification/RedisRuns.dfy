/** Theorems over the runs of an engine on the Redis queue: no deadlock, and fair hand-outs. */
module RedisRuns {
  import opened Text
  import opened Records
  import opened Dag
  import opened Scheduler
  import opened Invariants
  import opened Preservation
  import opened PollPreservation
  import opened RunningJobs
  import opened Steps
  import opened RedisEngine
  import S = Runs
  import R = RedisModel

  /** The core keeps the engine's invariant, and its running jobs are unfinished. */
  ghost predicate CoreOk(cfg: Config, core: State, m: Mode) {
    Inv(cfg, core, m) && RunningOk(core.jobs, core.tasks)
  }

  lemma OtherQueue(cfg: Config, core: State, core': State, m: Mode)
    requires CoreOk(cfg, core, m) && core' == core.(queue := core'.queue)
    ensures CoreOk(cfg, core', m)
  {
  }

  lemma LaterClock(cfg: Config, core: State, now: int, m: Mode)
    requires CoreOk(cfg, core, m) && core.clock <= now <= INT64_MAX
    ensures CoreOk(cfg, core.(clock := now), m)
  {
    ClockInv(cfg, core, now, m);
  }

  lemma SweptOk(cfg: Config, y: System, now: int, listing: seq<TaskRef>, due: seq<string>, m: Mode)
    requires CoreOk(cfg, y.core, m) && y.core.clock <= now <= INT64_MAX && Lists(listing, y.core.tasks.Keys)
    ensures CoreOk(cfg, SweptSystem(y, now, listing, due).core, m) && SweptSystem(y, now, listing, due).core.clock == now
  {
    hide Inv, RunningOk;
    var s := y.core.(clock := now);
    LaterClock(cfg, y.core, now, m);
    ExpireInv(cfg, s, listing, now, m);
    ExpireRunningOk(s, listing, now);
    OtherQueue(cfg, ExpireLeases(s, listing, now), SweptSystem(y, now, listing, due).core, m);
  }

  lemma ServedOk(cfg: Config, deadLetterMax: int, swept: System, worker: string, max: int, now: int, choices: seq<Choice>,
                 stamp: nat -> int, m: Mode)
    requires CoreOk(cfg, swept.core, m) && swept.core.clock == now && 0 < now
    ensures CoreOk(cfg, Served(cfg, deadLetterMax, swept, worker, max, now, choices, stamp).core, m)
  {
    hide Inv, RunningOk, AssignAll, SortClaims, Settled, R.ClaimFrom;
    var (redis, claims) := R.ClaimFrom(swept.redis, PollCall(cfg, worker, max, now, stamp), 0);
    var sorted := SortClaims(cfg, swept.core, claims);
    AssignAllInv(cfg, swept.core, worker, PollMax(max), sorted, |sorted|, now, choices, m);
    AssignAllRunningOk(cfg, swept.core, worker, PollMax(max), sorted, |sorted|, now, choices);
    OtherQueue(cfg, Tried(cfg, swept.core, claims, worker, max, now, choices).s,
               Served(cfg, deadLetterMax, swept, worker, max, now, choices, stamp).core, m);
  }

  lemma PolledOk(cfg: Config, deadLetterMax: int, y: System, c: Call, m: Mode)
    requires CoreOk(cfg, y.core, m) && LegalCall(y, c) && c.action.Poll?
    ensures CoreOk(cfg, Perform(cfg, deadLetterMax, y, c).core, m)
  {
    hide CoreOk, Served, SweptSystem, R.DueRange;
    var a := c.action;
    if a.worker in y.core.workers {
      SweptOk(cfg, y, c.now, a.orders.tasks, c.feed.due, m);
      ServedOk(cfg, deadLetterMax, SweptSystem(y, c.now, a.orders.tasks, c.feed.due), a.worker, a.max, c.now,
               a.orders.choices, c.feed.stamp, m);
    } else {
      LaterClock(cfg, y.core, c.now, m);
    }
  }

  lemma PerformOk(cfg: Config, deadLetterMax: int, y: System, c: Call, m: Mode)
    requires CoreOk(cfg, y.core, m) && LegalCall(y, c) && Admissible(y.core, c.action, m)
    ensures CoreOk(cfg, Perform(cfg, deadLetterMax, y, c).core, m)
  {
    hide Inv, RunningOk, Step, Legal, Admissible, R.Revive, R.DueRange, PollSystem;
    if c.action.Poll? {
      PolledOk(cfg, deadLetterMax, y, c, m);
    } else {
      StepInv(cfg, y.core, c.action, c.now, m);
      StepRunningOk(cfg, y.core, c.action, c.now);
      var core := Step(cfg, y.core, c.action, c.now);
      assert CoreOk(cfg, core, m);
      RevivedCore(cfg, y.core, c.action, c.now);
      OtherQueue(cfg, core, Perform(cfg, deadLetterMax, y, c).core, m);
    }
  }

  lemma RevivedCore(cfg: Config, core: State, a: Action, now: int)
    ensures a.Revive? ==> Step(cfg, core, a, now) == core.(clock := now, queue := Step(cfg, core, a, now).queue)
  {
  }

  ghost predicate InMode(systems: seq<System>, calls: seq<Call>, m: Mode) {
    |systems| == |calls| + 1 && forall i :: 0 <= i < |calls| ==> Admissible(systems[i].core, calls[i].action, m)
  }

  lemma StartOk(cfg: Config, m: Mode)
    requires cfg.leaseNanos > 0
    ensures CoreOk(cfg, EMPTY_SYSTEM.core, m)
  {
    S.InitInv(cfg, m);
  }

  lemma {:induction false} RunOk(cfg: Config, deadLetterMax: int, systems: seq<System>, calls: seq<Call>, n: nat, m: Mode)
    requires cfg.leaseNanos > 0 && Run(cfg, deadLetterMax, systems, calls) && InMode(systems, calls, m) && n <= |calls|
    ensures CoreOk(cfg, systems[n].core, m)
  {
    hide CoreOk, Perform, LegalCall, NamesNoBar, Admissible;
    if n == 0 {
      StartOk(cfg, m);
    } else {
      RunOk(cfg, deadLetterMax, systems, calls, n - 1, m);
      assert Follows(cfg, deadLetterMax, systems, calls, n - 1);
      PerformOk(cfg, deadLetterMax, systems[n - 1], calls[n - 1], m);
    }
  }

  // ---------- deadlock freedom ----------

  /** Deadlock freedom over Redis, whatever reports arrive: a running job whose graph is closed and acyclic and that has no
      task assigned or running has a ready task whose text is pending or dead. */
  lemma NoDeadlock(cfg: Config, deadLetterMax: int, systems: seq<System>, calls: seq<Call>, n: nat, j: string,
                   rank: string -> nat) returns (ready: TaskRef)
    requires cfg.leaseNanos > 0 && Run(cfg, deadLetterMax, systems, calls) && n <= |calls|
    requires j in systems[n].core.jobs && systems[n].core.jobs[j].status == Running
    requires S.GraphOk(systems[n].core.tasks, j, rank)
    requires forall r :: r in systems[n].core.tasks && r.jobId == j ==>
      systems[n].core.tasks[r].status != Assigned && systems[n].core.tasks[r].status != Running
    ensures ready.jobId == j && Ready(systems[n].core.tasks, ready)
    ensures EncodeRef(ready) in systems[n].redis.pending || EncodeRef(ready) in systems[n].redis.dead
  {
    var core := systems[n].core;
    assert InMode(systems, calls, S.ANY);
    RunOk(cfg, deadLetterMax, systems, calls, n, S.ANY);
    var w := S.OnlyQueuedLeft(core.jobs, core.tasks, j);
    ready := S.ReadyBelow(core.tasks, j, rank, w);
    NoRunnableTaskLost(cfg, deadLetterMax, systems, calls, n, ready);
  }

  // ---------- polls are gentle, hand-outs fair ----------

  lemma SweptGentle(y: System, now: int, listing: seq<TaskRef>, due: seq<string>)
    ensures var core := SweptSystem(y, now, listing, due).core; Gentle(y.core, core) && FairSince(core, |y.core.log|)
  {
    hide ExpireLeases, Gentle;
    var s := y.core.(clock := now);
    var s' := ExpireLeases(s, listing, now);
    ExpireGentle(s, listing, now);
    FairElsewhere(s', SweptSystem(y, now, listing, due).core, |s.log|);
    GentleElsewhere(y.core, s, s', SweptSystem(y, now, listing, due).core);
  }

  lemma GentleElsewhere(a: State, b: State, c: State, d: State)
    requires b.jobs == a.jobs && b.tasks == a.tasks && b.log == a.log && Gentle(b, c)
    requires d.jobs == c.jobs && d.tasks == c.tasks && d.log == c.log
    ensures Gentle(a, d)
  {
  }

  lemma ServedGentle(cfg: Config, deadLetterMax: int, swept: System, worker: string, max: int, now: int,
                     choices: seq<Choice>, stamp: nat -> int)
    ensures var core := Served(cfg, deadLetterMax, swept, worker, max, now, choices, stamp).core;
      Gentle(swept.core, core) && FairSince(core, |swept.core.log|)
  {
    hide Gentle, AssignAll, SortClaims, Settled, R.ClaimFrom;
    var (redis, claims) := R.ClaimFrom(swept.redis, PollCall(cfg, worker, max, now, stamp), 0);
    var sorted := SortClaims(cfg, swept.core, claims);
    AssignAllGentle(cfg, swept.core, worker, PollMax(max), sorted, |sorted|, now, choices);
    var s' := Tried(cfg, swept.core, claims, worker, max, now, choices).s;
    var core := Served(cfg, deadLetterMax, swept, worker, max, now, choices, stamp).core;
    FairElsewhere(s', core, |swept.core.log|);
    GentleElsewhere(swept.core, swept.core, s', core);
  }

  lemma PolledGentle(cfg: Config, deadLetterMax: int, y: System, c: Call)
    requires c.action.Poll?
    ensures var core := Perform(cfg, deadLetterMax, y, c).core; Gentle(y.core, core) && FairSince(core, |y.core.log|)
  {
    hide Gentle, FairSince, SweptSystem, Served;
    var a := c.action;
    if a.worker in y.core.workers {
      var swept := SweptSystem(y, c.now, a.orders.tasks, c.feed.due);
      SweptGentle(y, c.now, a.orders.tasks, c.feed.due);
      ServedGentle(cfg, deadLetterMax, swept, a.worker, a.max, c.now, a.orders.choices, c.feed.stamp);
      GentleThen(y.core, swept.core, Perform(cfg, deadLetterMax, y, c).core);
    } else {
      GentleSelf(y.core);
      FairElsewhere(y.core, y.core.(clock := c.now), |y.core.log|);
      GentleElsewhere(y.core, y.core, y.core, y.core.(clock := c.now));
    }
  }

  /** Over Redis too, a hand-out is of an open job, with every dependency completed and its output among the inputs. */
  lemma HandOutsFair(cfg: Config, deadLetterMax: int, systems: seq<System>, calls: seq<Call>, n: nat, i: nat)
    requires Run(cfg, deadLetterMax, systems, calls) && n < |calls|
    requires |systems[n].core.log| <= i < |systems[n + 1].core.log| && systems[n + 1].core.log[i].HandedOut?
    ensures FairHandOut(systems[n + 1].core, systems[n + 1].core.log[i])
  {
    hide LegalCall, NamesNoBar, FairHandOut, PollSystem, Step;
    assert Follows(cfg, deadLetterMax, systems, calls, n);
    if calls[n].action.Poll? {
      PolledGentle(cfg, deadLetterMax, systems[n], calls[n]);
      assert FairEvent(systems[n + 1].core, systems[n + 1].core.log[i]);
    } else {
      OnlyPollsHandOut(cfg, deadLetterMax, systems[n], calls[n], i);
    }
  }

  lemma OnlyPollsHandOut(cfg: Config, deadLetterMax: int, y: System, c: Call, i: nat)
    requires !c.action.Poll?
    requires |y.core.log| <= i < |Perform(cfg, deadLetterMax, y, c).core.log|
    ensures !Perform(cfg, deadLetterMax, y, c).core.log[i].HandedOut?
  {
    hide Step, R.Revive;
    if Step(cfg, y.core, c.action, c.now).log[i].HandedOut? {
      StepFair(cfg, y.core, c.action, c.now, i);
    }
  }

  // ---------- the submitted graph ----------

  lemma PerformGraph(cfg: Config, deadLetterMax: int, y: System, c: Call, j: string, rank: string -> nat)
    requires LegalCall(y, c) && FreshAction(y.core, c.action) && Sane(y.core.jobs, y.core.tasks)
    requires j in y.core.jobs && S.GraphOk(y.core.tasks, j, rank)
    ensures var core := Perform(cfg, deadLetterMax, y, c).core; j in core.jobs && S.GraphOk(core.tasks, j, rank)
  {
    hide Step, LegalCall, Sane, S.GraphOk, R.Revive, PollSystem;
    if c.action.Poll? {
      PolledGentle(cfg, deadLetterMax, y, c);
      S.KeptGraph(y.core, Perform(cfg, deadLetterMax, y, c).core, j, rank);
    } else {
      StepKeeps(cfg, y.core, c.action, c.now);
      S.StepGraph(cfg, y.core, c.action, c.now, j, rank);
      RevivedCore(cfg, y.core, c.action, c.now);
    }
  }

  lemma {:induction false} GraphStays(cfg: Config, deadLetterMax: int, systems: seq<System>, calls: seq<Call>, m: nat, n: nat,
                                      j: string, rank: string -> nat)
    requires cfg.leaseNanos > 0 && Run(cfg, deadLetterMax, systems, calls) && InMode(systems, calls, S.UNIQUE)
    requires m <= n <= |calls| && j in systems[m].core.jobs && S.GraphOk(systems[m].core.tasks, j, rank)
    ensures j in systems[n].core.jobs && S.GraphOk(systems[n].core.tasks, j, rank)
  {
    hide Perform, LegalCall, NamesNoBar, S.GraphOk, Inv;
    if m < n {
      GraphStays(cfg, deadLetterMax, systems, calls, m, n - 1, j, rank);
      RunOk(cfg, deadLetterMax, systems, calls, n - 1, S.UNIQUE);
      SaneCore(cfg, systems[n - 1].core, S.UNIQUE);
      assert Follows(cfg, deadLetterMax, systems, calls, n - 1);
      assert Admissible(systems[n - 1].core, calls[n - 1].action, S.UNIQUE);
      PerformGraph(cfg, deadLetterMax, systems[n - 1], calls[n - 1], j, rank);
    }
  }

  lemma SaneCore(cfg: Config, core: State, m: Mode)
    requires CoreOk(cfg, core, m)
    ensures Sane(core.jobs, core.tasks)
  {
  }

  /** A job submitted over Redis with a closed, acyclic graph never gets stuck. */
  lemma SubmittedJobNeverStuck(cfg: Config, deadLetterMax: int, systems: seq<System>, calls: seq<Call>, m: nat, n: nat,
                               sub: Submission) returns (ready: TaskRef)
    requires cfg.leaseNanos > 0 && Run(cfg, deadLetterMax, systems, calls) && InMode(systems, calls, S.UNIQUE)
    requires m < n <= |calls| && calls[m].action == Submit(sub) && SubmitAllowed(cfg, systems[m].core, sub)
    requires Closed(sub.tasks) && Acyclic(sub.tasks)
    requires sub.jobId in systems[n].core.jobs && systems[n].core.jobs[sub.jobId].status == Running
    requires forall r :: r in systems[n].core.tasks && r.jobId == sub.jobId ==>
      systems[n].core.tasks[r].status != Assigned && systems[n].core.tasks[r].status != Running
    ensures ready.jobId == sub.jobId && Ready(systems[n].core.tasks, ready)
    ensures EncodeRef(ready) in systems[n].redis.pending || EncodeRef(ready) in systems[n].redis.dead
  {
    hide Run, SubmitAllowed, S.GraphOk, RankedBy, EncodeRef, Ready;
    var rank: string -> nat :| RankedBy(sub.tasks, rank);
    SubmittedCore(cfg, deadLetterMax, systems, calls, m, sub, rank);
    GraphStays(cfg, deadLetterMax, systems, calls, m + 1, n, sub.jobId, rank);
    ready := NoDeadlock(cfg, deadLetterMax, systems, calls, n, sub.jobId, rank);
  }

  lemma SubmittedCore(cfg: Config, deadLetterMax: int, systems: seq<System>, calls: seq<Call>, m: nat, sub: Submission,
                      rank: string -> nat)
    requires Run(cfg, deadLetterMax, systems, calls) && m < |calls| && calls[m].action == Submit(sub)
    requires SubmitAllowed(cfg, systems[m].core, sub) && Closed(sub.tasks) && RankedBy(sub.tasks, rank)
    ensures sub.jobId in systems[m + 1].core.jobs && S.GraphOk(systems[m + 1].core.tasks, sub.jobId, rank)
  {
    hide S.GraphOk, LegalCall, PutTasks;
    assert Follows(cfg, deadLetterMax, systems, calls, m);
    S.SubmittedGraphOk(cfg, systems[m].core, sub, calls[m].now, rank);
  }
}
