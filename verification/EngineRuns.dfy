/** Every history of calls on the engine object is a run of the state machine, so the theorems about runs hold of it. */
module EngineRuns {
  import opened Text
  import opened Records
  import opened Listings
  import opened Scheduler
  import opened NoLost
  import opened QueueLaws
  import Runs
  import SchedulerEngine

  /** A call as a client makes it; `faults` says for which claims of a poll the store fails to answer. */
  datatype Request =
    | AskSubmit(sub: Submission)
    | AskPoll(worker: string, max: int, faults: seq<bool>)
    | AskReport(req: ReportReq)
    | AskHeartbeat(from: string, beat: Beat)
    | AskCancel(canceled: string)
    | AskArchive(archived: string)
    | AskRegister(id: string, record: Worker)
    | AskRevive(refs: seq<TaskRef>)

  /** The call as a step, with the orders in which the engine happened to range over its maps. */
  ghost predicate Stands(s: State, q: Request, a: Action) {
    match q
    case AskSubmit(sub) => a == Submit(sub)
    case AskPoll(w, max, _) => a.Poll? && a.worker == w && a.max == max
    case AskReport(req) => a.Tell? && a.req == req
    case AskHeartbeat(from, b) => a == Pulse(from, b)
    case AskCancel(j) => a == Cancel(j)
    case AskArchive(j) => a == Archive(j)
    case AskRegister(id, w) => a == Register(id, w)
    case AskRevive(refs) => a == Revive(refs)
  }

  lemma UnregisteredPoll(cfg: Config, s: State, worker: string, max: int, now: int, o: PollOrders, o': PollOrders)
    requires worker !in s.workers
    ensures PollAssignments(cfg, s, worker, max, now, o).0 == PollAssignments(cfg, s, worker, max, now, o').0
  {
  }

  method PerformPoll(e: SchedulerEngine.Engine, worker: string, max: int, faults: seq<bool>, now: int) returns (ghost o: PollOrders)
    modifies e, e.store, e.queue
    ensures e.View() == PollAssignments(e.cfg, old(e.View()), worker, max, now, o).0
    ensures Lists(o.receipts, old(e.View()).queue.inflight.Keys) && Lists(o.tasks, old(e.View()).tasks.Keys)
  {
    hide PollAssignments, Lists, ListOf;
    ghost var s := e.View();
    var result, orders := e.PollAssignments(worker, max, now, faults);
    o := orders;
    if worker !in s.workers {
      o := PollOrders(ListOf(s.queue.inflight.Keys), ListOf(s.tasks.Keys), []);
      UnregisteredPoll(e.cfg, s, worker, max, now, orders, o);
    }
  }

  method Perform(e: SchedulerEngine.Engine, q: Request, now: int) returns (ghost a: Action)
    requires e.View().clock <= now && 0 < now <= INT64_MAX
    modifies e, e.store, e.queue
    ensures Stands(old(e.View()), q, a) && Legal(old(e.View()), a, now)
    ensures e.View() == Step(e.cfg, old(e.View()), a, now)
  {
    hide PollAssignments, AddJob, Report, Heartbeat, CancelJob, ArchiveJob, Lists, RequeueDead, SchedulerEngine.Engine.View;
    match q {
      case AskSubmit(sub) =>
        a := Submit(sub);
        var accepted := e.AddJob(sub, now);
      case AskPoll(w, max, faults) =>
        ghost var o := PerformPoll(e, w, max, faults, now);
        a := Poll(w, max, o);
      case AskReport(req) =>
        var verdict, listing := e.ReportTaskResult(req, now);
        a := Tell(req, listing);
      case AskHeartbeat(from, b) =>
        a := Pulse(from, b);
        var known := e.Heartbeat(from, b, now);
      case AskCancel(j) =>
        a := Cancel(j);
        var found := e.CancelJob(j, now);
      case AskArchive(j) =>
        a := Archive(j);
        var done := e.ArchiveJob(j, now);
      case AskRegister(id, w) =>
        a := Register(id, w);
        e.RegisterWorker(id, w, now);
      case AskRevive(refs) =>
        a := Revive(refs);
        var requeued := e.RequeueDeadLetters(refs, now);
    }
  }

  lemma RunStart(cfg: Config)
    requires cfg.leaseNanos > 0
    ensures Runs.Run(cfg, [INIT], [])
  {
  }

  lemma RunPush(cfg: Config, states: seq<State>, calls: seq<Runs.Call>, s: State, c: Runs.Call)
    requires Runs.Run(cfg, states, calls)
    requires Legal(states[|calls|], c.action, c.now) && s == Step(cfg, states[|calls|], c.action, c.now)
    ensures Runs.Run(cfg, states + [s], calls + [c])
  {
    hide Step, Legal;
    var states', calls' := states + [s], calls + [c];
    forall i | 0 <= i < |calls'| ensures Runs.Follows(cfg, states', calls', i) {
      if i < |calls| {
        assert Runs.Follows(cfg, states, calls, i);
      }
    }
  }

  lemma StepClock(cfg: Config, s: State, a: Action, now: int)
    ensures Step(cfg, s, a, now).clock == now
  {
    if a.Poll? && a.worker in s.workers {
      var acc := Assigning(cfg, Swept(s, a.max, now, a.orders), a.worker, a.max, now, a.orders);
      AssigningClock(cfg, Swept(s, a.max, now, a.orders), a.worker, a.max, now, a.orders);
    }
  }

  lemma AssigningClock(cfg: Config, s: State, worker: string, max: int, now: int, o: PollOrders)
    ensures Assigning(cfg, s, worker, max, now, o).s.clock == s.clock
  {
    var (queue, claims) := PollClaims(cfg, s, worker, max, now);
    var s1 := s.(queue := queue);
    var sorted := SortClaims(cfg, s1, claims);
    AssignAllClock(cfg, s1, worker, PollMax(max), sorted, |sorted|, now, o.choices);
  }

  lemma {:induction false} AssignAllClock(cfg: Config, s: State, worker: string, max: int, claims: seq<Claim>, n: nat,
                                          now: int, choices: seq<Choice>)
    requires n <= |claims|
    ensures AssignAll(cfg, s, worker, max, claims, n, now, choices).s.clock == s.clock
  {
    if n > 0 {
      AssignAllClock(cfg, s, worker, max, claims, n - 1, now, choices);
    }
  }

  /** Serves a history of calls on a new engine: the states it goes through are a run of the state machine.
      In particular no runnable task is ever lost. */
  method Serve(options: Options, tie: (string, string) -> nat, requests: seq<Request>, times: seq<int>)
    returns (e: SchedulerEngine.Engine, ghost states: seq<State>, ghost calls: seq<Runs.Call>)
    requires |times| == |requests|
    requires forall i :: 0 <= i < |times| ==> 0 < times[i] <= INT64_MAX
    requires forall i, j :: 0 <= i < j < |times| ==> times[i] <= times[j]
    ensures Runs.Run(e.cfg, states, calls) && e.cfg == WithDefaults(options, tie)
    ensures |calls| == |requests| && states[|calls|] == e.View()
    ensures forall i :: 0 <= i < |calls| ==> Stands(states[i], requests[i], calls[i].action) && calls[i].now == times[i]
    ensures NothingLost(e.View())
  {
    hide Step, Legal, Runs.Follows, Stands, WithDefaults, NothingLost, Valid;
    e := new SchedulerEngine.Engine(options, tie);
    states, calls := [e.View()], [];
    RunStart(e.cfg);
    for i := 0 to |requests|
      invariant fresh(e) && fresh(e.store) && fresh(e.queue) && e.cfg == WithDefaults(options, tie)
      invariant |calls| == i && |states| == i + 1 && Runs.Run(e.cfg, states, calls) && states[i] == e.View()
      invariant i > 0 ==> e.View().clock == times[i - 1]
      invariant i == 0 ==> e.View().clock == 0
      invariant forall k :: 0 <= k < i ==> Stands(states[k], requests[k], calls[k].action) && calls[k].now == times[k]
    {
      ghost var a := Perform(e, requests[i], times[i]);
      StepClock(e.cfg, states[i], a, times[i]);
      RunPush(e.cfg, states, calls, e.View(), Runs.Call(a, times[i]));
      states, calls := states + [e.View()], calls + [Runs.Call(a, times[i])];
    }
    Runs.NoRunnableTaskLost(e.cfg, states, calls, |calls|);
  }
}
