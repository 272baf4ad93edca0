/** What a submitted graph guarantees for every later run: no deadlock, and no llm_inference task before its model is installed. */
module JobRuns {
  import opened Records
  import opened Dag
  import opened Scheduler
  import opened Invariants
  import opened Preservation
  import opened PollPreservation
  import opened Steps
  import opened Runs
  import opened GraphRewrite

  /** Call m submits sub and it is accepted. */
  ghost predicate Accepts(cfg: Config, states: seq<State>, calls: seq<Call>, m: nat, sub: Submission)
    requires |states| == |calls| + 1
  {
    m < |calls| && calls[m].action == Submit(sub) && SubmitAllowed(cfg, states[m], sub)
  }

  lemma AcceptedState(cfg: Config, states: seq<State>, calls: seq<Call>, m: nat, sub: Submission)
    requires Run(cfg, states, calls) && Accepts(cfg, states, calls, m, sub)
    ensures states[m + 1] == AddJob(cfg, states[m], sub, calls[m].now)
    ensures sub.jobId in states[m + 1].jobs
  {
    assert Follows(cfg, states, calls, m);
  }

  /** A job submitted with a closed, acyclic graph never gets stuck: whenever it is running with nothing assigned or
      running, one of its tasks is ready and waits in the queue (or was dead-lettered). */
  lemma SubmittedJobNeverStuck(cfg: Config, states: seq<State>, calls: seq<Call>, m: nat, n: nat, sub: Submission)
    returns (ready: TaskRef)
    requires Run(cfg, states, calls) && InMode(states, calls, UNIQUE) && m < n <= |calls|
    requires Accepts(cfg, states, calls, m, sub) && Closed(sub.tasks) && Acyclic(sub.tasks)
    requires sub.jobId in states[n].jobs && states[n].jobs[sub.jobId].status == Running
    requires forall r :: r in states[n].tasks && r.jobId == sub.jobId ==>
      states[n].tasks[r].status != Assigned && states[n].tasks[r].status != Running
    ensures ready.jobId == sub.jobId && Ready(states[n].tasks, ready)
    ensures ready in states[n].queue.items || ready in states[n].queue.dead
  {
    var rank: string -> nat :| RankedBy(sub.tasks, rank);
    AcceptedState(cfg, states, calls, m, sub);
    SubmittedGraphOk(cfg, states[m], sub, calls[m].now, rank);
    GraphStays(cfg, states, calls, m + 1, n, sub.jobId, rank);
    ready := NoDeadlock(cfg, states, calls, n, sub.jobId, rank);
  }

  // ---------- model installation ----------

  /** Every llm_inference task stored for job j depends on task id. */
  ghost predicate Guarded(tasks: map<TaskRef, Task>, j: string, id: string) {
    forall r :: r in tasks && r.jobId == j && IsLlm(tasks[r].typ) ==> id in tasks[r].deps
  }

  ghost predicate LlmDependOn(dag: seq<DagTask>, id: string) {
    forall i :: 0 <= i < |dag| && IsLlm(dag[i].typ) ==> id in dag[i].deps
  }

  lemma SubmittedGuarded(cfg: Config, s: State, sub: Submission, now: int, id: string)
    requires SubmitAllowed(cfg, s, sub) && LlmDependOn(sub.tasks, id)
    ensures Guarded(AddJob(cfg, s, sub, now).tasks, sub.jobId, id)
  {
    var tasks := AddJob(cfg, s, sub, now).tasks;
    forall r | r in tasks && r.jobId == sub.jobId && IsLlm(tasks[r].typ) ensures id in tasks[r].deps {
      SubmittedTask(cfg, s, sub, now, r);
      var i :| 0 <= i < |sub.tasks| && r == TaskRef(sub.jobId, sub.tasks[i].taskId) && tasks[r] == NewTask(sub, sub.tasks[i], now);
    }
  }

  lemma StepGuarded(cfg: Config, s: State, a: Action, now: int, j: string, id: string)
    requires FreshAction(s, a) && Sane(s.jobs, s.tasks) && j in s.jobs && Keeps(s, Step(cfg, s, a, now))
    requires Guarded(s.tasks, j, id)
    ensures Guarded(Step(cfg, s, a, now).tasks, j, id)
  {
    var s' := Step(cfg, s, a, now);
    forall r | r in s'.tasks && r.jobId == j && IsLlm(s'.tasks[r].typ) ensures id in s'.tasks[r].deps {
      StepSameTasks(cfg, s, a, now, j, r);
      assert SameSpec(s.tasks[r], s'.tasks[r]);
    }
  }

  lemma StepOfRunGuarded(cfg: Config, states: seq<State>, calls: seq<Call>, i: nat, j: string, id: string)
    requires Run(cfg, states, calls) && InMode(states, calls, UNIQUE) && i < |calls|
    requires j in states[i].jobs && Guarded(states[i].tasks, j, id)
    ensures j in states[i + 1].jobs && Guarded(states[i + 1].tasks, j, id)
  {
    StepOfRunKeeps(cfg, states, calls, i);
    RunInv(cfg, states, calls, UNIQUE, i);
    assert Follows(cfg, states, calls, i);
    assert Admissible(states[i], calls[i].action, UNIQUE);
    StepGuarded(cfg, states[i], calls[i].action, calls[i].now, j, id);
  }

  lemma {:induction false} GuardStays(cfg: Config, states: seq<State>, calls: seq<Call>, m: nat, n: nat, j: string, id: string)
    requires Run(cfg, states, calls) && InMode(states, calls, UNIQUE) && m <= n <= |calls|
    requires j in states[m].jobs && Guarded(states[m].tasks, j, id)
    ensures j in states[n].jobs && Guarded(states[n].tasks, j, id)
  {
    if m < n {
      GuardStays(cfg, states, calls, m, n - 1, j, id);
      StepOfRunGuarded(cfg, states, calls, n - 1, j, id);
    }
  }

  lemma FairFromStep(cfg: Config, states: seq<State>, calls: seq<Call>, n: nat, i: nat)
    requires Run(cfg, states, calls) && n < |calls|
    requires |states[n].log| <= i < |states[n + 1].log| && states[n + 1].log[i].HandedOut?
    ensures FairHandOut(states[n + 1], states[n + 1].log[i])
  {
    assert Follows(cfg, states, calls, n);
    StepFair(cfg, states[n], calls[n].action, calls[n].now, i);
  }

  lemma DepDoneAt(s: State, e: Event, id: string)
    requires e.HandedOut? && FairHandOut(s, e) && id in s.tasks[e.given.ref].deps
    ensures DepDone(s.tasks, e.given.ref.jobId, id) && CarriesOutput(s, e.given, id)
  {
    var deps := s.tasks[e.given.ref].deps;
    var i :| 0 <= i < |deps| && deps[i] == id;
    assert CarriesOutput(s, e.given, deps[i]);
  }

  lemma RewrittenDepends(dag: seq<DagTask>, model: string, backend: string, spread: bool)
    requires Installs(dag, model, true) && !HasId(dag, InstallId(dag))
    ensures LlmDependOn(WithSpread(WithInstall(dag, model, backend, true), spread), InstallId(dag))
  {
    LlmGuarded(dag, model, backend);
    BackendAndSpreadKeepShape(WithInstall(dag, model, backend, true), backend, spread);
  }

  lemma GuardedFrom(cfg: Config, states: seq<State>, calls: seq<Call>, m: nat, n: nat, sub: Submission, id: string)
    requires Run(cfg, states, calls) && InMode(states, calls, UNIQUE) && m < n <= |calls|
    requires Accepts(cfg, states, calls, m, sub) && LlmDependOn(sub.tasks, id)
    ensures Guarded(states[n].tasks, sub.jobId, id)
  {
    AcceptedState(cfg, states, calls, m, sub);
    SubmittedGuarded(cfg, states[m], sub, calls[m].now, id);
    GuardStays(cfg, states, calls, m + 1, n, sub.jobId, id);
  }

  /** The hand-out found every dependency completed, and carries the output of each. */
  ghost predicate DepsServed(s: State, a: Assignment)
    requires a.ref in s.tasks
  {
    forall d :: d in s.tasks[a.ref].deps ==> DepDone(s.tasks, a.ref.jobId, d) && CarriesOutput(s, a, d)
  }

  lemma FairServed(s: State, e: Event)
    requires e.HandedOut? && FairHandOut(s, e)
    ensures DepsServed(s, e.given)
  {
    forall d | d in s.tasks[e.given.ref].deps
      ensures DepDone(s.tasks, e.given.ref.jobId, d) && CarriesOutput(s, e.given, d)
    {
      DepDoneAt(s, e, d);
    }
  }

  /** After a graph rewritten to install its model is accepted, an llm_inference task of the job is handed out (by call n)
      only when the install task is completed, and with inputs that carry the output of every dependency. */
  lemma InstallPrecedesInference(cfg: Config, states: seq<State>, calls: seq<Call>, m: nat, n: nat, i: nat,
                                 sub: Submission, dag: seq<DagTask>, backend: string, spread: bool, s: State, e: Event)
    requires Run(cfg, states, calls) && InMode(states, calls, UNIQUE) && m < n < |calls|
    requires Accepts(cfg, states, calls, m, sub)
    requires Installs(dag, sub.model, true) && !HasId(dag, InstallId(dag))
    requires sub.tasks == WithSpread(WithInstall(dag, sub.model, backend, true), spread)
    requires |states[n].log| <= i < |states[n + 1].log| && s == states[n + 1] && e == s.log[i]
    requires e.HandedOut? && e.given.ref.jobId == sub.jobId
    requires e.given.ref in s.tasks && IsLlm(s.tasks[e.given.ref].typ)
    ensures InstallId(dag) in s.tasks[e.given.ref].deps
    ensures DepDone(s.tasks, sub.jobId, InstallId(dag))
    ensures DepsServed(s, e.given)
  {
    RewrittenDepends(dag, sub.model, backend, spread);
    GuardedFrom(cfg, states, calls, m, n + 1, sub, InstallId(dag));
    FairFromStep(cfg, states, calls, n, i);
    FairServed(s, e);
  }
}
