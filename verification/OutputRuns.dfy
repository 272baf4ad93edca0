/** Where the outputs handed to a dependent task come from: over any run, from the last accepted report on each dependency. */
module OutputRuns {
  import opened Text
  import opened Records
  import opened Leases
  import opened Scheduler
  import opened PollPreservation
  import opened Steps
  import opened Runs

  /** The calls that decide what is known of task r: a new submission of its job, or an accepted report on it. */
  ghost predicate Resubmits(cfg: Config, s: State, a: Action, r: TaskRef) {
    a.Submit? && SubmitAllowed(cfg, s, a.sub) && a.sub.jobId == r.jobId
  }

  ghost predicate Tells(s: State, a: Action, r: TaskRef) { a.Tell? && a.req.ref == r && Judge(s, a.req).Accept? }

  /** The last report on r accepted among the first n calls, since its job was last submitted. */
  ghost function LastReport(cfg: Config, states: seq<State>, calls: seq<Call>, n: nat, r: TaskRef): Option<ReportReq>
    requires n <= |calls| && |states| == |calls| + 1
  {
    if n == 0 then None
    else if Resubmits(cfg, states[n - 1], calls[n - 1].action, r) then None
    else if Tells(states[n - 1], calls[n - 1].action, r) then Some(calls[n - 1].action.req)
    else LastReport(cfg, states, calls, n - 1, r)
  }

  /** The stored record agrees with that report. */
  ghost predicate Agrees(t: Task, last: Option<ReportReq>) {
    && t.outputUri == (if last.Some? then last.value.outputUri else "")
    && (t.status == Completed ==> last.Some? && last.value.status == SaysCompleted)
  }

  // ---------- what one call does to the output of a task ----------

  /** No output changes, and no task comes to be completed. */
  ghost predicate OutputsKept(a: map<TaskRef, Task>, b: map<TaskRef, Task>) {
    forall r :: r in b ==>
      r in a && b[r].outputUri == a[r].outputUri && (b[r].status == Completed ==> a[r].status == Completed)
  }

  lemma GrantOutputs(cfg: Config, s: State, worker: string, ref: TaskRef, now: int)
    requires ref in s.tasks && ref.jobId in s.jobs && worker in s.workers
    ensures OutputsKept(s.tasks, Grant(cfg, s, worker, ref, now).0.tasks)
  {
    hide AssignmentDecision, AssignmentOf, LeaseExpiry, NewLeaseId;
  }

  lemma CarryOutOutputs(cfg: Config, s: State, worker: string, ref: TaskRef, now: int, sc: Screening)
    requires ScreeningOk(s, worker, ref, now, sc)
    ensures OutputsKept(s.tasks, CarryOut(cfg, s, worker, ref, now, sc).0.tasks)
  {
    hide Grant, DepsDone, TaskRank;
    match sc
    case Refuse(_) =>
    case GoAhead(None) => GrantOutputs(cfg, s, worker, ref, now);
    case GoAhead(Some(v)) => GrantOutputs(cfg, Preempt(s, v, now), worker, ref, now);
  }

  lemma {:induction false} AssignAllOutputs(cfg: Config, s: State, worker: string, max: int, claims: seq<Claim>, n: nat,
                                            now: int, choices: seq<Choice>)
    requires n <= |claims|
    ensures OutputsKept(s.tasks, AssignAll(cfg, s, worker, max, claims, n, now, choices).s.tasks)
  {
    hide Screen, CarryOut;
    if n > 0 {
      var acc := AssignAll(cfg, s, worker, max, claims, n - 1, now, choices);
      AssignAllOutputs(cfg, s, worker, max, claims, n - 1, now, choices);
      var ref, c := claims[n - 1].ref, ChoiceAt(choices, n - 1);
      CarryOutOutputs(cfg, acc.s, worker, ref, now, Screen(cfg, acc.s, worker, ref, now, c));
    }
  }

  lemma SweptOutputs(s: State, max: int, now: int, o: PollOrders)
    ensures OutputsKept(s.tasks, Swept(s, max, now, o).tasks)
  {
    hide TimedOut, RetryBackoff, Requeued, LapseEvents, Reconciled, Affected;
  }

  lemma PollOutputs(cfg: Config, s: State, worker: string, max: int, now: int, o: PollOrders)
    ensures OutputsKept(s.tasks, PollAssignments(cfg, s, worker, max, now, o).0.tasks)
  {
    hide AssignAll, SortClaims, PollClaims, Swept;
    if worker in s.workers {
      var s2 := Swept(s, max, now, o);
      SweptOutputs(s, max, now, o);
      var (queue, claims) := PollClaims(cfg, s2, worker, max, now);
      var s3 := s2.(queue := queue);
      var sorted := SortClaims(cfg, s3, claims);
      AssignAllOutputs(cfg, s3, worker, PollMax(max), sorted, |sorted|, now, o.choices);
    }
  }

  lemma SubmitOutputs(cfg: Config, s: State, sub: Submission, now: int, r: TaskRef)
    requires SubmitAllowed(cfg, s, sub) && r in AddJob(cfg, s, sub, now).tasks
    ensures var t := AddJob(cfg, s, sub, now).tasks[r];
      if r.jobId == sub.jobId then t.outputUri == "" && t.status == Queued else r in s.tasks && t == s.tasks[r]
  {
    SubmittedTask(cfg, s, sub, now, r);
  }

  lemma ReportOutputs(s: State, req: ReportReq, listing: seq<TaskRef>, now: int, r: TaskRef)
    requires r in Report(s, req, listing, now).tasks
    ensures var t := Report(s, req, listing, now).tasks[r];
      if Judge(s, req).Accept? && r == req.ref
      then t.outputUri == req.outputUri && (t.status == Completed ==> req.status == SaysCompleted)
      else r in s.tasks && t == s.tasks[r]
  {
    hide StatusOf, ReadyRefs, WithModel, RetryBackoff;
    assert Judge(s.(clock := now), req) == Judge(s, req);
  }

  lemma StepOutputs(cfg: Config, s: State, a: Action, now: int, r: TaskRef, last: Option<ReportReq>)
    requires r in Step(cfg, s, a, now).tasks && (r in s.tasks ==> Agrees(s.tasks[r], last))
    ensures Agrees(Step(cfg, s, a, now).tasks[r],
      if Resubmits(cfg, s, a, r) then None else if Tells(s, a, r) then Some(a.req) else last)
  {
    hide PollAssignments, Report, AddJob, Extendable, Extended, CanceledTask, SubmitAllowed;
    match a
    case Submit(sub) =>
      if SubmitAllowed(cfg, s, sub) { SubmitOutputs(cfg, s, sub, now, r); } else { Denied(cfg, s, sub, now); }
    case Poll(w, max, o) => PollOutputs(cfg, s, w, max, now, o);
    case Tell(req, listing) => ReportOutputs(s, req, listing, now, r);
    case Pulse(w, b) => BeatOutputs(cfg, s, w, b, now);
    case Cancel(j) => CancelOutputs(s, j, now);
    case Archive(j) =>
    case Register(id, w) =>
    case Revive(refs) =>
  }

  lemma Denied(cfg: Config, s: State, sub: Submission, now: int)
    requires !SubmitAllowed(cfg, s, sub)
    ensures AddJob(cfg, s, sub, now).tasks == s.tasks
  {
  }

  lemma BeatOutputs(cfg: Config, s: State, w: string, b: Beat, now: int)
    ensures OutputsKept(s.tasks, Heartbeat(cfg, s, w, b, now).tasks)
  {
    hide LeaseExpiry, Extendable;
  }

  lemma CancelOutputs(s: State, j: string, now: int)
    ensures OutputsKept(s.tasks, CancelJob(s, j, now).tasks)
  {
  }

  // ---------- over a run ----------

  /** In every state of every run, what is stored of a task's output is what the last accepted report on it said. */
  lemma {:induction false} StoredOutput(cfg: Config, states: seq<State>, calls: seq<Call>, n: nat, r: TaskRef)
    requires Run(cfg, states, calls) && n <= |calls| && r in states[n].tasks
    ensures Agrees(states[n].tasks[r], LastReport(cfg, states, calls, n, r))
  {
    hide Step, Legal, Agrees, Resubmits, Tells;
    if n > 0 {
      assert Follows(cfg, states, calls, n - 1);
      if r in states[n - 1].tasks {
        StoredOutput(cfg, states, calls, n - 1, r);
      }
      StepOutputs(cfg, states[n - 1], calls[n - 1].action, calls[n - 1].now, r, LastReport(cfg, states, calls, n - 1, r));
    }
  }

  /** Every hand-out of every run carries, for each dependency of its task, the URI that the last accepted report on that
      dependency gave, and that report said it was completed. */
  lemma HandOutCarriesReports(cfg: Config, states: seq<State>, calls: seq<Call>, n: nat, i: nat, d: string)
    requires Run(cfg, states, calls) && n < |calls|
    requires |states[n].log| <= i < |states[n + 1].log| && states[n + 1].log[i].HandedOut?
    requires var ref := states[n + 1].log[i].given.ref; ref in states[n + 1].tasks && d in states[n + 1].tasks[ref].deps
    ensures var given := states[n + 1].log[i].given;
      var last := LastReport(cfg, states, calls, n, TaskRef(given.ref.jobId, d));
      && last.Some? && last.value.status == SaysCompleted
      && "dep:" + d + ":output_uri" in given.inputs
      && given.inputs["dep:" + d + ":output_uri"] == last.value.outputUri
  {
    hide Step, Legal, LastReport;
    var s, e := states[n + 1], states[n + 1].log[i];
    var r := TaskRef(e.given.ref.jobId, d);
    assert Follows(cfg, states, calls, n);
    StepFair(cfg, states[n], calls[n].action, calls[n].now, i);
    var k :| 0 <= k < |s.tasks[e.given.ref].deps| && s.tasks[e.given.ref].deps[k] == d;
    assert DepDone(s.tasks, r.jobId, s.tasks[e.given.ref].deps[k]) && CarriesOutput(s, e.given, s.tasks[e.given.ref].deps[k]);
    StoredOutput(cfg, states, calls, n + 1, r);
    PollsTellNothing(cfg, states, calls, n, r);
  }

  lemma PollsTellNothing(cfg: Config, states: seq<State>, calls: seq<Call>, n: nat, r: TaskRef)
    requires |states| == |calls| + 1 && n < |calls| && calls[n].action.Poll?
    ensures LastReport(cfg, states, calls, n + 1, r) == LastReport(cfg, states, calls, n, r)
  {
  }
}
