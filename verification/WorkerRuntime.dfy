/** The reports a worker sends for its assignments (worker/internal/runtime/runtime.go): a Running report, then a
    final one, under idempotency keys built from worker, job, task and attempt. */
module WorkerRuntime {
  import opened Text
  import opened Records
  import opened Scheduler

  function IdempotencyKey(worker: string, ref: TaskRef, attempt: int): string {
    worker + ":" + ref.jobId + ":" + ref.taskId + ":" + IntText(attempt)
  }

  function RunningKey(worker: string, ref: TaskRef, attempt: int): string {
    IdempotencyKey(worker, ref, attempt) + ":running"
  }

  /** How executing an assignment went: an artifact, or an error. */
  datatype Outcome = Produced(uri: string) | Broke

  function RunningReport(worker: string, a: Assignment): ReportReq {
    ReportReq(worker, a.ref, a.leaseId, RunningKey(worker, a.ref, a.attempt), SaysRunning, "")
  }

  function FinalReport(worker: string, a: Assignment, o: Outcome): ReportReq {
    ReportReq(worker, a.ref, a.leaseId, IdempotencyKey(worker, a.ref, a.attempt),
              if o.Produced? then SaysCompleted else SaysOther, if o.Produced? then o.uri else "")
  }

  /** What one poll's assignments make a worker send: for each, the Running report and then the final one. */
  function Sent(worker: string, assignments: seq<Assignment>, outcomes: seq<Outcome>): (sent: seq<ReportReq>)
    requires |outcomes| == |assignments|
    ensures |sent| == 2 * |assignments|
  {
    if |assignments| == 0 then []
    else
      var n := |assignments| - 1;
      Sent(worker, assignments[..n], outcomes[..n])
      + [RunningReport(worker, assignments[n]), FinalReport(worker, assignments[n], outcomes[n])]
  }

  /** The two reports for assignments[i] stand at positions 2i and 2i + 1, so reports go out in the order of the
      assignments, Running first. */
  ghost predicate PairAt(sent: seq<ReportReq>, i: nat, running: ReportReq, final: ReportReq) {
    2 * i + 1 < |sent| && sent[2 * i] == running && sent[2 * i + 1] == final
  }

  lemma PairOfLast(sent: seq<ReportReq>, n: nat, running: ReportReq, final: ReportReq)
    requires |sent| == 2 * n
    ensures PairAt(sent + [running, final], n, running, final)
  {
  }

  lemma PairStays(sent: seq<ReportReq>, more: seq<ReportReq>, i: nat, running: ReportReq, final: ReportReq)
    requires PairAt(sent, i, running, final)
    ensures PairAt(sent + more, i, running, final)
  {
  }

  lemma {:induction false} SentInOrder(worker: string, assignments: seq<Assignment>, outcomes: seq<Outcome>, i: nat)
    requires |outcomes| == |assignments| && i < |assignments|
    ensures PairAt(Sent(worker, assignments, outcomes), i,
                   RunningReport(worker, assignments[i]), FinalReport(worker, assignments[i], outcomes[i]))
  {
    hide PairAt, RunningReport, FinalReport;
    var n := |assignments| - 1;
    var earlier := Sent(worker, assignments[..n], outcomes[..n]);
    var running, final := RunningReport(worker, assignments[n]), FinalReport(worker, assignments[n], outcomes[n]);
    if i < n {
      SentInOrder(worker, assignments[..n], outcomes[..n], i);
      PairStays(earlier, [running, final], i,
                RunningReport(worker, assignments[i]), FinalReport(worker, assignments[i], outcomes[i]));
    } else {
      PairOfLast(earlier, n, running, final);
    }
  }

  /** pollAndRun over the assignments of one poll. */
  method PollAndRun(worker: string, assignments: seq<Assignment>, outcomes: seq<Outcome>) returns (sent: seq<ReportReq>)
    requires |outcomes| == |assignments|
    ensures sent == Sent(worker, assignments, outcomes)
  {
    sent := [];
    for k := 0 to |assignments|
      invariant sent == Sent(worker, assignments[..k], outcomes[..k])
    {
      ghost var as', os := assignments[..k + 1], outcomes[..k + 1];
      assert as'[..k] == assignments[..k] && os[..k] == outcomes[..k];
      sent := sent + [RunningReport(worker, assignments[k])];
      sent := sent + [FinalReport(worker, assignments[k], outcomes[k])];
    }
    assert assignments[..|assignments|] == assignments && outcomes[..|outcomes|] == outcomes;
  }

  // ---------- keys tell reports apart ----------

  lemma KeyFields(worker: string, ref: TaskRef, attempt: int)
    ensures Split(IdempotencyKey(worker, ref, attempt), ':')
         == Split(worker, ':') + Split(ref.jobId, ':') + Split(ref.taskId, ':') + [IntText(attempt)]
  {
    IntTextChars(attempt);
    var wj := worker + ":" + ref.jobId;
    var wjt := wj + ":" + ref.taskId;
    assert IdempotencyKey(worker, ref, attempt) == wjt + ":" + IntText(attempt);
    SplitJoin(wjt, ':', IntText(attempt));
    SplitJoin(wj, ':', ref.taskId);
    SplitJoin(worker, ':', ref.jobId);
    SplitAtom(IntText(attempt), ':');
  }

  lemma KeyAttempt(w1: string, w2: string, ref: TaskRef, a1: int, a2: int)
    requires IdempotencyKey(w1, ref, a1) == IdempotencyKey(w2, ref, a2)
    ensures a1 == a2
  {
    KeyFields(w1, ref, a1);
    KeyFields(w2, ref, a2);
    var p := Split(IdempotencyKey(w1, ref, a1), ':');
    assert p[|p| - 1] == IntText(a1) == IntText(a2);
    IntTextInjective(a1, a2);
  }

  function KeyTail(ref: TaskRef, attempt: int): string {
    ":" + ref.jobId + ":" + ref.taskId + ":" + IntText(attempt)
  }

  lemma KeyHead(worker: string, ref: TaskRef, attempt: int)
    ensures IdempotencyKey(worker, ref, attempt) == worker + KeyTail(ref, attempt)
  {
  }

  /** For one task, keys agree only if the worker and the attempt agree, whatever colons the names contain. */
  lemma KeyInjective(w1: string, w2: string, ref: TaskRef, a1: int, a2: int)
    requires IdempotencyKey(w1, ref, a1) == IdempotencyKey(w2, ref, a2)
    ensures w1 == w2 && a1 == a2
  {
    KeyAttempt(w1, w2, ref, a1, a2);
    KeyHead(w1, ref, a1);
    KeyHead(w2, ref, a2);
    SameTail(w1, w2, KeyTail(ref, a1));
  }

  /** A Running key is never a final key: it ends in a letter, the other in a digit. */
  lemma PhasesDiffer(w1: string, w2: string, ref1: TaskRef, ref2: TaskRef, a1: int, a2: int)
    ensures RunningKey(w1, ref1, a1) != IdempotencyKey(w2, ref2, a2)
  {
    var r, f := RunningKey(w1, ref1, a1), IdempotencyKey(w2, ref2, a2);
    IntTextChars(a2);
    assert r[|r| - 1] == 'g';
    assert f[|f| - 1] == IntText(a2)[|IntText(a2)| - 1];
  }

  datatype Phase = Starting | Finishing

  function KeyOf(worker: string, ref: TaskRef, attempt: int, phase: Phase): string {
    if phase.Starting? then RunningKey(worker, ref, attempt) else IdempotencyKey(worker, ref, attempt)
  }

  /** For one task, report keys differ whenever worker, attempt or phase differ. */
  lemma ReportKeysDiffer(w1: string, w2: string, ref: TaskRef, a1: int, a2: int, p1: Phase, p2: Phase)
    requires KeyOf(w1, ref, a1, p1) == KeyOf(w2, ref, a2, p2)
    ensures w1 == w2 && a1 == a2 && p1 == p2
  {
    if p1 != p2 {
      PhasesDiffer(w1, w2, ref, ref, a1, a2);
      PhasesDiffer(w2, w1, ref, ref, a2, a1);
    } else {
      if p1.Starting? {
        SameTail(IdempotencyKey(w1, ref, a1), IdempotencyKey(w2, ref, a2), ":running");
      }
      KeyInjective(w1, w2, ref, a1, a2);
    }
  }

  /** So a genuine later report is never swallowed as a replay of an earlier one. */
  lemma GenuineReportNotReplay(s: State, req: ReportReq, w1: string, a1: int, p1: Phase, w2: string, a2: int, p2: Phase)
    requires req.ref in s.tasks && s.tasks[req.ref].lastReportKey == KeyOf(w1, req.ref, a1, p1)
    requires req.key == KeyOf(w2, req.ref, a2, p2)
    requires w1 != w2 || a1 != a2 || p1 != p2
    ensures !Judge(s, req).Replay?
  {
    if req.key == s.tasks[req.ref].lastReportKey {
      ReportKeysDiffer(w1, w2, req.ref, a1, a2, p1, p2);
    }
  }

  /** The two reports a worker sends for an assignment it still holds, in a job that is not closed, both land: the first makes
      the task Running under it; the second completes the task with the artifact produced, or gives the attempt back. */
  lemma ReportsLand(s: State, worker: string, a: Assignment, o: Outcome, first: seq<TaskRef>, second: seq<TaskRef>,
                    now: int, later: int)
    requires a.ref in s.tasks && a.ref.jobId in s.jobs && s.jobs[a.ref.jobId].status !in {Canceled, Archived}
    requires s.tasks[a.ref].leaseId == a.leaseId && s.tasks[a.ref].attempt == a.attempt
    requires s.tasks[a.ref].lastReportKey !in {RunningKey(worker, a.ref, a.attempt), IdempotencyKey(worker, a.ref, a.attempt)}
    ensures var s1 := Report(s, RunningReport(worker, a), first, now);
      var s2 := Report(s1, FinalReport(worker, a, o), second, later);
      && a.ref in s1.tasks && s1.tasks[a.ref].status == Running && s1.tasks[a.ref].worker == worker
      && a.ref in s2.tasks && var t := s2.tasks[a.ref];
         && (o.Produced? ==> t.status == Completed && t.outputUri == o.uri && t.worker == worker)
         && (o.Broke? ==> t.outputUri == "" && t.status == if a.attempt <= t.maxRetries then Queued else Failed)
  {
    hide StatusOf, ReadyRefs, WithModel, IdempotencyKey;
    PhasesDiffer(worker, worker, a.ref, a.ref, a.attempt, a.attempt);
  }
}
