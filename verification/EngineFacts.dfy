/** Facts that tie the engine's loops to Scheduler's one-step descriptions. */
module EngineFacts {
  import opened Text
  import opened Records
  import opened Listings
  import opened Dag
  import opened Placement
  import opened Scheduler
  import opened MemoryStore
  import Sorting

  // ---------- records rewritten one by one ----------

  /** The records in `done` rewritten by f, the others as they were. */
  function Patched(tasks: map<TaskRef, Task>, done: seq<TaskRef>, f: Task -> Task): map<TaskRef, Task> {
    map r | r in tasks :: if r in done then f(tasks[r]) else tasks[r]
  }

  lemma PatchedNothing(tasks: map<TaskRef, Task>, f: Task -> Task)
    ensures Patched(tasks, [], f) == tasks
  {
  }

  lemma PatchedPush(tasks: map<TaskRef, Task>, refs: seq<TaskRef>, i: nat, f: Task -> Task)
    requires i < |refs| && refs[i] in tasks
    ensures Patched(tasks, refs[..i + 1], f) == Patched(tasks, refs[..i], f)[refs[i] := f(tasks[refs[i]])]
  {
    assert refs[..i + 1] == refs[..i] + [refs[i]];
  }

  /** A record the rewriting would not change may as well be skipped. */
  lemma PatchedSkip(tasks: map<TaskRef, Task>, refs: seq<TaskRef>, i: nat, f: Task -> Task)
    requires i < |refs| && refs[i] in tasks && f(tasks[refs[i]]) == tasks[refs[i]]
    ensures Patched(tasks, refs[..i + 1], f) == Patched(tasks, refs[..i], f)
  {
    assert refs[..i + 1] == refs[..i] + [refs[i]];
  }

  lemma PatchedCancel(tasks: map<TaskRef, Task>, refs: seq<TaskRef>, jobId: string, now: int)
    requires Lists(refs, set r | r in tasks && r.jobId == jobId)
    ensures Patched(tasks, refs, t => CanceledTask(t, now))
         == map r | r in tasks :: if r.jobId == jobId then CanceledTask(tasks[r], now) else tasks[r]
  {
  }

  /** The tasks running on a worker or assigned to it. */
  ghost function Busy(tasks: map<TaskRef, Task>, worker: string): set<TaskRef> {
    set r | r in tasks && OnWorker(tasks[r], worker) && (tasks[r].status == Running || tasks[r].status == Assigned)
  }

  function BeatTask(cfg: Config, worker: string, now: int): Task -> Task {
    (t: Task) => if Extendable(t, worker, now) then Extended(cfg, t, now) else t
  }

  lemma PatchedHeartbeat(cfg: Config, tasks: map<TaskRef, Task>, refs: seq<TaskRef>, worker: string, now: int)
    requires Lists(refs, Busy(tasks, worker))
    ensures Patched(tasks, refs, BeatTask(cfg, worker, now))
         == map r | r in tasks :: if Extendable(tasks[r], worker, now) then Extended(cfg, tasks[r], now) else tasks[r]
  {
  }

  lemma PatchedExpiry(tasks: map<TaskRef, Task>, listing: seq<TaskRef>, now: int)
    requires Lists(listing, tasks.Keys)
    ensures Patched(tasks, Filter(listing, Test(tasks, (r, t: Task) => Expired(t, now))), t => ExpiredTask(t, now))
         == AfterExpiry(tasks, now)
  {
  }

  /** Two listings by status make one listing of the busy tasks. */
  lemma BusyListed(tasks: map<TaskRef, Task>, worker: string, l1: seq<TaskRef>, l2: seq<TaskRef>)
    requires Lists(l1, tasks.Keys) && Lists(l2, tasks.Keys)
    ensures Lists(Filter(l1, Test(tasks, (r, t: Task) => OnWorker(t, worker) && t.status == Running))
                + Filter(l2, Test(tasks, (r, t: Task) => OnWorker(t, worker) && t.status == Assigned)),
                  Busy(tasks, worker))
  {
    var isRunning := Test(tasks, (r, t: Task) => OnWorker(t, worker) && t.status == Running);
    var isAssigned := Test(tasks, (r, t: Task) => OnWorker(t, worker) && t.status == Assigned);
    FilterDistinct(l1, tasks.Keys, isRunning);
    FilterDistinct(l2, tasks.Keys, isAssigned);
    var all, left := Busy(tasks, worker), Kept(tasks.Keys, isAssigned);
    assert all - left == Kept(tasks.Keys, isRunning);
    ListsJoin(Filter(l1, isRunning), Filter(l2, isAssigned), all, left);
  }

  lemma RowsJoin(a: seq<Row>, b: seq<Row>, tasks: map<TaskRef, Task>)
    requires Stored(a, tasks) && Stored(b, tasks)
    ensures Stored(a + b, tasks) && RowRefs(a + b) == RowRefs(a) + RowRefs(b)
  {
  }

  // ---------- submissions ----------

  function NewRows(sub: Submission, dag: seq<DagTask>, now: int): seq<Row> {
    if |dag| == 0 then []
    else
      var last := dag[|dag| - 1];
      NewRows(sub, dag[..|dag| - 1], now) + [Row(TaskRef(sub.jobId, last.taskId), NewTask(sub, last, now))]
  }

  lemma {:induction false} PutAllIsPutTasks(tasks: map<TaskRef, Task>, sub: Submission, dag: seq<DagTask>, now: int)
    ensures PutAll(tasks, sub.jobId, NewRows(sub, dag, now)) == PutTasks(tasks, sub, dag, now)
  {
    if |dag| > 0 {
      var n := |dag| - 1;
      var rows := NewRows(sub, dag, now);
      assert rows[..|rows| - 1] == NewRows(sub, dag[..n], now);
      PutAllIsPutTasks(tasks, sub, dag[..n], now);
    }
  }

  // ---------- job status ----------

  function Failures(rows: seq<Row>, status: Status): nat {
    if |rows| == 0 then 0
    else Failures(rows[..|rows| - 1], status) + if rows[|rows| - 1].task.status == status then 1 else 0
  }

  lemma {:induction false} SomeWith(rows: seq<Row>, status: Status)
    ensures Failures(rows, status) <= |rows|
    ensures Failures(rows, status) > 0 <==> exists i :: 0 <= i < |rows| && rows[i].task.status == status
    ensures Failures(rows, status) == |rows| <==> forall i :: 0 <= i < |rows| ==> rows[i].task.status == status
  {
    if |rows| > 0 {
      var n := |rows| - 1;
      SomeWith(rows[..n], status);
    }
  }

  lemma CountsGiveStatus(tasks: map<TaskRef, Task>, jobId: string, rows: seq<Row>)
    requires Stored(rows, tasks) && Lists(RowRefs(rows), set r | r in tasks && r.jobId == jobId)
    ensures StatusOf(tasks, jobId)
         == if Failures(rows, Failed) > 0 then Failed
            else if Failures(rows, Completed) == |rows| && |rows| > 0 then Completed
            else Running
  {
    SomeWith(rows, Failed);
    SomeWith(rows, Completed);
    var refs := RowRefs(rows);
    assert forall i :: 0 <= i < |rows| ==> refs[i] == rows[i].ref && refs[i] in refs;
    assert forall r :: r in tasks && r.jobId == jobId ==> r in refs;
    assert AnyFailed(tasks, jobId) <==> Failures(rows, Failed) > 0;
    assert HasTasks(tasks, jobId) <==> |rows| > 0;
    assert AllCompleted(tasks, jobId) <==> Failures(rows, Completed) == |rows|;
  }

  // ---------- sorting records and sorting refs ----------

  lemma {:induction false} InsertRefs(row: Row, rows: seq<Row>, byRow: (Row, Row) -> bool, byRef: (TaskRef, TaskRef) -> bool)
    requires forall i :: 0 <= i < |rows| ==> byRow(rows[i], row) == byRef(rows[i].ref, row.ref)
    ensures RowRefs(Sorting.Insert(row, rows, byRow)) == Sorting.Insert(row.ref, RowRefs(rows), byRef)
  {
    if |rows| > 0 && byRow(rows[0], row) {
      InsertRefs(row, rows[1..], byRow, byRef);
      assert RowRefs(rows)[1..] == RowRefs(rows[1..]);
    }
  }

  lemma {:induction false} SortRefs(rows: seq<Row>, byRow: (Row, Row) -> bool, byRef: (TaskRef, TaskRef) -> bool)
    requires forall a, b :: a in rows && b in rows ==> byRow(a, b) == byRef(a.ref, b.ref)
    ensures RowRefs(Sorting.StableSort(rows, byRow)) == Sorting.StableSort(RowRefs(rows), byRef)
  {
    if |rows| > 0 {
      var rest := rows[1..];
      assert rows == [rows[0]] + rest;
      SortRefs(rest, byRow, byRef);
      Sorting.SortMembers(rest, byRow);
      var sorted := Sorting.StableSort(rest, byRow);
      forall i | 0 <= i < |sorted| ensures byRow(sorted[i], rows[0]) == byRef(sorted[i].ref, rows[0].ref) {
        assert sorted[i] in rest;
      }
      InsertRefs(rows[0], sorted, byRow, byRef);
      assert RowRefs(rows)[1..] == RowRefs(rest);
    }
  }

  lemma {:induction false} InsertSame<T(!new)>(x: T, s: seq<T>, f: (T, T) -> bool, g: (T, T) -> bool)
    requires forall a, b :: f(a, b) == g(a, b)
    ensures Sorting.Insert(x, s, f) == Sorting.Insert(x, s, g)
  {
    if |s| > 0 {
      InsertSame(x, s[1..], f, g);
    }
  }

  lemma {:induction false} SortSame<T(!new)>(s: seq<T>, f: (T, T) -> bool, g: (T, T) -> bool)
    requires forall a, b :: f(a, b) == g(a, b)
    ensures Sorting.StableSort(s, f) == Sorting.StableSort(s, g)
  {
    if |s| > 0 {
      SortSame(s[1..], f, g);
      InsertSame(s[0], Sorting.StableSort(s[1..], f), f, g);
    }
  }

  lemma {:induction false} FilterAll<T(!new)>(s: seq<T>, keep: T -> bool)
    requires forall x :: x in s ==> keep(x)
    ensures Filter(s, keep) == s
  {
    if |s| > 0 {
      assert s == [s[0]] + s[1..];
      FilterAll(s[1..], keep);
    }
  }

  lemma {:induction false} FilterNone<T(!new)>(s: seq<T>, keep: T -> bool)
    requires forall x :: x in s ==> !keep(x)
    ensures Filter(s, keep) == []
  {
    if |s| > 0 {
      assert s == [s[0]] + s[1..];
      FilterNone(s[1..], keep);
    }
  }

  // ---------- choices ----------

  /** The assignment loop looks only at the choices made so far. */
  lemma {:induction false} ChoicesSoFar(cfg: Config, s: State, worker: string, max: int, claims: seq<Claim>, n: nat,
                                        now: int, choices: seq<Choice>, more: seq<Choice>)
    requires n <= |claims| && n <= |choices|
    ensures AssignAll(cfg, s, worker, max, claims, n, now, choices + more)
         == AssignAll(cfg, s, worker, max, claims, n, now, choices)
  {
    hide AssignOne;
    if n > 0 {
      ChoicesSoFar(cfg, s, worker, max, claims, n - 1, now, choices, more);
      assert ChoiceAt(choices + more, n - 1) == ChoiceAt(choices, n - 1);
    }
  }

  // ---------- lease expiry ----------

  lemma {:induction false} FilterTwice<T(!new)>(s: seq<T>, f: T -> bool, g: T -> bool, both: T -> bool)
    requires forall x :: both(x) == (f(x) && g(x))
    ensures Filter(Filter(s, f), g) == Filter(s, both)
  {
    if |s| > 0 {
      FilterTwice(s[1..], f, g, both);
      if f(s[0]) {
        assert ([s[0]] + Filter(s[1..], f))[1..] == Filter(s[1..], f);
      }
    }
  }

  /** The test for expired leases that go back to the queue. */
  function GoesBack(tasks: map<TaskRef, Task>, now: int): TaskRef -> bool {
    r => r in tasks && ExpiredTask(tasks[r], now).status == Queued
  }

  lemma RequeuedOf(tasks: map<TaskRef, Task>, listing: seq<TaskRef>, now: int)
    ensures Filter(Filter(listing, Test(tasks, (r, t: Task) => Expired(t, now))), GoesBack(tasks, now))
         == Requeued(tasks, listing, now)
  {
    FilterTwice(listing, Test(tasks, (r, t: Task) => Expired(t, now)), GoesBack(tasks, now),
                (r: TaskRef) => r in tasks && Expired(tasks[r], now) && ExpiredTask(tasks[r], now).status == Queued);
  }

  function JobIds(refs: seq<TaskRef>): set<string> { set r | r in refs :: r.jobId }

  lemma JobIdsPush(refs: seq<TaskRef>, i: nat)
    requires i < |refs|
    ensures JobIds(refs[..i + 1]) == JobIds(refs[..i]) + {refs[i].jobId}
  {
    assert refs[..i + 1] == refs[..i] + [refs[i]];
    forall j ensures j in JobIds(refs[..i + 1]) <==> j in JobIds(refs[..i]) + {refs[i].jobId} {
      if j == refs[i].jobId {
        assert refs[i] in refs[..i + 1];
      }
    }
  }

  lemma AffectedListed(tasks: map<TaskRef, Task>, listing: seq<TaskRef>, now: int)
    requires Lists(listing, tasks.Keys)
    ensures forall j :: j in JobIds(Filter(listing, Test(tasks, (r, t: Task) => Expired(t, now)))) <==> Affected(tasks, j, now)
  {
  }

  /** The jobs in `done` brought in line with their tasks. */
  function ReconciledJobs(jobs: map<string, Job>, tasks: map<TaskRef, Task>, done: set<string>): map<string, Job> {
    map j | j in jobs :: if j in done then Reconciled(jobs[j], tasks, j) else jobs[j]
  }

  function ReconciledJob(jobs: map<string, Job>, tasks: map<TaskRef, Task>, j: string): map<string, Job> {
    if j in jobs then jobs[j := Reconciled(jobs[j], tasks, j)] else jobs
  }

  lemma ReconciledMore(jobs: map<string, Job>, tasks: map<TaskRef, Task>, done: set<string>, j: string)
    requires j !in done
    ensures ReconciledJob(ReconciledJobs(jobs, tasks, done), tasks, j) == ReconciledJobs(jobs, tasks, done + {j})
  {
  }

  lemma ReconciledNothing(jobs: map<string, Job>, tasks: map<TaskRef, Task>)
    ensures ReconciledJobs(jobs, tasks, {}) == jobs
  {
  }

  lemma ReconciledAll(jobs: map<string, Job>, tasks: map<TaskRef, Task>, was: map<TaskRef, Task>, done: set<string>, now: int)
    requires forall j :: j in done <==> Affected(was, j, now)
    ensures ReconciledJobs(jobs, tasks, done)
         == map j | j in jobs :: if Affected(was, j, now) then Reconciled(jobs[j], tasks, j) else jobs[j]
  {
  }

  // ---------- choosing a worker ----------

  function Usage(usage: map<string, nat>, worker: string): nat { if worker in usage then usage[worker] else 0 }

  /** Records of the stage that sit on a given worker, or on any if it is None. */
  function StageTest(tasks: map<TaskRef, Task>, key: string): TaskRef -> bool {
    r => r in tasks && StageKey(tasks[r].deps) == key
  }

  function PlacedTest(tasks: map<TaskRef, Task>, key: string, worker: string): TaskRef -> bool {
    r => r in tasks && StageKey(tasks[r].deps) == key && Trim(tasks[r].worker) != "" && tasks[r].worker == worker
  }

  lemma StageCounts(tasks: map<TaskRef, Task>, jobId: string, key: string, refs: seq<TaskRef>, worker: string)
    requires Lists(refs, set r | r in tasks && r.jobId == jobId)
    ensures |Filter(refs, StageTest(tasks, key))| == |Stage(tasks, jobId, key)|
    ensures |Filter(refs, PlacedTest(tasks, key, worker))| == |OnStage(tasks, jobId, key, worker)|
  {
    hide Lists, StageKey;
    var all := set r | r in tasks && r.jobId == jobId;
    FilterCounts(refs, all, StageTest(tasks, key));
    FilterCounts(refs, all, PlacedTest(tasks, key, worker));
    assert Kept(all, StageTest(tasks, key)) == Stage(tasks, jobId, key);
    assert Kept(all, PlacedTest(tasks, key, worker)) == OnStage(tasks, jobId, key, worker);
  }

  /** The stage counts matter to a score only if the job spreads. */
  lemma ScoreSpread(weights: Weights, task: Task, w: Worker, running: nat, u1: nat, u2: nat, spread: bool, now: int)
    requires spread ==> u1 == u2
    ensures Score(weights, task, w, running, u1, spread, now) == Score(weights, task, w, running, u2, spread, now)
  {
  }

  lemma {:induction false} CountListed(listing: seq<string>, s: set<string>, eligible: string -> bool)
    requires Lists(listing, s)
    ensures Count(listing, eligible) == |Kept(s, eligible)|
  {
    if |listing| == 0 {
      assert forall x :: x in s ==> x in listing;
      assert Kept(s, eligible) == {};
    } else {
      var first := listing[0];
      ListsTail(listing, s);
      CountListed(listing[1..], s - {first}, eligible);
      KeptMore(s - {first}, first, eligible);
      assert s - {first} + {first} == s;
    }
  }

  function EligibleWorkers(s: State, ref: TaskRef): set<string>
    requires ref in s.tasks
  {
    set id | id in s.workers && EligibleFor(s, ref, id)
  }

  /** The chosen worker is eligible and no eligible worker scores more than the slack higher; none is chosen only
      if none is eligible (a worker registered under the empty id counts as none). */
  ghost predicate NearBest(cfg: Config, s: State, ref: TaskRef, chosen: string, now: int)
    requires ref in s.tasks && ref.jobId in s.jobs
  {
    var all := EligibleWorkers(s, ref);
    && (chosen != "" ==>
          && chosen in all
          && forall id :: id in all ==> ScoreFor(cfg, s, ref, id, now) <= ScoreFor(cfg, s, ref, chosen, now) + Slack(|all|))
    && (chosen == "" ==> all == {} || "" in all)
  }

  lemma BestIsNearBest(cfg: Config, s: State, ref: TaskRef, listing: seq<string>, now: int)
    requires ref in s.tasks && ref.jobId in s.jobs && Lists(listing, s.workers.Keys)
    ensures NearBest(cfg, s, ref, BestWorker(cfg, s, ref, listing, now), now)
  {
    hide EligibleFor, ScoreFor, Consider;
    var eligible := id => EligibleFor(s, ref, id);
    var score := id => ScoreFor(cfg, s, ref, id, now);
    var tie := id => cfg.tie(TaskKey(ref), id);
    ChosenIsNearBest(listing, eligible, score, tie);
    CountListed(listing, s.workers.Keys, eligible);
    var all := EligibleWorkers(s, ref);
    assert Kept(s.workers.Keys, eligible) == all;
    forall id | id in all ensures exists i :: 0 <= i < |listing| && listing[i] == id && eligible(listing[i]) {
      assert id in listing;
    }
  }

  lemma SelectSplit(listing: seq<string>, i: nat, eligible: string -> bool, score: string -> real, tie: string -> nat, b: Best)
    requires i < |listing|
    ensures Select(listing[i..], eligible, score, tie, b)
         == Select(listing[i + 1..], eligible, score, tie,
                   if eligible(listing[i]) then Consider(b, listing[i], score(listing[i]), tie(listing[i])) else b)
  {
    assert listing[i..][1..] == listing[i + 1..];
  }

  function ReadyTest(tasks: map<TaskRef, Task>): TaskRef -> bool { r => Ready(tasks, r) }

  /** A listing of one job's tasks grows to one of all tasks without changing what is picked from the job. */
  lemma ReadyListed(tasks: map<TaskRef, Task>, jobId: string, refs: seq<TaskRef>, others: seq<TaskRef>)
    requires Lists(refs, set r | r in tasks && r.jobId == jobId)
    requires Lists(others, set r | r in tasks && r.jobId != jobId)
    ensures Lists(refs + others, tasks.Keys)
    ensures ReadyRefs(tasks, jobId, refs + others) == Filter(refs, ReadyTest(tasks))
  {
    var mine, rest := set r | r in tasks && r.jobId == jobId, set r | r in tasks && r.jobId != jobId;
    assert tasks.Keys - rest == mine;
    ListsJoin(refs, others, tasks.Keys, rest);
    var pick := (r: TaskRef) => r.jobId == jobId && Ready(tasks, r);
    FilterJoin(refs, others, pick);
    FilterNone(others, pick);
    FilterAgree(refs, pick, ReadyTest(tasks));
  }
}
