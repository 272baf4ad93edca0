/** When a task is preempted, and which one. */
module PreemptionLaws {
  import opened Text
  import opened Records
  import opened Scheduler
  import Sorting

  /** A worker runs one task for every four processors: at least one, two if it has a GPU, and at most sixteen. */
  lemma CapacityOf(w: Worker)
    ensures 1 <= Capacity(w) <= 16
    ensures w.cpu > 0 && w.gpu ==> Capacity(w) >= 2
    ensures 8 <= w.cpu <= 64 ==> 4 * Capacity(w) <= w.cpu < 4 * (Capacity(w) + 1)
    ensures w.cpu < 8 && !w.gpu ==> Capacity(w) == 1
    ensures w.cpu >= 64 ==> Capacity(w) == 16
  {
  }

  /** The task is on the worker, and running or assigned. */
  ghost predicate Busy(t: Task, worker: string) {
    (worker == "" || t.worker == worker) && t.status in {Running, Assigned}
  }

  /** The listing names every task that keeps the worker busy. */
  ghost predicate Covers(listing: seq<TaskRef>, tasks: map<TaskRef, Task>, worker: string) {
    forall r :: r in tasks && Busy(tasks[r], worker) ==> r in listing
  }

  lemma NobodyListed(s: State, worker: string, rank: int)
    ensures Victim(s, worker, rank, []).None?
  {
  }

  lemma {:induction false} FirstLowerAt(s: State, candidates: seq<TaskRef>, rank: int) returns (k: nat)
    requires FirstLower(s, candidates, rank).Some?
    ensures k < |candidates| && candidates[k] == FirstLower(s, candidates, rank).value
    ensures forall m :: 0 <= m < k && candidates[m] in s.tasks ==> TaskRank(s.tasks[candidates[m]]) >= rank
  {
    hide TaskRank;
    k := 0;
    if !(candidates[0] in s.tasks && TaskRank(s.tasks[candidates[0]]) < rank) {
      k := FirstLowerAt(s, candidates[1..], rank);
      k := k + 1;
      assert forall m :: 1 <= m < |candidates| ==> candidates[m] == candidates[1..][m - 1];
    }
  }

  lemma OlderIsStrictWeak(s: State)
    ensures Sorting.StrictWeak((a: TaskRef, b: TaskRef) => UpdatedAt(s, a) < UpdatedAt(s, b))
  {
  }

  /** The victim is on the worker and of lower priority, and no other such task was updated before it. */
  lemma VictimIsOldest(s: State, worker: string, rank: int, listing: seq<TaskRef>, r: TaskRef)
    requires Victim(s, worker, rank, listing).Some? && r in listing && r in s.tasks
    requires Busy(s.tasks[r], worker) && TaskRank(s.tasks[r]) < rank
    ensures var v := Victim(s, worker, rank, listing).value;
      && v in s.tasks && Busy(s.tasks[v], worker) && TaskRank(s.tasks[v]) < rank
      && s.tasks[v].updatedAt <= s.tasks[r].updatedAt
  {
    hide TaskRank, FirstLower, Get;
    var candidates := Filter(listing, (x: TaskRef) => Occupies(s, worker, x));
    var older := (a: TaskRef, b: TaskRef) => UpdatedAt(s, a) < UpdatedAt(s, b);
    var sorted := Sorting.StableSort(candidates, older);
    OlderIsStrictWeak(s);
    Sorting.SortOrders(candidates, older);
    Sorting.SortMembers(candidates, older);
    assert r in sorted;
    var k := FirstLowerAt(s, sorted, rank);
    var j :| 0 <= j < |sorted| && sorted[j] == r;
    if k < j { assert !older(sorted[j], sorted[k]); }
  }

  /** There is a victim exactly if the worker holds a task of lower priority. */
  lemma VictimIff(s: State, worker: string, rank: int, listing: seq<TaskRef>)
    requires Covers(listing, s.tasks, worker)
    ensures Victim(s, worker, rank, listing).Some?
      <==> exists r :: r in s.tasks && Busy(s.tasks[r], worker) && TaskRank(s.tasks[r]) < rank
  {
    hide TaskRank;
    var candidates := Filter(listing, (x: TaskRef) => Occupies(s, worker, x));
    var older := (a: TaskRef, b: TaskRef) => UpdatedAt(s, a) < UpdatedAt(s, b);
    Sorting.SortMembers(candidates, older);
    if r :| r in s.tasks && Busy(s.tasks[r], worker) && TaskRank(s.tasks[r]) < rank {
      assert r in listing;
      assert r in candidates;
      assert r in Sorting.StableSort(candidates, older);
    }
    if Victim(s, worker, rank, listing).Some? {
      assert Busy(s.tasks[Victim(s, worker, rank, listing).value], worker);
    }
  }

  /** The log of one try says that v was preempted. */
  ghost predicate Preempts(s: State, s': State, v: TaskRef) {
    exists i :: |s.log| <= i < |s'.log| && s'.log[i] == Preempted(v)
  }

  /** A claim preempts a task only on a full worker, for a task of higher priority, and then the least recently updated of
      the tasks there that are of lower priority; it goes back to the queue without a lease. */
  lemma PreemptsOldest(cfg: Config, s: State, worker: string, ref: TaskRef, now: int, c: Choice, v: TaskRef)
    requires c.tasks == [] || Covers(c.tasks, s.tasks, worker)
    requires Preempts(s, TryAssign(cfg, s, worker, ref, now, c).0, v)
    ensures cfg.preempt && worker in s.workers && s.workers[worker].runningTasks >= Capacity(s.workers[worker])
    ensures ref in s.tasks && v in s.tasks && v != ref && Busy(s.tasks[v], worker)
    ensures TaskRank(s.tasks[v]) < TaskRank(s.tasks[ref])
    ensures forall r :: r in s.tasks && Busy(s.tasks[r], worker) && TaskRank(s.tasks[r]) < TaskRank(s.tasks[ref]) ==>
      s.tasks[v].updatedAt <= s.tasks[r].updatedAt
    ensures var s' := TryAssign(cfg, s, worker, ref, now, c).0;
      && v in s'.tasks && s'.tasks[v].status == Queued && s'.tasks[v].worker == "" && s'.tasks[v].leaseId == ""
      && s'.tasks[v].attempt == s.tasks[v].attempt && v in s'.queue.items
  {
    hide TaskRank, Victim, BestWorker, Capacity, AssignmentDecision, AssignmentOf, LeasedTask, DepsDone;
    var sc := Screen(cfg, s, worker, ref, now, c);
    OnlyVictims(cfg, s, worker, ref, now, sc, v);
    assert c.tasks != [] by { NobodyListed(s, worker, TaskRank(s.tasks[ref])); }
    forall r | r in s.tasks && Busy(s.tasks[r], worker) && TaskRank(s.tasks[r]) < TaskRank(s.tasks[ref])
      ensures s.tasks[v].updatedAt <= s.tasks[r].updatedAt
    {
      assert r in c.tasks;
      VictimIsOldest(s, worker, TaskRank(s.tasks[ref]), c.tasks, r);
    }
  }

  lemma OnlyVictims(cfg: Config, s: State, worker: string, ref: TaskRef, now: int, sc: Screening, v: TaskRef)
    requires ScreeningOk(s, worker, ref, now, sc) && Preempts(s, CarryOut(cfg, s, worker, ref, now, sc).0, v)
    ensures sc == GoAhead(Some(v)) && v != ref
    ensures var s' := CarryOut(cfg, s, worker, ref, now, sc).0;
      && v in s'.tasks && s'.tasks[v].status == Queued && s'.tasks[v].worker == "" && s'.tasks[v].leaseId == ""
      && s'.tasks[v].attempt == s.tasks[v].attempt && v in s'.queue.items
  {
    hide TaskRank, AssignmentDecision, AssignmentOf, LeasedTask, DepsDone;
  }
}
