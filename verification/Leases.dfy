/** Lease identifiers and their deadlines (newLeaseID, leaseStartFromID, taskAttemptDeadline,
    retryBackoff in internal/scheduler/engine.go). */
module Leases {
  import opened Text
  import opened Records

  const SECOND: int := 1_000_000_000

  function NewLeaseId(worker: string, taskId: string, attempt: int, now: int): string {
    worker + ":" + taskId + ":" + IntText(attempt) + ":" + IntText(now)
  }

  /** The time a lease id carries in its last field, if it has the right shape. */
  function LeaseStart(leaseId: string): (r: Option<int>) {
    var parts := Split(leaseId, ':');
    if |parts| < 4 then None
    else
      match ParseInt(parts[|parts| - 1])
      case None => None
      case Some(nanos) => if nanos <= 0 then None else Some(nanos)
  }

  /** The latest time the current attempt may run to, when the task has a timeout. */
  function AttemptDeadline(task: Task, fallback: int): Option<int> {
    if task.timeoutSec <= 0 then None
    else
      var start := match LeaseStart(task.leaseId) case Some(t) => t case None => fallback;
      Some(start + task.timeoutSec * SECOND)
  }

  /** The lease expiry set at `now`: one lease duration ahead, but not past the attempt's deadline. */
  function LeaseExpiry(task: Task, now: int, leaseNanos: int): int {
    match AttemptDeadline(task, now)
    case Some(d) => if d < now + leaseNanos then d else now + leaseNanos
    case None => now + leaseNanos
  }

  function Pow2(n: nat): nat { if n == 0 then 1 else 2 * Pow2(n - 1) }

  function RetryBackoff(attempt: int): int {
    var a := if attempt <= 0 then 1 else attempt;
    Pow2(if a - 1 < 5 then a - 1 else 5) * SECOND
  }

  /** Fields of a lease id, however many colons the worker and task ids contain. */
  lemma LeaseFields(worker: string, taskId: string, attempt: int, now: int)
    ensures Split(NewLeaseId(worker, taskId, attempt, now), ':')
         == Split(worker, ':') + Split(taskId, ':') + [IntText(attempt)] + [IntText(now)]
  {
    IntTextChars(attempt);
    IntTextChars(now);
    var wt := worker + ":" + taskId;
    var wta := wt + ":" + IntText(attempt);
    assert NewLeaseId(worker, taskId, attempt, now) == wta + ":" + IntText(now);
    SplitJoin(wta, ':', IntText(now));
    SplitJoin(wt, ':', IntText(attempt));
    SplitJoin(worker, ':', taskId);
    SplitAtom(IntText(attempt), ':');
    SplitAtom(IntText(now), ':');
  }

  /** leaseStartFromID recovers the time that newLeaseID encoded. */
  lemma LeaseStartRoundTrip(worker: string, taskId: string, attempt: int, now: int)
    requires 0 < now <= INT64_MAX
    ensures LeaseStart(NewLeaseId(worker, taskId, attempt, now)) == Some(now)
  {
    LeaseFields(worker, taskId, attempt, now);
    ParseIntText(now);
    var parts := Split(NewLeaseId(worker, taskId, attempt, now), ':');
    assert parts[|parts| - 1] == IntText(now);
  }

  /** Lease ids of one task agree only if their attempt numbers agree, colons notwithstanding. */
  lemma LeaseIdAttempt(w1: string, w2: string, taskId: string, a1: int, a2: int, n1: int, n2: int)
    requires NewLeaseId(w1, taskId, a1, n1) == NewLeaseId(w2, taskId, a2, n2)
    ensures a1 == a2 && n1 == n2
  {
    LeaseFields(w1, taskId, a1, n1);
    LeaseFields(w2, taskId, a2, n2);
    var p := Split(NewLeaseId(w1, taskId, a1, n1), ':');
    assert p[|p| - 2] == IntText(a1) == IntText(a2);
    assert p[|p| - 1] == IntText(n1) == IntText(n2);
    IntTextInjective(a1, a2);
    IntTextInjective(n1, n2);
  }

  lemma LeaseIdNonEmpty(worker: string, taskId: string, attempt: int, now: int)
    ensures NewLeaseId(worker, taskId, attempt, now) != ""
  {
    assert |NewLeaseId(worker, taskId, attempt, now)| >= 3;
  }

  /** Backoff doubles from one second and is capped at 32 seconds. */
  lemma BackoffRange(attempt: int)
    ensures SECOND <= RetryBackoff(attempt) <= 32 * SECOND
    ensures 1 <= attempt <= 5 ==> RetryBackoff(attempt + 1) == 2 * RetryBackoff(attempt)
    ensures attempt >= 6 ==> RetryBackoff(attempt) == 32 * SECOND
  {
    assert Pow2(0) == 1 && Pow2(1) == 2 && Pow2(2) == 4 && Pow2(3) == 8 && Pow2(4) == 16 && Pow2(5) == 32;
    var a := if attempt <= 0 then 1 else attempt;
    var e := if a - 1 < 5 then a - 1 else 5;
    assert e == 0 || e == 1 || e == 2 || e == 3 || e == 4 || e == 5;
  }
}
