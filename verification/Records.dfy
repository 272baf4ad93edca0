/** The records that the store and the queue hold (internal/state/types.go).
    Diagnostic text (job messages, task errors) and audit rows are not modelled. */
module Records {
  import opened Text

  /** Job and task states share one vocabulary. */
  datatype Status = Queued | Assigned | Running | Completed | Failed | Canceled | Archived

  datatype TaskRef = TaskRef(jobId: string, taskId: string)

  /** encodeTaskRef: the text form used as a key; not injective when a job id contains a bar. */
  function EncodeRef(ref: TaskRef): string { ref.jobId + "|" + ref.taskId }

  function Keys(refs: seq<TaskRef>): (keys: seq<string>)
    ensures |keys| == |refs|
  {
    seq(|refs|, i requires 0 <= i < |refs| => EncodeRef(refs[i]))
  }

  /** Times are nanoseconds since the epoch; None stands for Go's zero time. */
  datatype Task = Task(
    typ: string,
    inputs: map<string, string>,
    deps: seq<string>,
    status: Status,
    worker: string,
    leaseId: string,
    leaseExpires: Option<int>,
    attempt: int,
    maxRetries: int,
    timeoutSec: int,
    outputUri: string,
    lastReportKey: string,
    createdAt: int,
    updatedAt: int)

  datatype Job = Job(tenant: string, priority: string, status: Status)

  datatype Worker = Worker(
    cpu: int,
    gpu: bool,
    models: seq<string>,
    tools: seq<string>,
    backends: seq<string>,
    locality: string,
    health: string,
    queueDepth: int,
    runningTasks: int,
    cpuUtil: real,
    memoryUtil: real)

  datatype Claim = Claim(ref: TaskRef, receipt: string, claimedBy: string, claimedAt: int, visibleAt: int)

  function Refs(claims: seq<Claim>): (refs: seq<TaskRef>)
    ensures |refs| == |claims|
  {
    seq(|claims|, i requires 0 <= i < |claims| => claims[i].ref)
  }

  /** `listing` enumerates the set: what ranging over a Go map yields, in some order. */
  ghost predicate Lists<T(!new)>(listing: seq<T>, s: set<T>) {
    && (forall i, j :: 0 <= i < j < |listing| ==> listing[i] != listing[j])
    && (forall x :: x in listing <==> x in s)
  }

  function Filter<T(!new)>(s: seq<T>, keep: T -> bool): (r: seq<T>)
    ensures forall x :: x in r <==> x in s && keep(x)
  {
    if |s| == 0 then []
    else
      assert s == [s[0]] + s[1..];
      if keep(s[0]) then [s[0]] + Filter(s[1..], keep) else Filter(s[1..], keep)
  }
}
