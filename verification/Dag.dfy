/** The task graph of a submission (internal/planner/planner.go). */
module Dag {
  import opened Text

  datatype Resources = Resources(cpu: int, memory: string, gpu: bool)

  datatype DagTask = DagTask(
    taskId: string,
    typ: string,
    inputs: map<string, string>,
    deps: seq<string>,
    timeoutSec: int,
    maxRetries: int,
    resources: Option<Resources>,
    dataLocality: Option<string>)

  predicate UniqueIds(tasks: seq<DagTask>) {
    forall i, j :: 0 <= i < j < |tasks| ==> tasks[i].taskId != tasks[j].taskId
  }

  predicate HasId(tasks: seq<DagTask>, id: string) {
    exists i :: 0 <= i < |tasks| && tasks[i].taskId == id
  }

  /** Every dependency names a task of the graph. */
  predicate Closed(tasks: seq<DagTask>) {
    forall i, d :: 0 <= i < |tasks| && d in tasks[i].deps ==> HasId(tasks, d)
  }

  /** rank witnesses acyclicity: each dependency ranks below the task that needs it. */
  ghost predicate RankedBy(tasks: seq<DagTask>, rank: string -> nat) {
    forall i, d :: 0 <= i < |tasks| && d in tasks[i].deps ==> rank(d) < rank(tasks[i].taskId)
  }

  ghost predicate Acyclic(tasks: seq<DagTask>) {
    exists rank: string -> nat :: RankedBy(tasks, rank)
  }
}
