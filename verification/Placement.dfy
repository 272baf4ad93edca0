/** Choosing a worker for a task (bestWorkerForTask, computeWorkerScore in internal/scheduler/engine.go).
    Scores are reals; the tie hash is an arbitrary function. */
module Placement {
  import opened Text
  import opened Records
  import Sorting

  datatype Weights = Weights(
    capabilityMatch: real, modelWarmCache: real, localityScore: real, queuePenalty: real,
    latencyPrediction: real, fairnessPenalty: real, waitAgeBonus: real, jobSpreadPenalty: real)

  // ---------- which workers may take the task ----------

  function NormalizeBackend(s: string): string {
    var l := Lower(Trim(s));
    if l == "remote-api" then "remote_api" else if l == "llamacpp" then "llama.cpp" else l
  }

  lemma NormalizedStays(s: string)
    ensures NormalizeBackend(NormalizeBackend(s)) == NormalizeBackend(s)
  {
    FoldedStays(s);
    TightStays("remote_api");
    TightStays("llama.cpp");
    assert Lower("remote_api") == "remote_api" && Lower("llama.cpp") == "llama.cpp";
    assert |"remote_api"| == 10 && |"remote-api"| == 10 && "remote_api"[6] != "remote-api"[6];
    assert |"llama.cpp"| == 9 && |"llamacpp"| == 8;
  }

  predicate IsBackendName(s: string) {
    s == "ollama" || s == "vllm" || s == "llama.cpp" || s == "remote_api"
  }

  predicate HasBackendInventory(w: Worker) {
    |w.backends| > 0 || exists i :: 0 <= i < |w.tools| && IsBackendName(NormalizeBackend(w.tools[i]))
  }

  predicate SupportsBackend(w: Worker, backend: string) {
    || NormalizeBackend(backend) == ""
    || (exists i :: 0 <= i < |w.backends| && NormalizeBackend(w.backends[i]) == NormalizeBackend(backend))
    || (exists i :: 0 <= i < |w.tools| && NormalizeBackend(w.tools[i]) == NormalizeBackend(backend))
  }

  /** What the whole listing tells about the inventory, for an llm_inference task. */
  datatype Inventory = Inventory(backends: bool, models: bool)

  function InventoryOf(task: Task, workers: map<string, Worker>): Inventory {
    if task.typ != "llm_inference" then Inventory(false, false)
    else Inventory(exists id :: id in workers && HasBackendInventory(workers[id]),
                   exists id :: id in workers && |workers[id].models| > 0)
  }

  predicate Eligible(task: Task, id: string, w: Worker, inv: Inventory) {
    var target := Trim(Get(task.inputs, "_target_worker"));
    var backend := NormalizeBackend(Get(task.inputs, "backend"));
    var model := Trim(Get(task.inputs, "model"));
    var llm := task.typ == "llm_inference";
    && (target == "" || id == target)
    && !EqualFold(w.health, "unhealthy")
    && (ParseBool(Get(task.inputs, "_requires_gpu")) ==> w.gpu)
    && (llm && backend != "" && inv.backends ==> SupportsBackend(w, backend))
    && (llm && model != "" && inv.models ==> ContainsFold(w.models, model))
  }

  // ---------- the score ----------

  function StringLess(a: string, b: string): bool {
    if |b| == 0 then false
    else if |a| == 0 then true
    else a[0] < b[0] || (a[0] == b[0] && StringLess(a[1..], b[1..]))
  }

  function Join(parts: seq<string>, sep: string): string {
    if |parts| == 0 then "" else if |parts| == 1 then parts[0] else parts[0] + sep + Join(parts[1..], sep)
  }

  /** Tasks with the same dependencies form one stage of a job. */
  function StageKey(deps: seq<string>): string {
    Join(Sorting.StableSort(deps, StringLess), "|")
  }

  function Indicator(b: bool, x: real): real { if b then x else 0.0 }

  /** stageUse is the number of tasks of this stage already placed on the worker;
      spread says that the job asks for spreading and its stage has several tasks. */
  function Score(weights: Weights, task: Task, w: Worker, tenantRunning: nat, stageUse: nat, spread: bool, now: int): real {
    var capability :=
      Indicator(task.typ == "llm_inference", weights.capabilityMatch)
      + Indicator(task.typ == "tool_execution" && ContainsFold(w.tools, "bash"), weights.capabilityMatch)
      + Indicator(task.typ == "embedding", weights.capabilityMatch * 0.8);
    var model := Trim(Get(task.inputs, "model"));
    var warm := Indicator(model != "" && ContainsFold(w.models, model), weights.modelWarmCache);
    var want := Trim(Get(task.inputs, "_data_locality"));
    var locality := Indicator(want != "" && want == Trim(w.locality), weights.localityScore);
    var queue := (w.queueDepth + w.runningTasks) as real * weights.queuePenalty;
    var latency := ((w.cpuUtil + w.memoryUtil) / 100.0) * weights.latencyPrediction;
    var fairness := tenantRunning as real * weights.fairnessPenalty;
    var spreadPenalty := Indicator(spread && stageUse > 0, stageUse as real * weights.jobSpreadPenalty);
    var age := Indicator(task.createdAt != 0, (now - task.createdAt) as real / 1_000_000_000.0 / 60.0 * weights.waitAgeBonus);
    capability + warm + locality - queue - latency - fairness - spreadPenalty + age
  }

  // ---------- backend names at registration ----------

  /** The distinct non-empty normalised names, in the order they first occur. */
  function DistinctBackends(names: seq<string>): seq<string> {
    if |names| == 0 then []
    else
      var front := DistinctBackends(names[..|names| - 1]);
      var b := NormalizeBackend(names[|names| - 1]);
      if b == "" || b in front then front else front + [b]
  }

  function NormalizeBackends(names: seq<string>): seq<string> {
    Sorting.StableSort(DistinctBackends(names), StringLess)
  }

  lemma {:induction false} DistinctMembers(names: seq<string>, b: string)
    ensures b in DistinctBackends(names) <==> b != "" && exists i :: 0 <= i < |names| && NormalizeBackend(names[i]) == b
  {
    hide NormalizeBackend;
    if |names| > 0 {
      var front := names[..|names| - 1];
      DistinctMembers(front, b);
      assert forall i :: 0 <= i < |front| ==> names[i] == front[i];
    }
  }

  lemma {:induction false} DistinctOnce(names: seq<string>)
    ensures forall i, j :: 0 <= i < j < |DistinctBackends(names)| ==> DistinctBackends(names)[i] != DistinctBackends(names)[j]
  {
    hide NormalizeBackend;
    if |names| > 0 {
      DistinctOnce(names[..|names| - 1]);
    }
  }

  /** A registered worker carries exactly the non-empty normalised names it was registered with, each once. */
  lemma NormalizedOnce(names: seq<string>, b: string)
    ensures b in NormalizeBackends(names) <==> b != "" && exists i :: 0 <= i < |names| && NormalizeBackend(names[i]) == b
    ensures multiset(NormalizeBackends(names))[b] <= 1
  {
    hide NormalizeBackend, StringLess;
    DistinctMembers(names, b);
    DistinctOnce(names);
    Sorting.SortMembers(DistinctBackends(names), StringLess);
    Sorting.SortPermutes(DistinctBackends(names), StringLess);
    OnceEach(DistinctBackends(names), b);
  }

  lemma {:induction false} OnceEach(s: seq<string>, x: string)
    requires forall i, j :: 0 <= i < j < |s| ==> s[i] != s[j]
    ensures multiset(s)[x] <= 1
  {
    if |s| > 0 {
      OnceEach(s[1..], x);
      assert s == [s[0]] + s[1..];
      assert s[0] !in s[1..];
    }
  }

  // ---------- the selection loop ----------

  const EPSILON: real := 0.0001

  datatype Best = NoBest | Best(id: string, score: real, tie: nat)

  function Abs(x: real): real { if x < 0.0 then -x else x }

  function Consider(b: Best, id: string, score: real, tie: nat): Best {
    if b.NoBest? || score > b.score then Best(id, score, tie)
    else if Abs(score - b.score) < EPSILON && tie > b.tie then Best(id, score, tie)
    else b
  }

  /** Runs the loop over the workers in the order they are listed. */
  function Select(listing: seq<string>, eligible: string -> bool, score: string -> real, tie: string -> nat, b: Best): Best
  {
    if |listing| == 0 then b
    else
      var id := listing[0];
      Select(listing[1..], eligible, score, tie,
             if eligible(id) then Consider(b, id, score(id), tie(id)) else b)
  }

  function Count(listing: seq<string>, eligible: string -> bool): nat {
    if |listing| == 0 then 0 else (if eligible(listing[0]) then 1 else 0) + Count(listing[1..], eligible)
  }

  /** How far the kept score can be below the best of n candidates. */
  function Slack(n: nat): real { (n as real - 1.0) * EPSILON }

  /** b could be the loop's state after n candidates, the best of which scored top. */
  ghost predicate Near(b: Best, n: nat, top: real) {
    b.Best? && n >= 1 && b.score <= top && top <= b.score + Slack(n)
  }

  lemma SlackStep(n: nat)
    requires n >= 1
    ensures Slack(n + 1) == Slack(n) + EPSILON && Slack(n) >= 0.0
  {
    assert (n + 1) as real - 1.0 == (n as real - 1.0) + 1.0;
    assert n as real >= 1.0;
  }

  lemma ConsiderNear(b: Best, n: nat, top: real, id: string, score: real, tie: nat) returns (top': real)
    requires Near(b, n, top)
    ensures Near(Consider(b, id, score, tie), n + 1, top')
    ensures top' >= top && top' >= score
  {
    top' := if score > top then score else top;
    SlackStep(n);
  }

  /** Selecting from n0 candidates seen plus the listing stays within the slack of every candidate. */
  lemma {:induction false} SelectNear(listing: seq<string>, eligible: string -> bool, score: string -> real,
                                      tie: string -> nat, b: Best, n: nat, top: real)
    requires Near(b, n, top)
    ensures var r := Select(listing, eligible, score, tie, b);
      && r.Best?
      && top <= r.score + Slack(n + Count(listing, eligible))
      && forall i :: 0 <= i < |listing| && eligible(listing[i]) ==>
           score(listing[i]) <= r.score + Slack(n + Count(listing, eligible))
    decreases |listing|
  {
    if |listing| > 0 {
      var id, rest := listing[0], listing[1..];
      if eligible(id) {
        var top' := ConsiderNear(b, n, top, id, score(id), tie(id));
        SelectNear(rest, eligible, score, tie, Consider(b, id, score(id), tie(id)), n + 1, top');
      } else {
        SelectNear(rest, eligible, score, tie, b, n, top);
      }
      assert forall i :: 1 <= i < |listing| ==> listing[i] == rest[i - 1];
    }
  }

  /** The id kept is the one started from or an eligible entry of the listing, with its own score. */
  lemma {:induction false} SelectFrom(listing: seq<string>, eligible: string -> bool, score: string -> real,
                                      tie: string -> nat, b: Best)
    ensures var r := Select(listing, eligible, score, tie, b);
      r == b || (r.Best? && r.id in listing && eligible(r.id) && r.score == score(r.id))
    decreases |listing|
  {
    if |listing| > 0 {
      var id := listing[0];
      SelectFrom(listing[1..], eligible, score, tie, if eligible(id) then Consider(b, id, score(id), tie(id)) else b);
      assert listing == [id] + listing[1..];
    }
  }

  /** Nobody is chosen exactly when nobody is eligible; otherwise the chosen worker is eligible and, whatever the
      listing order, no eligible worker scores more than (n - 1) * 0.0001 higher, n being the number eligible. */
  lemma {:induction false} ChosenIsNearBest(listing: seq<string>, eligible: string -> bool, score: string -> real, tie: string -> nat)
    ensures var r := Select(listing, eligible, score, tie, NoBest);
      && (r.NoBest? <==> forall i :: 0 <= i < |listing| ==> !eligible(listing[i]))
      && (r.Best? ==>
            && r.id in listing && eligible(r.id) && r.score == score(r.id)
            && forall i :: 0 <= i < |listing| && eligible(listing[i]) ==>
                 score(listing[i]) <= r.score + Slack(Count(listing, eligible)))
    decreases |listing|
  {
    SelectFrom(listing, eligible, score, tie, NoBest);
    if |listing| > 0 {
      var id, rest := listing[0], listing[1..];
      assert listing == [id] + rest;
      if eligible(id) {
        assert Slack(1) == 0.0;
        var b := Best(id, score(id), tie(id));
        SelectNear(rest, eligible, score, tie, b, 1, score(id));
        assert Select(listing, eligible, score, tie, NoBest) == Select(rest, eligible, score, tie, b);
        forall i | 0 <= i < |listing| && eligible(listing[i])
          ensures score(listing[i]) <= Select(rest, eligible, score, tie, b).score + Slack(Count(listing, eligible))
        {
          if i > 0 { assert listing[i] == rest[i - 1]; }
        }
      } else {
        ChosenIsNearBest(rest, eligible, score, tie);
        assert forall i :: 1 <= i < |listing| ==> listing[i] == rest[i - 1];
      }
    }
  }
}
