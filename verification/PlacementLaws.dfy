/** What the score of a worker is made of, and what that means for the worker that gets a task. */
module PlacementLaws {
  import opened Text
  import opened Records
  import opened Listings
  import opened Placement
  import opened Scheduler
  import opened EngineFacts

  // ---------- the score ----------

  /** Two workers that differ in their load at most. */
  ghost predicate LoadApart(v: Worker, w: Worker) {
    v.tools == w.tools && v.models == w.models && v.locality == w.locality
  }

  /** Load costs: by the queue weight for every queued or running task, by the latency weight for every 100 points of
      utilisation, and by the spread weight, if the stage is to be spread, for every task of the stage placed there. */
  lemma LoadCosts(weights: Weights, task: Task, v: Worker, w: Worker, running: nat, useV: nat, useW: nat, spread: bool, now: int)
    requires LoadApart(v, w)
    ensures Score(weights, task, v, running, useV, spread, now) - Score(weights, task, w, running, useW, spread, now)
         == weights.queuePenalty * ((w.queueDepth + w.runningTasks) - (v.queueDepth + v.runningTasks)) as real
            + weights.latencyPrediction * ((w.cpuUtil + w.memoryUtil - v.cpuUtil - v.memoryUtil) / 100.0)
            + if spread then weights.jobSpreadPenalty * (useW - useV) as real else 0.0
  {
    hide Trim, ContainsFold;
    Distribute(weights.queuePenalty, (w.queueDepth + w.runningTasks) as real, (v.queueDepth + v.runningTasks) as real);
    Distribute(weights.latencyPrediction, (w.cpuUtil + w.memoryUtil) / 100.0, (v.cpuUtil + v.memoryUtil) / 100.0);
    assert (w.cpuUtil + w.memoryUtil) / 100.0 - (v.cpuUtil + v.memoryUtil) / 100.0
        == (w.cpuUtil + w.memoryUtil - v.cpuUtil - v.memoryUtil) / 100.0;
    Distribute(weights.jobSpreadPenalty, useW as real, useV as real);
    NothingPlaced(weights.jobSpreadPenalty, useV, spread);
    NothingPlaced(weights.jobSpreadPenalty, useW, spread);
  }

  lemma NothingPlaced(a: real, use: nat, spread: bool)
    ensures Indicator(spread && use > 0, use as real * a) == if spread then use as real * a else 0.0
  {
    if use == 0 {
      Nothing(use as real, a);
    }
  }

  lemma Nothing(x: real, a: real)
    requires x == 0.0
    ensures x * a == 0.0
  {
  }

  lemma Distribute(a: real, x: real, y: real)
    ensures x * a - y * a == a * (x - y)
  {
    assert x == (x - y) + y;
    assert x * a == ((x - y) + y) * a == (x - y) * a + y * a;
  }

  /** A worker that already holds the task's model gains the warm-model weight. */
  lemma WarmModelPays(weights: Weights, task: Task, w: Worker, models: seq<string>, running: nat, use: nat, spread: bool, now: int)
    requires Trim(Get(task.inputs, "model")) != ""
    requires ContainsFold(models, Trim(Get(task.inputs, "model"))) && !ContainsFold(w.models, Trim(Get(task.inputs, "model")))
    ensures Score(weights, task, w.(models := models), running, use, spread, now)
         == Score(weights, task, w, running, use, spread, now) + weights.modelWarmCache
  {
    hide Trim, ContainsFold;
  }

  /** A worker at the place the task's data is gains the locality weight. */
  lemma LocalityPays(weights: Weights, task: Task, w: Worker, place: string, running: nat, use: nat, spread: bool, now: int)
    requires Trim(Get(task.inputs, "_data_locality")) != ""
    requires Trim(place) == Trim(Get(task.inputs, "_data_locality")) != Trim(w.locality)
    ensures Score(weights, task, w.(locality := place), running, use, spread, now)
         == Score(weights, task, w, running, use, spread, now) + weights.localityScore
  {
    hide Trim, ContainsFold;
  }

  /** A worker with a shell gains the capability weight on a tool task, and on no other. */
  lemma ShellPays(weights: Weights, task: Task, w: Worker, tools: seq<string>, running: nat, use: nat, spread: bool, now: int)
    requires ContainsFold(tools, "bash") && !ContainsFold(w.tools, "bash")
    ensures Score(weights, task, w.(tools := tools), running, use, spread, now)
         == Score(weights, task, w, running, use, spread, now)
            + if task.typ == "tool_execution" then weights.capabilityMatch else 0.0
  {
    hide Trim, ContainsFold, Get;
  }

  /** An inference task scores the capability weight on every worker, an embedding four fifths of it. */
  lemma CapabilityPays(weights: Weights, task: Task, w: Worker, running: nat, use: nat, spread: bool, now: int)
    requires task.typ !in {"llm_inference", "tool_execution", "embedding"}
    ensures Score(weights, task.(typ := "llm_inference"), w, running, use, spread, now)
         == Score(weights, task, w, running, use, spread, now) + weights.capabilityMatch
    ensures Score(weights, task.(typ := "embedding"), w, running, use, spread, now)
         == Score(weights, task, w, running, use, spread, now) + weights.capabilityMatch * 0.8
  {
    hide Trim, ContainsFold, Get;
    assert |"llm_inference"| == 13 && |"tool_execution"| == 14 && |"embedding"| == 9;
  }

  /** Every running task of the tenant costs the fairness weight, every minute of waiting earns the age weight. */
  lemma WaitingPays(weights: Weights, task: Task, w: Worker, running: nat, more: nat, use: nat, spread: bool, now: int, minutes: nat)
    requires task.createdAt != 0
    ensures Score(weights, task, w, running + more, use, spread, now)
         == Score(weights, task, w, running, use, spread, now) - weights.fairnessPenalty * more as real
    ensures Score(weights, task, w, running, use, spread, now + minutes * 60_000_000_000)
         == Score(weights, task, w, running, use, spread, now) + weights.waitAgeBonus * minutes as real
  {
    hide Trim, ContainsFold;
    assert (now + minutes * 60_000_000_000 - task.createdAt) as real / 1_000_000_000.0 / 60.0
        == (now - task.createdAt) as real / 1_000_000_000.0 / 60.0 + minutes as real;
  }

  // ---------- the choice ----------

  /** What the load of a worker costs it in the choice for the task. */
  ghost function LoadCost(cfg: Config, s: State, ref: TaskRef, id: string): real
    requires ref in s.tasks && id in s.workers
  {
    var w := s.workers[id];
    cfg.weights.queuePenalty * (w.queueDepth + w.runningTasks) as real
    + cfg.weights.latencyPrediction * ((w.cpuUtil + w.memoryUtil) / 100.0)
    + if SpreadStage(s, ref) then cfg.weights.jobSpreadPenalty * StageUse(s, ref, id) as real else 0.0
  }

  lemma ScoresApart(cfg: Config, s: State, ref: TaskRef, v: string, w: string, now: int)
    requires ref in s.tasks && ref.jobId in s.jobs && v in s.workers && w in s.workers
    requires LoadApart(s.workers[v], s.workers[w])
    ensures ScoreFor(cfg, s, ref, v, now) - ScoreFor(cfg, s, ref, w, now)
         == LoadCost(cfg, s, ref, w) - LoadCost(cfg, s, ref, v)
  {
    hide Score, SpreadStage, StageUse, CountTasks;
    LoadCosts(cfg.weights, s.tasks[ref], s.workers[v], s.workers[w], CountTasks(s, s.jobs[ref.jobId].tenant, Running),
              StageUse(s, ref, v), StageUse(s, ref, w), SpreadStage(s, ref), now);
  }

  lemma SlackGrows(n: nat, m: nat)
    requires n <= m
    ensures Slack(n) <= (m as real - 1.0) * 0.0001
  {
  }

  /** Whatever the order the workers are met in, a worker is not chosen if an eligible one scores higher by more than a
      ten-thousandth for every other worker. */
  lemma HigherScoreWins(cfg: Config, s: State, ref: TaskRef, listing: seq<string>, now: int, good: string, bad: string)
    requires ref in s.tasks && ref.jobId in s.jobs && Lists(listing, s.workers.Keys)
    requires EligibleFor(s, ref, good) && bad != ""
    requires ScoreFor(cfg, s, ref, good, now) > ScoreFor(cfg, s, ref, bad, now) + (|s.workers| as real - 1.0) * 0.0001
    ensures BestWorker(cfg, s, ref, listing, now) != bad
  {
    hide EligibleFor, ScoreFor, BestWorker;
    BestIsNearBest(cfg, s, ref, listing, now);
    var all := EligibleWorkers(s, ref);
    FewEligible(s, ref, good);
    SlackGrows(|all|, |s.workers|);
  }

  lemma FewEligible(s: State, ref: TaskRef, good: string)
    requires ref in s.tasks && EligibleFor(s, ref, good)
    ensures good in EligibleWorkers(s, ref) && |EligibleWorkers(s, ref)| <= |s.workers|
  {
    SubsetSize(EligibleWorkers(s, ref), s.workers.Keys);
    assert |s.workers.Keys| == |s.workers|;
  }

  /** In particular a worker is not chosen over an eligible one that differs from it only by a load that costs less, by more
      than that. */
  lemma LighterLoadWins(cfg: Config, s: State, ref: TaskRef, listing: seq<string>, now: int, good: string, bad: string)
    requires ref in s.tasks && ref.jobId in s.jobs && Lists(listing, s.workers.Keys)
    requires EligibleFor(s, ref, good) && bad in s.workers && bad != "" && LoadApart(s.workers[good], s.workers[bad])
    requires LoadCost(cfg, s, ref, bad) > LoadCost(cfg, s, ref, good) + (|s.workers| as real - 1.0) * 0.0001
    ensures BestWorker(cfg, s, ref, listing, now) != bad
  {
    hide ScoreFor, BestWorker, LoadCost;
    ScoresApart(cfg, s, ref, good, bad, now);
    HigherScoreWins(cfg, s, ref, listing, now, good, bad);
  }

  // ---------- the worker that gets the task ----------

  /** A task is given to a worker only if no eligible worker scores higher by more than that, and, if any worker is
      eligible, to an eligible one. */
  lemma GivenToNearBest(cfg: Config, s: State, worker: string, ref: TaskRef, now: int, c: Choice, id: string)
    requires TryAssign(cfg, s, worker, ref, now, c).1.Given? && Lists(c.workers, s.workers.Keys)
    requires ref in s.tasks && ref.jobId in s.jobs && id != "" && EligibleFor(s, ref, id) && "" !in s.workers
    ensures EligibleFor(s, ref, worker)
    ensures ScoreFor(cfg, s, ref, id, now) <= ScoreFor(cfg, s, ref, worker, now) + (|s.workers| as real - 1.0) * 0.0001
  {
    hide EligibleFor, ScoreFor, BestWorker, Victim, Grant, Runnable;
    var best := BestWorker(cfg, s, ref, c.workers, now);
    BestIsNearBest(cfg, s, ref, c.workers, now);
    FewEligible(s, ref, id);
    SlackGrows(|EligibleWorkers(s, ref)|, |s.workers|);
    OnlyRegistered(s, ref);
  }

  lemma OnlyRegistered(s: State, ref: TaskRef)
    requires ref in s.tasks
    ensures EligibleWorkers(s, ref) <= s.workers.Keys
    ensures forall id :: id in EligibleWorkers(s, ref) ==> EligibleFor(s, ref, id)
  {
  }

  /** Backend names are compared in lower case, under one spelling each. */
  lemma BackendSynonyms(name: string)
    ensures Lower(Trim(name)) == "remote-api" ==> NormalizeBackend(name) == "remote_api"
    ensures Lower(Trim(name)) == "llamacpp" ==> NormalizeBackend(name) == "llama.cpp"
    ensures Lower(Trim(name)) !in {"remote-api", "llamacpp"} ==> NormalizeBackend(name) == Lower(Trim(name))
  {
    hide Trim, Lower;
    assert |"remote-api"| == 10 && |"llamacpp"| == 8;
  }

  /** The worker offers the backend, among its backends or its tools. */
  ghost predicate Offers(w: Worker, backend: string) {
    exists b :: b in w.backends + w.tools && NormalizeBackend(b) == NormalizeBackend(backend)
  }

  /** Some worker tells which backends it has. */
  ghost predicate BackendsKnown(workers: map<string, Worker>) {
    exists v :: v in workers && (workers[v].backends != [] ||
      exists t :: t in workers[v].tools && NormalizeBackend(t) in {"ollama", "vllm", "llama.cpp", "remote_api"})
  }

  ghost predicate ModelsKnown(workers: map<string, Worker>) {
    exists v :: v in workers && workers[v].models != []
  }

  /** The worker meets every demand the task makes: it is the one named, if one is, not unhealthy, and has a GPU if one is
      asked for; for inference it offers the backend and holds the model, if any worker tells what it has of them. */
  ghost predicate MeetsDemands(s: State, t: Task, id: string, w: Worker) {
    var target, backend, model := Trim(Get(t.inputs, "_target_worker")), Get(t.inputs, "backend"), Trim(Get(t.inputs, "model"));
    && (target == "" || target == id)
    && Lower(w.health) != Lower("unhealthy")
    && (Lower(Trim(Get(t.inputs, "_requires_gpu"))) in {"1", "true", "yes"} ==> w.gpu)
    && (t.typ == "llm_inference" && NormalizeBackend(backend) != "" && BackendsKnown(s.workers) ==> Offers(w, backend))
    && (t.typ == "llm_inference" && model != "" && ModelsKnown(s.workers) ==> ContainsFold(w.models, model))
  }

  lemma OffersIff(w: Worker, backend: string)
    requires NormalizeBackend(backend) != ""
    ensures Offers(w, backend) <==> SupportsBackend(w, NormalizeBackend(backend))
  {
    hide NormalizeBackend;
    NormalizedStays(backend);
    if b :| b in w.backends + w.tools && NormalizeBackend(b) == NormalizeBackend(backend) {
      if b in w.backends {
        var i :| 0 <= i < |w.backends| && w.backends[i] == b;
      } else {
        var i :| 0 <= i < |w.tools| && w.tools[i] == b;
      }
    }
    if i :| 0 <= i < |w.backends| && NormalizeBackend(w.backends[i]) == NormalizeBackend(backend) {
      assert w.backends[i] in w.backends + w.tools;
    }
    if i :| 0 <= i < |w.tools| && NormalizeBackend(w.tools[i]) == NormalizeBackend(backend) {
      assert w.tools[i] in w.backends + w.tools;
    }
  }

  lemma InventoryIff(workers: map<string, Worker>)
    ensures BackendsKnown(workers) <==> exists v :: v in workers && HasBackendInventory(workers[v])
    ensures ModelsKnown(workers) <==> exists v :: v in workers && |workers[v].models| > 0
  {
    hide NormalizeBackend;
    forall v | v in workers ensures HasBackendInventory(workers[v]) <==> (workers[v].backends != [] ||
      exists t :: t in workers[v].tools && NormalizeBackend(t) in {"ollama", "vllm", "llama.cpp", "remote_api"})
    {
      var w := workers[v];
      if t :| t in w.tools && NormalizeBackend(t) in {"ollama", "vllm", "llama.cpp", "remote_api"} {
        var i :| 0 <= i < |w.tools| && w.tools[i] == t;
      }
    }
  }

  /** A worker is eligible for a task exactly if it meets the demands. */
  lemma EligibleIff(s: State, ref: TaskRef, worker: string)
    requires ref in s.tasks
    ensures EligibleFor(s, ref, worker) <==> worker in s.workers && MeetsDemands(s, s.tasks[ref], worker, s.workers[worker])
  {
    hide Trim, Lower, ContainsFold, NormalizeBackend, SupportsBackend, Offers, HasBackendInventory, BackendsKnown, ModelsKnown;
    InventoryIff(s.workers);
    if worker in s.workers && NormalizeBackend(Get(s.tasks[ref].inputs, "backend")) != "" {
      OffersIff(s.workers[worker], Get(s.tasks[ref].inputs, "backend"));
    }
  }

  /** So where any worker can take a task, the one that gets it meets every demand the task makes. */
  lemma GivenToFit(cfg: Config, s: State, worker: string, ref: TaskRef, now: int, c: Choice, id: string)
    requires TryAssign(cfg, s, worker, ref, now, c).1.Given? && Lists(c.workers, s.workers.Keys)
    requires ref in s.tasks && ref.jobId in s.jobs && "" !in s.workers
    requires id in s.workers && MeetsDemands(s, s.tasks[ref], id, s.workers[id])
    ensures worker in s.workers && MeetsDemands(s, s.tasks[ref], worker, s.workers[worker])
  {
    hide MeetsDemands, TryAssign;
    EligibleIff(s, ref, id);
    GivenToNearBest(cfg, s, worker, ref, now, c, id);
    EligibleIff(s, ref, worker);
  }
}
