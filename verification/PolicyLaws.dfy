/** What the policy decides, told from the rule fields, the quotas and the request itself (internal/policy/engine.go). */
module PolicyLaws {
  import opened Text
  import opened Records
  import opened Leases
  import opened Scheduler
  import Policy

  /** The name a tenant's rules and quotas go by. */
  ghost predicate GoesBy(tenant: string, name: string) {
    if Trim(tenant) == "" then name == "default" else name == Trim(tenant)
  }

  /** The rule is about this submission: each field it fills in names what was submitted. A submission has no task type,
      network or worker. */
  ghost predicate AboutSubmission(p: Policy.RuleMatch, name: string, sub: Submission) {
    && p.tenant in {"", name}
    && p.jobType in {"", sub.jobType}
    && p.model in {"", sub.model}
    && p.dataClassification in {"", sub.dataClassification}
    && p.priority in {"", sub.priority}
    && p.taskType == p.networkIsolation == p.workerLocality == ""
    && p.requiresGpu in {None, Some(false)}
  }

  /** The rule is about this task on this worker. An assignment has no job type or priority; the GPU flag is the worker's. */
  ghost predicate AboutAssignment(p: Policy.RuleMatch, name: string, t: Task, w: Worker) {
    && p.tenant in {"", name}
    && p.taskType in {"", t.typ}
    && p.model in {"", Get(t.inputs, "model")}
    && p.dataClassification in {"", Get(t.inputs, "_data_classification")}
    && p.networkIsolation in {"", Get(t.inputs, "_network_isolation")}
    && p.workerLocality in {"", w.locality}
    && p.jobType == p.priority == ""
    && p.requiresGpu in {None, Some(w.gpu)}
  }

  /** The first rule about the request is the k-th; k is the number of rules if none is. */
  ghost predicate First(rules: seq<Policy.Rule>, about: Policy.RuleMatch -> bool, k: nat) {
    && k <= |rules|
    && (forall i :: 0 <= i < k ==> !about(rules[i].pattern))
    && (k < |rules| ==> about(rules[k].pattern))
  }

  ghost predicate Permits(e: Policy.Engine, about: Policy.RuleMatch -> bool) {
    exists k: nat :: First(e.rules, about, k)
      && if k < |e.rules| then e.rules[k].effect == "allow" else e.defaultAction != "deny"
  }

  lemma SomeFirst(rules: seq<Policy.Rule>, about: Policy.RuleMatch -> bool) returns (k: nat)
    ensures First(rules, about, k)
  {
    k := 0;
    while k < |rules| && !about(rules[k].pattern)
      invariant k <= |rules| && forall i :: 0 <= i < k ==> !about(rules[i].pattern)
    {
      k := k + 1;
    }
  }

  lemma RulesPermit(e: Policy.Engine, input: Policy.RuleMatch, about: Policy.RuleMatch -> bool)
    requires forall p :: about(p) <==> Policy.Matches(p, input)
    ensures Policy.EvaluateRules(e.rules, e.defaultAction, input).allowed <==> Permits(e, about)
  {
    hide Policy.Matches;
    var k := SomeFirst(e.rules, about);
    forall j: nat | First(e.rules, about, j) ensures j == k { }
    if k < |e.rules| {
      Policy.FirstMatchDecides(e.rules, e.defaultAction, input, k);
    } else {
      Policy.NoMatchDefaults(e.rules, e.defaultAction, input);
    }
  }

  lemma SubmissionMatch(p: Policy.RuleMatch, name: string, sub: Submission)
    ensures AboutSubmission(p, name, sub) <==> Policy.Matches(p,
      Policy.RuleMatch(name, sub.jobType, "", sub.model, sub.dataClassification, sub.priority, "", "", None))
  {
  }

  lemma AssignmentMatch(p: Policy.RuleMatch, name: string, t: Task, w: Worker)
    ensures AboutAssignment(p, name, t, w) <==> Policy.Matches(p,
      Policy.RuleMatch(name, "", t.typ, Get(t.inputs, "model"), Get(t.inputs, "_data_classification"), "",
                       Get(t.inputs, "_network_isolation"), w.locality, Some(w.gpu)))
  {
    hide Get;
    if p.requiresGpu.Some? {
      assert p.requiresGpu == Some(w.gpu) <==> p.requiresGpu.value == w.gpu;
    }
  }

  /** The limit on running jobs or tasks, if there is one, is not reached. */
  ghost predicate JobsBelow(e: Policy.Engine, name: string, running: nat) {
    name in e.quotas && e.quotas[name].maxRunningJobs > 0 ==> running < e.quotas[name].maxRunningJobs
  }

  ghost predicate TasksBelow(e: Policy.Engine, name: string, running: nat) {
    name in e.quotas && e.quotas[name].maxRunningTasks > 0 ==> running < e.quotas[name].maxRunningTasks
  }

  /** A submission is accepted exactly when its tenant is below its limit on running jobs, if it has one, and the first rule
      about it, or without one the default action, allows it. */
  lemma SubmissionPermittedIff(cfg: Config, s: State, sub: Submission, name: string)
    requires !cfg.policy.noop && GoesBy(sub.tenant, name)
    ensures var allowed := Permits(cfg.policy, p => AboutSubmission(p, name, sub));
      SubmitAllowed(cfg, s, sub) <==> JobsBelow(cfg.policy, name, CountJobs(s.jobs, sub.tenant, Running)) && allowed
  {
    hide CountJobs, Trim, Permits, AboutSubmission, Policy.Matches, Policy.EvaluateRules;
    var input := Policy.RuleMatch(name, sub.jobType, "", sub.model, sub.dataClassification, sub.priority, "", "", None);
    forall p ensures AboutSubmission(p, name, sub) <==> Policy.Matches(p, input) {
      SubmissionMatch(p, name, sub);
    }
    RulesPermit(cfg.policy, input, p => AboutSubmission(p, name, sub));
  }

  /** A task that is otherwise ready goes to the worker exactly when its tenant is below its limit on running tasks and the
      first rule about the assignment, or the default action, allows it. If not, the task fails, its job with it, and
      nothing else changes. */
  lemma GrantPermittedIff(cfg: Config, s: State, worker: string, ref: TaskRef, now: int, name: string)
    requires ref in s.tasks && ref.jobId in s.jobs && worker in s.workers && GoesBy(s.jobs[ref.jobId].tenant, name)
    ensures var (s', r) := Grant(cfg, s, worker, ref, now);
      var below := TasksBelow(cfg.policy, name, CountTasks(s, s.jobs[ref.jobId].tenant, Running));
      var allowed := Permits(cfg.policy, p => AboutAssignment(p, name, s.tasks[ref], s.workers[worker]));
      && (r.Given? <==> cfg.policy.noop || (below && allowed))
      && (!r.Given? ==>
            && r.NotReady? && s'.queue == s.queue && s'.workers == s.workers
            && s'.tasks == s.tasks[ref := s.tasks[ref].(status := Failed, updatedAt := now)]
            && s'.jobs == s.jobs[ref.jobId := s.jobs[ref.jobId].(status := Failed)])
  {
    hide CountTasks, Trim, Get, Permits, HandOut, AssignmentOf, AboutAssignment, Policy.Matches, Policy.EvaluateRules;
    var t, w := s.tasks[ref], s.workers[worker];
    var input := Policy.RuleMatch(name, "", t.typ, Get(t.inputs, "model"), Get(t.inputs, "_data_classification"), "",
                                  Get(t.inputs, "_network_isolation"), w.locality, Some(w.gpu));
    forall p ensures AboutAssignment(p, name, t, w) <==> Policy.Matches(p, input) {
      AssignmentMatch(p, name, t, w);
    }
    RulesPermit(cfg.policy, input, p => AboutAssignment(p, name, t, w));
  }

  /** No hand-out is made for a tenant whose running tasks reach its limit, counted after any preemption. */
  lemma TaskQuotaHolds(cfg: Config, s: State, worker: string, ref: TaskRef, now: int, c: Choice, tenant: string, name: string)
    requires TryAssign(cfg, s, worker, ref, now, c).1.Given? && !cfg.policy.noop
    requires ref.jobId in s.jobs && s.jobs[ref.jobId].tenant == tenant && tenant != "" && GoesBy(tenant, name)
    requires name in cfg.policy.quotas && cfg.policy.quotas[name].maxRunningTasks > 0
    ensures var s' := TryAssign(cfg, s, worker, ref, now, c).0;
      |set r | r in s'.tasks && r.jobId in s'.jobs && s'.jobs[r.jobId].tenant == tenant && s'.tasks[r].status == Running|
        < cfg.policy.quotas[name].maxRunningTasks
  {
    hide Screen, Permits, GoesBy, LeasedTask, AssignmentOf;
    var sc := Screen(cfg, s, worker, ref, now, c);
    if sc.GoAhead? {
      assert Runnable(s, ref, now);
      var g := if sc.victim.Some? then Preempt(s, sc.victim.value, now) else s;
      assert TryAssign(cfg, s, worker, ref, now, c) == Grant(cfg, g, worker, ref, now);
      GrantPermittedIff(cfg, g, worker, ref, now, name);
      HandOutRunning(cfg, g, ref, worker, now, tenant);
    }
  }

  lemma HandOutRunning(cfg: Config, s: State, ref: TaskRef, worker: string, now: int, tenant: string)
    requires ref in s.tasks && s.tasks[ref].status == Queued && tenant != ""
    ensures var s' := HandOut(cfg, s, ref, worker, now);
      (set r | r in s'.tasks && r.jobId in s'.jobs && s'.jobs[r.jobId].tenant == tenant && s'.tasks[r].status == Running)
        == TasksOf(s.jobs, s.tasks, tenant, Running)
  {
    hide AssignmentOf, NewLeaseId, LeaseExpiry;
  }
}
