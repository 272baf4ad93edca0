/** Submission and assignment policy (internal/policy/engine.go): the first matching rule decides,
    after the tenant quotas. */
module Policy {
  import opened Text

  datatype TenantQuota = TenantQuota(maxRunningJobs: int, maxRunningTasks: int)

  /** An empty field (None for the GPU flag) matches anything. */
  datatype RuleMatch = RuleMatch(
    tenant: string, jobType: string, taskType: string, model: string, dataClassification: string,
    priority: string, networkIsolation: string, workerLocality: string, requiresGpu: Option<bool>)

  datatype Rule = Rule(name: string, effect: string, reason: string, pattern: RuleMatch)

  datatype Config = Config(defaultAction: string, rules: seq<Rule>, tenantQuotas: map<string, TenantQuota>)

  datatype Decision = Decision(allowed: bool, reason: string, rule: string)

  datatype SubmitInput = SubmitInput(
    tenant: string, jobType: string, priority: string, model: string, dataClassification: string, runningJobs: int)

  datatype AssignmentInput = AssignmentInput(
    tenant: string, taskType: string, model: string, dataClassification: string, networkIsolation: string,
    workerLocality: string, workerGpu: bool, runningTasks: int)

  datatype Engine = Engine(defaultAction: string, rules: seq<Rule>, quotas: map<string, TenantQuota>, noop: bool)

  const ALLOW_ALL := Engine("allow", [], map[], true)

  function NormalizeAction(v: string): string {
    var l := Lower(Trim(v));
    if l == "allow" || l == "deny" then l else ""
  }

  function NormalizeRule(r: Rule): Rule {
    var effect := NormalizeAction(r.effect);
    r.(effect := if effect == "" then "deny" else effect)
  }

  predicate FieldMatches(want: string, got: string) { want == "" || want == got }

  predicate Matches(rule: RuleMatch, input: RuleMatch) {
    && FieldMatches(rule.tenant, input.tenant)
    && FieldMatches(rule.jobType, input.jobType)
    && FieldMatches(rule.taskType, input.taskType)
    && FieldMatches(rule.model, input.model)
    && FieldMatches(rule.dataClassification, input.dataClassification)
    && FieldMatches(rule.priority, input.priority)
    && FieldMatches(rule.networkIsolation, input.networkIsolation)
    && FieldMatches(rule.workerLocality, input.workerLocality)
    && (rule.requiresGpu.Some? ==>
          rule.requiresGpu.value == (input.requiresGpu.Some? && input.requiresGpu.value))
  }

  function RuleDecision(r: Rule): Decision {
    Decision(r.effect == "allow", if r.reason != "" then Trim(r.reason) else "policy_rule_" + r.effect, r.name)
  }

  function EvaluateRules(rules: seq<Rule>, defaultAction: string, input: RuleMatch): Decision {
    if |rules| == 0 then
      if defaultAction == "deny" then Decision(false, "default_deny", "default_action")
      else Decision(true, "default_allow", "default_action")
    else if Matches(rules[0].pattern, input) then RuleDecision(rules[0])
    else EvaluateRules(rules[1..], defaultAction, input)
  }

  function QuotaTenant(tenant: string): string {
    var t := Trim(tenant);
    if t == "" then "default" else t
  }

  function EvaluateSubmit(e: Engine, input: SubmitInput): Decision {
    var tenant := QuotaTenant(input.tenant);
    if tenant in e.quotas && e.quotas[tenant].maxRunningJobs > 0
       && input.runningJobs >= e.quotas[tenant].maxRunningJobs then
      Decision(false, "quota_running_jobs_exceeded", "tenant_quotas." + tenant)
    else
      EvaluateRules(e.rules, e.defaultAction,
        RuleMatch(tenant, input.jobType, "", input.model, input.dataClassification, input.priority, "", "", None))
  }

  function EvaluateAssignment(e: Engine, input: AssignmentInput): Decision {
    var tenant := QuotaTenant(input.tenant);
    if tenant in e.quotas && e.quotas[tenant].maxRunningTasks > 0
       && input.runningTasks >= e.quotas[tenant].maxRunningTasks then
      Decision(false, "quota_running_tasks_exceeded", "tenant_quotas." + tenant)
    else
      EvaluateRules(e.rules, e.defaultAction,
        RuleMatch(tenant, "", input.taskType, input.model, input.dataClassification, "",
                  input.networkIsolation, input.workerLocality, Some(input.workerGpu)))
  }

  /** Rules are consulted in order: the first one that matches decides, and later ones cannot change it. */
  lemma {:induction false} FirstMatchDecides(rules: seq<Rule>, defaultAction: string, input: RuleMatch, k: nat)
    requires k < |rules| && Matches(rules[k].pattern, input)
    requires forall i :: 0 <= i < k ==> !Matches(rules[i].pattern, input)
    ensures EvaluateRules(rules, defaultAction, input) == RuleDecision(rules[k])
  {
    if k > 0 { FirstMatchDecides(rules[1..], defaultAction, input, k - 1); }
  }

  lemma {:induction false} NoMatchDefaults(rules: seq<Rule>, defaultAction: string, input: RuleMatch)
    requires forall i :: 0 <= i < |rules| ==> !Matches(rules[i].pattern, input)
    ensures EvaluateRules(rules, defaultAction, input).allowed <==> defaultAction != "deny"
  {
    if |rules| > 0 { NoMatchDefaults(rules[1..], defaultAction, input); }
  }

  /** NewFromConfig: rules keep their order, and allow only if they say so, up to case and space; quota keys are trimmed, and a
      trimmed key carries the quota of one of the keys that trim to it.  Only an engine that can
      refuse nothing is marked noop. */
  method NewFromConfig(cfg: Config) returns (e: Engine)
    ensures |e.rules| == |cfg.rules|
    ensures forall i :: 0 <= i < |e.rules| ==>
      e.rules[i] == cfg.rules[i].(effect := if Lower(Trim(cfg.rules[i].effect)) == "allow" then "allow" else "deny")
    ensures e.defaultAction == if Lower(Trim(cfg.defaultAction)) == "deny" then "deny" else "allow"
    ensures forall t :: t in e.quotas <==> exists k :: k in cfg.tenantQuotas && Trim(k) == t
    ensures forall t :: t in e.quotas ==>
      exists k :: k in cfg.tenantQuotas && Trim(k) == t && e.quotas[t] == cfg.tenantQuotas[k]
    ensures e.noop <==> e.defaultAction == "allow" && |cfg.rules| == 0 && |cfg.tenantQuotas| == 0
  {
    var rules: seq<Rule> := [];
    for i := 0 to |cfg.rules|
      invariant |rules| == i
      invariant forall j :: 0 <= j < i ==>
        rules[j] == cfg.rules[j].(effect := if Lower(Trim(cfg.rules[j].effect)) == "allow" then "allow" else "deny")
    {
      rules := rules + [NormalizeRule(cfg.rules[i])];
    }
    var quotas: map<string, TenantQuota> := map[];
    var rest := cfg.tenantQuotas.Keys;
    while rest != {}
      invariant rest <= cfg.tenantQuotas.Keys
      invariant forall k :: k in cfg.tenantQuotas && k !in rest ==> Trim(k) in quotas
      invariant forall t :: t in quotas ==>
        exists k :: k in cfg.tenantQuotas && Trim(k) == t && quotas[t] == cfg.tenantQuotas[k]
      decreases rest
    {
      var k :| k in rest;
      rest := rest - {k};
      quotas := quotas[Trim(k) := cfg.tenantQuotas[k]];
    }
    var action := NormalizeAction(cfg.defaultAction);
    if action == "" { action := "allow"; }
    if |cfg.tenantQuotas| > 0 {
      var k :| k in cfg.tenantQuotas;
      assert Trim(k) in quotas;
    }
    e := Engine(action, rules, quotas, action == "allow" && |rules| == 0 && |quotas| == 0);
  }
}
