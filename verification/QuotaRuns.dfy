/** Over a whole run: exactly when the running jobs of a tenant stay within its quota. */
module QuotaRuns {
  import opened Records
  import opened Scheduler
  import opened Invariants
  import opened ReportLaws
  import opened Quota
  import opened Steps
  import opened Runs
  import Policy

  /** In states 0 to n the selected tenants have at most limit running jobs. */
  ghost predicate Within(states: seq<State>, n: nat, who: string -> bool, limit: nat)
    requires n < |states|
  {
    forall k :: 0 <= k <= n ==> |RunningFor(states[k].jobs, who)| <= limit
  }

  ghost predicate OverrunsAt(cfg: Config, states: seq<State>, calls: seq<Call>, i: nat, who: string -> bool, limit: nat)
    requires i < |calls| && i < |states|
  {
    Overruns(cfg, states[i], calls[i].action, calls[i].now, who, limit)
  }

  ghost predicate NoOverrun(cfg: Config, states: seq<State>, calls: seq<Call>, n: nat, who: string -> bool, limit: nat)
    requires n <= |calls| && |states| == |calls| + 1
  {
    forall i :: 0 <= i < n ==> !OverrunsAt(cfg, states, calls, i, who, limit)
  }

  lemma NothingRuns(who: string -> bool)
    ensures |RunningFor(INIT.jobs, who)| == 0
  {
    assert RunningFor(INIT.jobs, who) == {};
  }

  lemma NextWithin(cfg: Config, states: seq<State>, calls: seq<Call>, i: nat, who: string -> bool, limit: nat)
    requires Run(cfg, states, calls) && i < |calls| && |RunningFor(states[i].jobs, who)| <= limit
    ensures !OverrunsAt(cfg, states, calls, i, who, limit) ==> |RunningFor(states[i + 1].jobs, who)| <= limit
    ensures OverrunsAt(cfg, states, calls, i, who, limit) ==>
      (calls[i].action.Poll? ==> NoDenial(states[i], states[i + 1])) ==>
      |RunningFor(states[i + 1].jobs, who)| > limit
  {
    hide Step, Legal, Overruns, RunningFor, NoDenial;
    assert Follows(cfg, states, calls, i);
    StepWithin(cfg, states[i], calls[i].action, calls[i].now, who, limit);
  }

  /** In every run, whatever reports arrive and ids are reused: the selected tenants stay within the limit as long as no
      call overruns it. */
  lemma {:induction false} WithinUnlessOverrun(cfg: Config, states: seq<State>, calls: seq<Call>, n: nat,
                                               who: string -> bool, limit: nat)
    requires Run(cfg, states, calls) && n <= |calls| && NoOverrun(cfg, states, calls, n, who, limit)
    ensures Within(states, n, who, limit)
  {
    hide Run, RunningFor, OverrunsAt;
    Starts(cfg, states, calls);
    if n > 0 {
      WithinUnlessOverrun(cfg, states, calls, n - 1, who, limit);
      NextWithin(cfg, states, calls, n - 1, who, limit);
    } else {
      NothingRuns(who);
    }
  }

  lemma Starts(cfg: Config, states: seq<State>, calls: seq<Call>)
    requires Run(cfg, states, calls)
    ensures |states| == |calls| + 1 && states[0] == INIT
  {
  }

  /** A poll of the run that overruns the limit denies no assignment, which would stop a job again. */
  ghost predicate OverrunsShow(cfg: Config, states: seq<State>, calls: seq<Call>, n: nat, who: string -> bool, limit: nat)
    requires n <= |calls| && |states| == |calls| + 1
  {
    forall i :: 0 <= i < n && calls[i].action.Poll? && OverrunsAt(cfg, states, calls, i, who, limit) ==>
      NoDenial(states[i], states[i + 1])
  }

  /** And they stay within it only so, leaving aside polls that overrun and in the same call fail a job by a denial. */
  lemma {:induction false} WithinIff(cfg: Config, states: seq<State>, calls: seq<Call>, n: nat, who: string -> bool, limit: nat)
    requires Run(cfg, states, calls) && n <= |calls| && OverrunsShow(cfg, states, calls, n, who, limit)
    ensures Within(states, n, who, limit) <==> NoOverrun(cfg, states, calls, n, who, limit)
  {
    hide Run, RunningFor, OverrunsAt, NoDenial;
    Starts(cfg, states, calls);
    if n > 0 {
      WithinIff(cfg, states, calls, n - 1, who, limit);
      if Within(states, n - 1, who, limit) {
        NextWithin(cfg, states, calls, n - 1, who, limit);
      }
    } else {
      NothingRuns(who);
    }
  }

  // ---------- runs without a reopening report ----------

  /** Call i is a report that revives a job of the selected tenants at the limit. */
  ghost predicate RevivesAt(states: seq<State>, calls: seq<Call>, i: nat, who: string -> bool, limit: nat)
    requires i < |calls| && i < |states|
  {
    calls[i].action.Tell? && RevivesAtLimit(states[i], calls[i].action.req, who, limit)
  }

  ghost predicate NoneRevivesAtLimit(states: seq<State>, calls: seq<Call>, n: nat, who: string -> bool, limit: nat)
    requires n <= |calls| && |states| == |calls| + 1
  {
    forall i :: 0 <= i < n ==> !RevivesAt(states, calls, i, who, limit)
  }

  /** Call i is an accepted submission with tasks for the selected tenants, whose other jobs reach the limit. */
  ghost predicate SubmitsAt(cfg: Config, states: seq<State>, calls: seq<Call>, i: nat, who: string -> bool, limit: nat)
    requires i < |calls| && i < |states|
  {
    calls[i].action.Submit? && SubmitsAtLimit(cfg, states[i], calls[i].action.sub, who, limit)
  }

  ghost predicate NoneSubmitsAtLimit(cfg: Config, states: seq<State>, calls: seq<Call>, n: nat, who: string -> bool, limit: nat)
    requires n <= |calls| && |states| == |calls| + 1
  {
    forall i :: 0 <= i < n ==> !SubmitsAt(cfg, states, calls, i, who, limit)
  }

  lemma StatusesRight(cfg: Config, states: seq<State>, calls: seq<Call>, n: nat, i: nat)
    requires Run(cfg, states, calls) && i <= n <= |calls| && NoReopening(states, calls, n)
    ensures StatusesOk(states[i].jobs, states[i].tasks)
  {
    hide Follows, Reopens, StatusesOk;
    StatusesHoldIff(cfg, states, calls, n);
  }

  /** While the tenants are within the limit, only such a submission or such a report overruns it. */
  lemma OverrunKinds(cfg: Config, states: seq<State>, calls: seq<Call>, n: nat, i: nat, who: string -> bool, limit: nat)
    requires Run(cfg, states, calls) && i < n <= |calls| && NoReopening(states, calls, n)
    requires |RunningFor(states[i].jobs, who)| <= limit
    ensures OverrunsAt(cfg, states, calls, i, who, limit)
      <==> SubmitsAt(cfg, states, calls, i, who, limit) || RevivesAt(states, calls, i, who, limit)
    ensures calls[i].action.Poll? ==> !OverrunsAt(cfg, states, calls, i, who, limit)
  {
    hide Run, RunningFor, RunningSwept, StatusesOk, NoReopening, RevivesAtLimit, SubmitsAtLimit;
    Starts(cfg, states, calls);
    StatusesRight(cfg, states, calls, n, i);
    match calls[i].action
    case Poll(w, max, o) => SweepWithin(cfg, states[i], w, max, o, calls[i].now, who, limit);
    case _ =>
  }

  /** Without reopening reports, the selected tenants (all spellings of one name, say) stay within the limit if and only if
      no submission of theirs is accepted, and no report revives a job of theirs, while they reach it. */
  lemma {:induction false} LimitIff(cfg: Config, states: seq<State>, calls: seq<Call>, n: nat, who: string -> bool, limit: nat)
    requires Run(cfg, states, calls) && n <= |calls| && NoReopening(states, calls, n)
    ensures Within(states, n, who, limit)
      <==> NoneSubmitsAtLimit(cfg, states, calls, n, who, limit) && NoneRevivesAtLimit(states, calls, n, who, limit)
  {
    hide Run, RunningFor, OverrunsAt, NoDenial, SubmitsAt, RevivesAt, Reopens;
    Starts(cfg, states, calls);
    if n > 0 {
      LimitIff(cfg, states, calls, n - 1, who, limit);
      if Within(states, n - 1, who, limit) {
        OverrunKinds(cfg, states, calls, n, n - 1, who, limit);
        NextWithin(cfg, states, calls, n - 1, who, limit);
      }
    } else {
      NothingRuns(who);
    }
  }

  // ---------- one spelling of a tenant ----------

  lemma NeverSubmitsAtLimit(cfg: Config, states: seq<State>, calls: seq<Call>, n: nat, t: string, limit: nat)
    requires |states| == |calls| + 1 && n <= |calls| && HasQuota(cfg.policy, t, limit)
    ensures NoneSubmitsAtLimit(cfg, states, calls, n, Spelled(t), limit)
  {
    hide HasQuota, SubmitsAtLimit;
    forall i | 0 <= i < n ensures !SubmitsAt(cfg, states, calls, i, Spelled(t), limit) {
      if calls[i].action.Submit? {
        AcceptedBelowQuota(cfg, states[i], calls[i].action.sub, t, limit);
      }
    }
  }

  /** Exactly when a quota holds: without reopening reports, the running jobs of a tenant stay within its quota if and only
      if no report revives one of its jobs while the quota is used up. */
  lemma QuotaHoldsIff(cfg: Config, states: seq<State>, calls: seq<Call>, n: nat, t: string, limit: nat)
    requires Run(cfg, states, calls) && n <= |calls| && NoReopening(states, calls, n)
    requires HasQuota(cfg.policy, t, limit)
    ensures Within(states, n, Spelled(t), limit) <==> NoneRevivesAtLimit(states, calls, n, Spelled(t), limit)
  {
    hide Run, HasQuota, Within, NoneRevivesAtLimit, NoneSubmitsAtLimit, NoReopening;
    Starts(cfg, states, calls);
    NeverSubmitsAtLimit(cfg, states, calls, n, t, limit);
    LimitIff(cfg, states, calls, n, Spelled(t), limit);
  }

  /** In particular it holds in every run without reopening and reviving reports.  For a tenant with a name these are the
      jobs that the policy check counts. */
  lemma QuotaHolds(cfg: Config, states: seq<State>, calls: seq<Call>, n: nat, t: string, limit: nat)
    requires Run(cfg, states, calls) && n <= |calls|
    requires NoReopening(states, calls, n) && NoReviving(states, calls, n)
    requires HasQuota(cfg.policy, t, limit)
    ensures |RunningFor(states[n].jobs, Spelled(t))| <= limit
    ensures t != "" ==> CountJobs(states[n].jobs, t, Running) <= limit
  {
    hide Run, HasQuota, CountJobs, RunningFor, NoReopening, Revives;
    Starts(cfg, states, calls);
    QuotaHoldsIff(cfg, states, calls, n, t, limit);
    SpelledCount(states[n].jobs, t);
  }

  // ---------- all spellings of a tenant ----------

  /** Every submission under the name spells it t. */
  predicate OneSpelling(calls: seq<Call>, n: nat, t: string)
    requires n <= |calls|
  {
    forall i :: 0 <= i < n && calls[i].action.Submit? && Policy.QuotaTenant(calls[i].action.sub.tenant) == Policy.QuotaTenant(t) ==>
      calls[i].action.sub.tenant == t
  }

  ghost predicate SpelledSo(jobs: map<string, Job>, t: string) {
    forall j :: j in jobs && Policy.QuotaTenant(jobs[j].tenant) == Policy.QuotaTenant(t) ==> jobs[j].tenant == t
  }

  /** A job's tenant is the one its submission named. */
  lemma StepTenants(cfg: Config, s: State, a: Action, now: int, j: string)
    requires j in Step(cfg, s, a, now).jobs
    ensures var job := Step(cfg, s, a, now).jobs[j];
      (j in s.jobs && job.tenant == s.jobs[j].tenant) || (a.Submit? && job.tenant == a.sub.tenant)
  {
    if a.Poll? {
      PollGentle(cfg, s, a.worker, a.max, now, a.orders);
    }
  }

  lemma {:induction false} SpellingStays(cfg: Config, states: seq<State>, calls: seq<Call>, n: nat, t: string)
    requires Run(cfg, states, calls) && n <= |calls| && OneSpelling(calls, n, t)
    ensures SpelledSo(states[n].jobs, t)
  {
    hide Step, Legal, Policy.QuotaTenant;
    if n > 0 {
      SpellingStays(cfg, states, calls, n - 1, t);
      assert Follows(cfg, states, calls, n - 1);
      forall j | j in states[n].jobs && Policy.QuotaTenant(states[n].jobs[j].tenant) == Policy.QuotaTenant(t)
        ensures states[n].jobs[j].tenant == t
      {
        StepTenants(cfg, states[n - 1], calls[n - 1].action, calls[n - 1].now, j);
      }
    }
  }

  lemma SameRunning(jobs: map<string, Job>, t: string)
    requires SpelledSo(jobs, t)
    ensures RunningFor(jobs, Under(Policy.QuotaTenant(t))) == RunningFor(jobs, Spelled(t))
  {
    hide Policy.QuotaTenant;
  }

  /** When all submissions under a name spell it alike, as those that come through the API server do, the quota bounds the
      name as a whole, exactly as long as no report revives a job while it is used up. */
  lemma OneSpellingIff(cfg: Config, states: seq<State>, calls: seq<Call>, n: nat, t: string, limit: nat)
    requires Run(cfg, states, calls) && n <= |calls| && NoReopening(states, calls, n)
    requires HasQuota(cfg.policy, t, limit) && OneSpelling(calls, n, t)
    ensures Within(states, n, Under(Policy.QuotaTenant(t)), limit) <==> NoneRevivesAtLimit(states, calls, n, Spelled(t), limit)
  {
    hide Run, HasQuota, RunningFor, NoneRevivesAtLimit, NoReopening, SpelledSo, Policy.QuotaTenant, Spelled, Under;
    Starts(cfg, states, calls);
    QuotaHoldsIff(cfg, states, calls, n, t, limit);
    forall k | 0 <= k <= n
      ensures RunningFor(states[k].jobs, Under(Policy.QuotaTenant(t))) == RunningFor(states[k].jobs, Spelled(t))
    {
      SpellingStays(cfg, states, calls, k, t);
      SameRunning(states[k].jobs, t);
    }
  }
}
