/** Runs of the engine, from its empty state, in which a property one might hope for fails. */
module RunInstances {
  import opened Text
  import opened Records
  import opened Dag
  import opened Scheduler
  import opened Invariants
  import opened Runs
  import opened Quota
  import Policy

  const TASK := DagTask("t", "tool_execution", map[], [], 0, 0, None, None)
  const REF := TaskRef("j", "t")

  function OneTask(jobId: string, tenant: string): Submission {
    Submission(jobId, tenant, "", "", "", "", "", [TASK])
  }

  /** The states that a list of calls takes the engine through. */
  function Trace(cfg: Config, s: State, calls: seq<Call>): (states: seq<State>)
    ensures |states| == |calls| + 1 && states[0] == s
    decreases |calls|
  {
    if |calls| == 0 then [s]
    else [s] + Trace(cfg, Step(cfg, s, calls[0].action, calls[0].now), calls[1..])
  }

  ghost predicate AllLegal(cfg: Config, s: State, calls: seq<Call>)
    decreases |calls|
  {
    |calls| > 0 ==>
      && Legal(s, calls[0].action, calls[0].now)
      && AllLegal(cfg, Step(cfg, s, calls[0].action, calls[0].now), calls[1..])
  }

  lemma {:induction false} TraceFollows(cfg: Config, s: State, calls: seq<Call>, i: nat)
    requires AllLegal(cfg, s, calls) && i < |calls|
    ensures Follows(cfg, Trace(cfg, s, calls), calls, i)
    decreases |calls|
  {
    hide Step, Legal;
    var next := Step(cfg, s, calls[0].action, calls[0].now);
    if i > 0 {
      TraceFollows(cfg, next, calls[1..], i - 1);
      assert Trace(cfg, s, calls)[i] == Trace(cfg, next, calls[1..])[i - 1];
      assert Trace(cfg, s, calls)[i + 1] == Trace(cfg, next, calls[1..])[i];
      assert calls[i] == calls[1..][i - 1];
    }
  }

  lemma TraceRun(cfg: Config, calls: seq<Call>)
    requires cfg.leaseNanos > 0 && AllLegal(cfg, INIT, calls)
    ensures Run(cfg, Trace(cfg, INIT, calls), calls)
  {
    forall i | 0 <= i < |calls| ensures Follows(cfg, Trace(cfg, INIT, calls), calls, i) {
      TraceFollows(cfg, INIT, calls, i);
    }
  }

  // ---------- a reopened job ----------

  const DONE_REPORT := ReportReq("w", REF, "", "k", SaysCompleted, "uri")
  const LATE_REPORT := ReportReq("w", REF, "", "k:running", SaysRunning, "")
  const REOPENING := [Call(Submit(OneTask("j", "acme")), 1), Call(Tell(DONE_REPORT, [REF]), 2), Call(Tell(LATE_REPORT, [REF]), 3)]

  function Submitted1(cfg: Config): State { AddJob(cfg, INIT, OneTask("j", "acme"), 1) }

  lemma OneTaskStored(cfg: Config)
    requires SubmitAllowed(cfg, INIT, OneTask("j", "acme"))
    ensures Submitted1(cfg).jobs == map["j" := Job("acme", "", Running)]
    ensures Submitted1(cfg).tasks == map[REF := NewTask(OneTask("j", "acme"), TASK, 1)]
  {
    var sub := OneTask("j", "acme");
    hide DecoratedInputs, SubmitDecision;
    var none := WithoutJob(INIT.tasks, "j");
    assert none == map[];
    assert sub.tasks[..0] == [];
    assert PutTasks(none, sub, [], 1) == none;
    assert PutTasks(none, sub, sub.tasks, 1) == none[REF := NewTask(sub, TASK, 1)];
  }

  lemma OneTaskDone(s: State)
    requires s.jobs == map["j" := Job("acme", "", Running)] && s.tasks.Keys == {REF}
    requires s.tasks[REF].status == Queued && s.tasks[REF].lastReportKey == "" && s.tasks[REF].leaseId == ""
    requires s.tasks[REF].attempt == s.tasks[REF].maxRetries == 0
    ensures var s' := Report(s, DONE_REPORT, [REF], 2);
      && s'.jobs == map["j" := Job("acme", "", Completed)] && s'.tasks.Keys == {REF}
      && s'.tasks[REF].status == Completed && s'.tasks[REF].lastReportKey == "k" && s'.tasks[REF].leaseId == ""
      && s'.tasks[REF].attempt == s'.tasks[REF].maxRetries == 0
  {
    hide ReadyRefs, WithModel;
    var s' := Report(s, DONE_REPORT, [REF], 2);
    assert REF in s'.tasks && s'.tasks[REF].status == Completed;
    assert HasTasks(s'.tasks, "j") && AllCompleted(s'.tasks, "j");
  }

  lemma OneTaskReopened(s: State)
    requires s.jobs == map["j" := Job("acme", "", Completed)] && s.tasks.Keys == {REF}
    requires s.tasks[REF].status == Completed && s.tasks[REF].lastReportKey == "k" && s.tasks[REF].leaseId == ""
    ensures var s' := Report(s, LATE_REPORT, [REF], 3);
      s'.jobs == s.jobs && REF in s'.tasks && s'.tasks[REF].status == Running
  {
    assert |"k:running"| != |"k"|;
  }

  lemma OnlyRef(tasks: map<TaskRef, Task>)
    requires tasks.Keys == {REF}
    ensures Lists([REF], tasks.Keys)
  {
  }

  /** A run that ends with a Completed job whose only task is Running: submit it, report its task completed, and then
      running under another key. */
  lemma ReopenedJob(cfg: Config)
    requires cfg.leaseNanos > 0 && cfg.policy == Policy.ALLOW_ALL
    ensures var states := Trace(cfg, INIT, REOPENING);
      && Run(cfg, states, REOPENING)
      && "j" in states[3].jobs && states[3].jobs["j"].status == Completed
      && REF in states[3].tasks && states[3].tasks[REF].status == Running
      && !StatusesHold(states, 3)
  {
    hide Trace, Run, Report, Step;
    var s1 := Submitted1(cfg);
    OneTaskStored(cfg);
    OneTaskDone(s1);
    var s2 := Report(s1, DONE_REPORT, [REF], 2);
    OneTaskReopened(s2);
    var s3 := Report(s2, LATE_REPORT, [REF], 3);
    OnlyRef(s1.tasks);
    OnlyRef(s2.tasks);
    Traced(cfg, s1, s2, s3);
    assert HasTasks(s3.tasks, "j");
    assert !JobOk(s3.jobs["j"], s3.tasks, "j");
    assert !StatusesOk(s3.jobs, s3.tasks);
  }

  lemma Traced(cfg: Config, s1: State, s2: State, s3: State)
    requires cfg.leaseNanos > 0 && s1 == Submitted1(cfg)
    requires s2 == Report(s1, DONE_REPORT, [REF], 2) && s3 == Report(s2, LATE_REPORT, [REF], 3)
    requires Lists([REF], s1.tasks.Keys) && Lists([REF], s2.tasks.Keys)
    ensures Run(cfg, Trace(cfg, INIT, REOPENING), REOPENING) && Trace(cfg, INIT, REOPENING)[3] == s3
  {
    hide AddJob, Report, Lists;
    var c1, c2 := REOPENING[1..], REOPENING[1..][1..];
    assert c1 == [REOPENING[1], REOPENING[2]] && c2 == [REOPENING[2]] && c2[1..] == [];
    assert s2.clock == 2 && s1.clock == 1 by { ClockOf(cfg, s1, s2); }
    assert AllLegal(cfg, s2, c2);
    assert AllLegal(cfg, s1, c1);
    assert AllLegal(cfg, INIT, REOPENING);
    TraceRun(cfg, REOPENING);
    assert Trace(cfg, s2, c2) == [s2, s3];
    assert Trace(cfg, s1, c1) == [s1, s2, s3];
    assert Trace(cfg, INIT, REOPENING) == [INIT, s1, s2, s3];
  }

  lemma ClockOf(cfg: Config, s1: State, s2: State)
    requires s1 == Submitted1(cfg) && s2 == Report(s1, DONE_REPORT, [REF], 2)
    ensures s1.clock == 1 && s2.clock == 2
  {
    hide AcceptReport, SubmitAllowed, PutTasks, SourceRefs;
    if Judge(s1.(clock := 2), DONE_REPORT).Accept? {
      AcceptClock(s1.(clock := 2));
    }
  }

  lemma AcceptClock(s: State)
    requires REF in s.tasks && "j" in s.jobs
    ensures AcceptReport(s, DONE_REPORT, [REF], 2).clock == s.clock
  {
  }

  // ---------- one tenant, two spellings ----------

  const ONE_JOB := Policy.Engine("allow", [], map["acme" := Policy.TenantQuota(1, 0)], false)
  const SPELLINGS := [Call(Submit(OneTask("a", "acme")), 1), Call(Submit(OneTask("b", " acme")), 2)]

  lemma OtherSpelling()
    ensures Policy.QuotaTenant("acme") == Policy.QuotaTenant(" acme") == "acme"
  {
    assert " acme"[1..] == "acme";
  }

  lemma CountOne(jobs: map<string, Job>, j: string, t: string)
    requires j in jobs && jobs[j] == Job(t, "", Running)
    requires forall k :: k in jobs && jobs[k].tenant == t ==> k == j
    requires t != ""
    ensures CountJobs(jobs, t, Running) == 1
  {
    assert JobsOf(jobs, t, Running) == {j};
  }

  lemma CountNone(jobs: map<string, Job>, t: string)
    requires t != "" && forall k :: k in jobs ==> jobs[k].tenant != t
    ensures CountJobs(jobs, t, Running) == 0
  {
    assert JobsOf(jobs, t, Running) == {};
  }

  lemma SpellingsAccepted(cfg: Config, s1: State, s2: State)
    requires cfg.policy == ONE_JOB
    requires s1 == AddJob(cfg, INIT, OneTask("a", "acme"), 1) && s2 == AddJob(cfg, s1, OneTask("b", " acme"), 2)
    ensures s1.clock == 1
    ensures s2.jobs == map["a" := Job("acme", "", Running), "b" := Job(" acme", "", Running)]
  {
    hide PutTasks, SourceRefs, WithoutJob, CountJobs;
    OtherSpelling();
    assert |" acme"| != |"acme"|;
    CountNone(INIT.jobs, "acme");
    assert SubmitAllowed(cfg, INIT, OneTask("a", "acme"));
    assert s1.jobs == map["a" := Job("acme", "", Running)];
    CountNone(s1.jobs, " acme");
    assert SubmitAllowed(cfg, s1, OneTask("b", " acme"));
  }

  lemma SpellingsTraced(cfg: Config, s1: State, s2: State)
    requires cfg.leaseNanos > 0 && s1.clock == 1
    requires s1 == AddJob(cfg, INIT, OneTask("a", "acme"), 1) && s2 == AddJob(cfg, s1, OneTask("b", " acme"), 2)
    ensures Run(cfg, Trace(cfg, INIT, SPELLINGS), SPELLINGS) && Trace(cfg, INIT, SPELLINGS)[2] == s2
  {
    hide AddJob;
    var c1 := SPELLINGS[1..];
    assert c1 == [SPELLINGS[1]] && c1[1..] == [];
    assert AllLegal(cfg, s1, c1);
    assert AllLegal(cfg, INIT, SPELLINGS);
    TraceRun(cfg, SPELLINGS);
    assert Trace(cfg, s1, c1) == [s1, s2];
    assert Trace(cfg, INIT, SPELLINGS) == [INIT, s1, s2];
  }

  /** A quota of one running job, met by each spelling of the tenant's name, and two jobs running: running jobs are counted
      under the name as given, the quota is looked up under the trimmed one. */
  lemma TwoSpellings(cfg: Config)
    requires cfg.leaseNanos > 0 && cfg.policy == ONE_JOB
    ensures var states := Trace(cfg, INIT, SPELLINGS);
      && Run(cfg, states, SPELLINGS)
      && Policy.QuotaTenant("acme") == Policy.QuotaTenant(" acme")
      && CountJobs(states[2].jobs, "acme", Running) == 1 && CountJobs(states[2].jobs, " acme", Running) == 1
      && RunningFor(states[2].jobs, Under("acme")) == {"a", "b"}
  {
    hide AddJob, Trace, Run;
    OtherSpelling();
    assert |" acme"| != |"acme"|;
    var s1 := AddJob(cfg, INIT, OneTask("a", "acme"), 1);
    var s2 := AddJob(cfg, s1, OneTask("b", " acme"), 2);
    SpellingsAccepted(cfg, s1, s2);
    SpellingsTraced(cfg, s1, s2);
    CountOne(s2.jobs, "a", "acme");
    CountOne(s2.jobs, "b", " acme");
  }

  // ---------- a quota exceeded ----------

  const OTHER := TaskRef("b", "t")
  const RETRY_REPORT := ReportReq("w", REF, "", "k2", SaysOther, "")
  const EXCEEDING := [
    Call(Submit(OneTask("j", "acme")), 1), Call(Tell(DONE_REPORT, [REF]), 2),
    Call(Submit(OneTask("b", "acme")), 3), Call(Tell(RETRY_REPORT, [REF, OTHER]), 4)]

  lemma FirstAccepted(cfg: Config)
    requires cfg.policy == ONE_JOB
    ensures SubmitAllowed(cfg, INIT, OneTask("j", "acme"))
  {
    hide CountJobs;
    CountNone(INIT.jobs, "acme");
  }

  /** The first job is done, so the quota admits a second one. */
  lemma SecondAccepted(cfg: Config, s: State)
    requires cfg.policy == ONE_JOB
    requires s.jobs == map["j" := Job("acme", "", Completed)] && s.tasks.Keys == {REF}
    ensures var s' := AddJob(cfg, s, OneTask("b", "acme"), 3);
      && s'.jobs == map["j" := Job("acme", "", Completed), "b" := Job("acme", "", Running)]
      && s'.tasks.Keys == {REF, OTHER} && s'.tasks[REF] == s.tasks[REF] && s'.clock == 3
  {
    hide DecoratedInputs, SourceRefs;
    var sub := OneTask("b", "acme");
    assert JobsOf(s.jobs, "acme", Running) == {};
    assert SubmitAllowed(cfg, s, sub);
    var others := WithoutJob(s.tasks, "b");
    assert others == s.tasks;
    assert sub.tasks[..0] == [];
    assert PutTasks(others, sub, [], 3) == others;
    assert PutTasks(others, sub, sub.tasks, 3) == others[OTHER := NewTask(sub, TASK, 3)];
  }

  /** A failure reported late, under a new key, has the finished task retried: its job is Running again. */
  lemma FirstRevived(s: State)
    requires s.jobs == map["j" := Job("acme", "", Completed), "b" := Job("acme", "", Running)] && s.tasks.Keys == {REF, OTHER}
    requires s.tasks[REF].status == Completed && s.tasks[REF].lastReportKey == "k" && s.tasks[REF].leaseId == ""
    requires s.tasks[REF].attempt == s.tasks[REF].maxRetries == 0
    ensures var s' := Report(s, RETRY_REPORT, [REF, OTHER], 4);
      s'.jobs == map["j" := Job("acme", "", Running), "b" := Job("acme", "", Running)]
  {
    hide ReadyRefs, WithModel;
    assert |"k2"| != |"k"|;
    var s' := Report(s, RETRY_REPORT, [REF, OTHER], 4);
    assert s'.tasks == s.tasks[REF := ReportedTask(s.tasks[REF], RETRY_REPORT, 4)];
    assert s'.tasks[REF].status == Queued;
    assert !AllCompleted(s'.tasks, "j") && !AnyFailed(s'.tasks, "j");
  }

  lemma RetryRevives(s: State)
    requires s.jobs == map["j" := Job("acme", "", Completed), "b" := Job("acme", "", Running)] && s.tasks.Keys == {REF, OTHER}
    requires s.tasks[REF].lastReportKey == "k" && s.tasks[REF].leaseId == ""
    requires s.tasks[REF].attempt == s.tasks[REF].maxRetries == 0
    ensures Revives(s, RETRY_REPORT)
  {
    assert |"k2"| != |"k"|;
    var tasks := s.tasks[REF := ReportedTask(s.tasks[REF], RETRY_REPORT, s.clock)];
    assert tasks[REF].status == Queued;
    assert !AllCompleted(tasks, "j") && !AnyFailed(tasks, "j");
  }

  lemma BothRefs(tasks: map<TaskRef, Task>)
    requires tasks.Keys == {REF, OTHER}
    ensures Lists([REF, OTHER], tasks.Keys)
  {
  }

  lemma ExceedingTraced(cfg: Config, s1: State, s2: State, s3: State, s4: State)
    requires cfg.leaseNanos > 0 && s1 == AddJob(cfg, INIT, OneTask("j", "acme"), 1) && s1.clock == 1
    requires s2 == Report(s1, DONE_REPORT, [REF], 2) && s2.clock == 2
    requires s3 == AddJob(cfg, s2, OneTask("b", "acme"), 3) && s3.clock == 3
    requires s4 == Report(s3, RETRY_REPORT, [REF, OTHER], 4)
    requires Lists([REF], s1.tasks.Keys) && Lists([REF, OTHER], s3.tasks.Keys)
    ensures var states := Trace(cfg, INIT, EXCEEDING);
      Run(cfg, states, EXCEEDING) && states[3] == s3 && states[4] == s4
  {
    hide AddJob, Report, Lists;
    var c1, c2, c3 := EXCEEDING[1..], EXCEEDING[2..], EXCEEDING[3..];
    assert c1[1..] == c2 && c2[1..] == c3 && c3[1..] == [];
    assert AllLegal(cfg, s3, c3);
    assert AllLegal(cfg, s2, c2);
    assert AllLegal(cfg, s1, c1);
    assert AllLegal(cfg, INIT, EXCEEDING);
    TraceRun(cfg, EXCEEDING);
    assert Trace(cfg, s3, c3) == [s3, s4];
    assert Trace(cfg, s2, c2) == [s2, s3, s4];
    assert Trace(cfg, s1, c1) == [s1, s2, s3, s4];
    assert Trace(cfg, INIT, EXCEEDING) == [INIT, s1, s2, s3, s4];
  }

  /** A run that ends with two jobs running under a quota of one: the first job completes, a second is admitted, and a late
      failure report has the first one's task retried. */
  lemma QuotaExceeded(cfg: Config)
    requires cfg.leaseNanos > 0 && cfg.policy == ONE_JOB
    ensures var states := Trace(cfg, INIT, EXCEEDING);
      && Run(cfg, states, EXCEEDING)
      && CountJobs(states[4].jobs, "acme", Running) == 2
      && RevivesAtLimit(states[3], RETRY_REPORT, Spelled("acme"), 1)
  {
    hide Trace, Run, Report, Step, AddJob, SubmitAllowed, Revives;
    FirstAccepted(cfg);
    OneTaskStored(cfg);
    var s1 := Submitted1(cfg);
    OneTaskDone(s1);
    var s2 := Report(s1, DONE_REPORT, [REF], 2);
    SecondAccepted(cfg, s2);
    var s3 := AddJob(cfg, s2, OneTask("b", "acme"), 3);
    FirstRevived(s3);
    RetryRevives(s3);
    var s4 := Report(s3, RETRY_REPORT, [REF, OTHER], 4);
    OnlyRef(s1.tasks);
    BothRefs(s3.tasks);
    ClockOf(cfg, s1, s2);
    ExceedingTraced(cfg, s1, s2, s3, s4);
    assert JobsOf(s4.jobs, "acme", Running) == {"j", "b"};
    assert RunningFor(s3.jobs, Spelled("acme")) == {"b"};
  }
}
