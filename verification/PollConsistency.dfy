/** One poll is consistent: bounded, duplicate-free, every returned lease still held at the end,
    and every claim settled exactly once. */
module PollConsistency {
  import opened Text
  import opened Records
  import opened Scheduler
  import Sorting

  // ---------- what trying one claim leaves alone ----------

  /** The queue may only gain waiting refs, and tasks keep their identity. */
  ghost predicate Frame(s: State, s': State) {
    && s'.tasks.Keys == s.tasks.Keys
    && (forall r :: r in s.tasks ==>
          s'.tasks[r].inputs == s.tasks[r].inputs && s'.tasks[r].deps == s.tasks[r].deps)
    && s'.queue.inflight == s.queue.inflight
    && s'.queue.dead == s.queue.dead
    && |s.queue.items| <= |s'.queue.items|
    && s'.queue.items[..|s.queue.items|] == s.queue.items
    && s'.workers == s.workers
  }

  lemma FrameTrans(a: State, b: State, c: State)
    requires Frame(a, b) && Frame(b, c)
    ensures Frame(a, c)
  {
    assert c.queue.items[..|a.queue.items|] == c.queue.items[..|b.queue.items|][..|a.queue.items|];
    forall r | r in a.tasks ensures c.tasks[r].inputs == a.tasks[r].inputs && c.tasks[r].deps == a.tasks[r].deps {
      assert r in b.tasks;
    }
  }

  lemma GrantFrame(cfg: Config, s: State, worker: string, ref: TaskRef, now: int)
    requires ref in s.tasks && ref.jobId in s.jobs && worker in s.workers
    ensures Frame(s, Grant(cfg, s, worker, ref, now).0)
    ensures forall r :: r in s.tasks && r != ref ==> Grant(cfg, s, worker, ref, now).0.tasks[r] == s.tasks[r]
  {
  }

  lemma PreemptFrame(s: State, v: TaskRef, now: int)
    requires v in s.tasks
    ensures Frame(s, Preempt(s, v, now))
  {
  }

  /** The assignment a successful try returns is what the task then holds. */
  ghost predicate Holds(s: State, worker: string, a: Assignment) {
    && a.ref in s.tasks
    && s.tasks[a.ref].status == Assigned
    && s.tasks[a.ref].worker == worker
    && s.tasks[a.ref].leaseId == a.leaseId
    && s.tasks[a.ref].attempt == a.attempt
  }

  lemma GrantHolds(cfg: Config, s: State, worker: string, ref: TaskRef, now: int)
    requires ref in s.tasks && ref.jobId in s.jobs && worker in s.workers
    ensures var (s', r) := Grant(cfg, s, worker, ref, now);
      r.Given? ==> r.a.ref == ref && Holds(s', worker, r.a)
  {
  }

  /** Trying a claim changes the claimed task and at most one victim, whose priority is lower. */
  lemma CarryOutFrame(cfg: Config, s: State, worker: string, ref: TaskRef, now: int, sc: Screening)
    requires ScreeningOk(s, worker, ref, now, sc)
    ensures var (s', r) := CarryOut(cfg, s, worker, ref, now, sc);
      && Frame(s, s')
      && (r.Given? ==> r.a.ref == ref && Holds(s', worker, r.a) && ref in s.tasks && s.tasks[ref].status == Queued)
  {
    match sc
    case Refuse(_) => FrameSelf(s);
    case GoAhead(None) =>
      GrantFrame(cfg, s, worker, ref, now);
      GrantHolds(cfg, s, worker, ref, now);
    case GoAhead(Some(v)) =>
      var s1 := Preempt(s, v, now);
      PreemptFrame(s, v, now);
      GrantFrame(cfg, s1, worker, ref, now);
      GrantHolds(cfg, s1, worker, ref, now);
      FrameTrans(s, s1, Grant(cfg, s1, worker, ref, now).0);
  }

  lemma FrameSelf(s: State)
    ensures Frame(s, s)
  {
    assert s.queue.items[..|s.queue.items|] == s.queue.items;
  }

  /** A task that is Assigned and of no lower priority than the claimed one is not touched. */
  lemma CarryOutSpares(cfg: Config, s: State, worker: string, ref: TaskRef, now: int, sc: Screening, other: TaskRef)
    requires ScreeningOk(s, worker, ref, now, sc)
    requires other in s.tasks && s.tasks[other].status == Assigned
    requires ref in s.tasks ==> TaskRank(s.tasks[other]) >= TaskRank(s.tasks[ref])
    ensures var s' := CarryOut(cfg, s, worker, ref, now, sc).0;
      other in s'.tasks && s'.tasks[other] == s.tasks[other]
  {
    match sc
    case Refuse(_) =>
    case GoAhead(None) => GrantFrame(cfg, s, worker, ref, now);
    case GoAhead(Some(v)) =>
      assert v != other;
      GrantFrame(cfg, Preempt(s, v, now), worker, ref, now);
  }

  lemma TryAssignFrame(cfg: Config, s: State, worker: string, ref: TaskRef, now: int, c: Choice)
    ensures var (s', r) := TryAssign(cfg, s, worker, ref, now, c);
      && Frame(s, s')
      && (r.Given? ==> r.a.ref == ref && Holds(s', worker, r.a) && ref in s.tasks && s.tasks[ref].status == Queued)
  {
    CarryOutFrame(cfg, s, worker, ref, now, Screen(cfg, s, worker, ref, now, c));
  }

  lemma TryAssignSpares(cfg: Config, s: State, worker: string, ref: TaskRef, now: int, c: Choice, other: TaskRef)
    requires other in s.tasks && s.tasks[other].status == Assigned
    requires ref in s.tasks ==> TaskRank(s.tasks[other]) >= TaskRank(s.tasks[ref])
    ensures var s' := TryAssign(cfg, s, worker, ref, now, c).0;
      other in s'.tasks && s'.tasks[other] == s.tasks[other]
  {
    CarryOutSpares(cfg, s, worker, ref, now, Screen(cfg, s, worker, ref, now, c), other);
  }

  // ---------- the assignment loop ----------

  ghost predicate ByRank(s: State, claims: seq<Claim>) {
    forall i, j :: 0 <= i < j < |claims| ==> ClaimRank(s, claims[i].ref) >= ClaimRank(s, claims[j].ref)
  }

  /** The i-th assignment is held by the worker and outranks every claim from n on. */
  ghost predicate Kept(s0: State, acc: Acc, worker: string, claims: seq<Claim>, n: nat, i: nat)
    requires i < |acc.given|
  {
    && Holds(acc.s, worker, acc.given[i])
    && i < |acc.acks| && acc.acks[i].ref == acc.given[i].ref
    && forall k :: n <= k < |claims| ==> ClaimRank(s0, acc.given[i].ref) >= ClaimRank(s0, claims[k].ref)
  }

  ghost predicate AccOk(s0: State, acc: Acc, worker: string, max: int, claims: seq<Claim>, n: nat)
    requires n <= |claims|
  {
    && Frame(s0, acc.s)
    && |acc.given| <= max
    && |acc.given| == |acc.acks|
    && (forall i :: 0 <= i < |acc.given| ==> Kept(s0, acc, worker, claims, n, i))
    && (forall i, j :: 0 <= i < j < |acc.given| ==> acc.given[i].ref != acc.given[j].ref)
  }

  /** The claims tried so far are split among acks, nacks and error nacks. */
  ghost predicate SplitUp(acc: Acc, claims: seq<Claim>, n: nat)
    requires n <= |claims|
  {
    multiset(acc.acks) + multiset(acc.nacks) + multiset(acc.errs) == multiset(claims[..n])
  }

  lemma FrameRank(s0: State, s: State, r: TaskRef)
    requires Frame(s0, s)
    ensures ClaimRank(s, r) == ClaimRank(s0, r)
    ensures r in s0.tasks ==> r in s.tasks && TaskRank(s.tasks[r]) == TaskRank(s0.tasks[r])
  {
  }

  /** An earlier assignment survives the next try. */
  lemma KeptStep(cfg: Config, s0: State, acc: Acc, worker: string, claims: seq<Claim>, n: nat, now: int, c: Choice, i: nat)
    requires Frame(s0, acc.s) && n < |claims| && i < |acc.given| && Kept(s0, acc, worker, claims, n, i)
    ensures var s' := TryAssign(cfg, acc.s, worker, claims[n].ref, now, c).0;
      && Holds(s', worker, acc.given[i])
      && (acc.given[i].ref == claims[n].ref ==> !TryAssign(cfg, acc.s, worker, claims[n].ref, now, c).1.Given?)
  {
    var other, ref := acc.given[i].ref, claims[n].ref;
    FrameRank(s0, acc.s, other);
    FrameRank(s0, acc.s, ref);
    assert ClaimRank(s0, other) >= ClaimRank(s0, ref);
    TryAssignSpares(cfg, acc.s, worker, ref, now, c, other);
    TryAssignFrame(cfg, acc.s, worker, ref, now, c);
  }

  lemma PutOne(a: multiset<Claim>, b: multiset<Claim>, c: multiset<Claim>, claims: seq<Claim>, n: nat)
    requires n < |claims| && a + b + c == multiset(claims[..n])
    ensures (a + multiset{claims[n]}) + b + c == multiset(claims[..n + 1])
    ensures a + (b + multiset{claims[n]}) + c == multiset(claims[..n + 1])
    ensures a + b + (c + multiset{claims[n]}) == multiset(claims[..n + 1])
  {
    assert claims[..n + 1] == claims[..n] + [claims[n]];
  }

  /** The loop body when the poll is already full. */
  lemma FullOk(s0: State, acc: Acc, worker: string, max: int, claims: seq<Claim>, n: nat, m: nat)
    requires m == n + 1 <= |claims| && AccOk(s0, acc, worker, max, claims, n)
    ensures AccOk(s0, acc.(nacks := acc.nacks + [claims[n]]), worker, max, claims, m)
  {
    var acc' := acc.(nacks := acc.nacks + [claims[n]]);
    forall i | 0 <= i < |acc'.given| ensures Kept(s0, acc', worker, claims, m, i) {
      assert Kept(s0, acc, worker, claims, n, i);
    }
  }

  /** The earlier assignments after one more try. */
  lemma EarlierKept(cfg: Config, s0: State, acc: Acc, worker: string, max: int, claims: seq<Claim>, n: nat, m: nat,
                    now: int, c: Choice, acc': Acc, i: nat)
    requires m == n + 1 <= |claims| && AccOk(s0, acc, worker, max, claims, n) && i < |acc.given|
    requires acc'.s == TryAssign(cfg, acc.s, worker, claims[n].ref, now, c).0
    requires |acc.given| <= |acc'.given| && acc'.given[i] == acc.given[i]
    requires |acc.acks| <= |acc'.acks| && acc'.acks[i] == acc.acks[i]
    ensures Kept(s0, acc', worker, claims, m, i)
  {
    assert Kept(s0, acc, worker, claims, n, i);
    KeptStep(cfg, s0, acc, worker, claims, n, now, c, i);
  }

  lemma NotGivenOk(cfg: Config, s0: State, acc: Acc, worker: string, max: int, claims: seq<Claim>, n: nat, m: nat,
                   now: int, c: Choice, acc': Acc)
    requires m == n + 1 <= |claims| && AccOk(s0, acc, worker, max, claims, n)
    requires acc'.s == TryAssign(cfg, acc.s, worker, claims[n].ref, now, c).0
    requires acc'.given == acc.given && acc'.acks == acc.acks
    requires (acc'.nacks == acc.nacks + [claims[n]] && acc'.errs == acc.errs)
          || (acc'.nacks == acc.nacks && acc'.errs == acc.errs + [claims[n]])
    ensures AccOk(s0, acc', worker, max, claims, m)
  {
    TryAssignFrame(cfg, acc.s, worker, claims[n].ref, now, c);
    FrameTrans(s0, acc.s, acc'.s);
    forall i | 0 <= i < |acc'.given| ensures Kept(s0, acc', worker, claims, m, i) {
      EarlierKept(cfg, s0, acc, worker, max, claims, n, m, now, c, acc', i);
    }
  }

  lemma GivenOk(cfg: Config, s0: State, acc: Acc, worker: string, max: int, claims: seq<Claim>, n: nat, m: nat,
                now: int, c: Choice, acc': Acc)
    requires m == n + 1 <= |claims| && AccOk(s0, acc, worker, max, claims, n) && ByRank(s0, claims)
    requires |acc.given| < max
    requires TryAssign(cfg, acc.s, worker, claims[n].ref, now, c).1.Given?
    requires acc'.s == TryAssign(cfg, acc.s, worker, claims[n].ref, now, c).0
    requires acc'.given == acc.given + [TryAssign(cfg, acc.s, worker, claims[n].ref, now, c).1.a]
    requires acc'.acks == acc.acks + [claims[n]] && acc'.nacks == acc.nacks && acc'.errs == acc.errs
    ensures AccOk(s0, acc', worker, max, claims, m)
  {
    hide TryAssign;
    TryAssignFrame(cfg, acc.s, worker, claims[n].ref, now, c);
    FrameTrans(s0, acc.s, acc'.s);
    FrameRank(s0, acc.s, claims[n].ref);
    forall i | 0 <= i < |acc'.given| ensures Kept(s0, acc', worker, claims, m, i) {
      if i < |acc.given| {
        EarlierKept(cfg, s0, acc, worker, max, claims, n, m, now, c, acc', i);
      }
    }
    forall i, j | 0 <= i < j < |acc'.given| ensures acc'.given[i].ref != acc'.given[j].ref {
      if j == |acc.given| {
        assert Kept(s0, acc, worker, claims, n, i);
        KeptStep(cfg, s0, acc, worker, claims, n, now, c, i);
      }
    }
  }

  lemma AssignOneOk(cfg: Config, s0: State, acc: Acc, worker: string, max: int, claims: seq<Claim>, n: nat, m: nat,
                    now: int, c: Choice)
    requires m == n + 1 <= |claims| && AccOk(s0, acc, worker, max, claims, n) && ByRank(s0, claims)
    ensures AccOk(s0, AssignOne(cfg, acc, worker, max, claims[n], now, c), worker, max, claims, m)
  {
    var acc' := AssignOne(cfg, acc, worker, max, claims[n], now, c);
    if |acc.given| >= max {
      FullOk(s0, acc, worker, max, claims, n, m);
    } else if TryAssign(cfg, acc.s, worker, claims[n].ref, now, c).1.Given? {
      GivenOk(cfg, s0, acc, worker, max, claims, n, m, now, c, acc');
    } else {
      NotGivenOk(cfg, s0, acc, worker, max, claims, n, m, now, c, acc');
    }
  }

  lemma StartOk(s: State, worker: string, max: int, claims: seq<Claim>)
    requires max >= 1
    ensures AccOk(s, Acc(s, [], [], [], []), worker, max, claims, 0)
  {
    assert s.queue.items[..|s.queue.items|] == s.queue.items;
  }

  lemma {:induction false} AssignAllOk(cfg: Config, s: State, worker: string, max: int, claims: seq<Claim>, n: nat, now: int, choices: seq<Choice>)
    requires n <= |claims| && max >= 1 && ByRank(s, claims)
    ensures AccOk(s, AssignAll(cfg, s, worker, max, claims, n, now, choices), worker, max, claims, n)
  {
    hide TryAssign, Screen;
    if n == 0 {
      StartOk(s, worker, max, claims);
    } else {
      AssignAllOk(cfg, s, worker, max, claims, n - 1, now, choices);
      AssignOneOk(cfg, s, AssignAll(cfg, s, worker, max, claims, n - 1, now, choices), worker, max, claims, n - 1, n, now,
                  ChoiceAt(choices, n - 1));
    }
  }

  lemma AssignOneSplit(cfg: Config, acc: Acc, worker: string, max: int, claims: seq<Claim>, n: nat, m: nat, now: int, c: Choice)
    requires m == n + 1 <= |claims| && SplitUp(acc, claims, n)
    ensures SplitUp(AssignOne(cfg, acc, worker, max, claims[n], now, c), claims, m)
  {
    PutOne(multiset(acc.acks), multiset(acc.nacks), multiset(acc.errs), claims, n);
  }

  lemma StartSplit(s: State, claims: seq<Claim>)
    ensures SplitUp(Acc(s, [], [], [], []), claims, 0)
  {
    assert claims[..0] == [];
  }

  lemma {:induction false} AssignAllSplit(cfg: Config, s: State, worker: string, max: int, claims: seq<Claim>, n: nat, now: int, choices: seq<Choice>)
    requires n <= |claims|
    ensures SplitUp(AssignAll(cfg, s, worker, max, claims, n, now, choices), claims, n)
  {
    hide AssignOne;
    if n == 0 {
      StartSplit(s, claims);
    } else {
      AssignAllSplit(cfg, s, worker, max, claims, n - 1, now, choices);
      AssignOneSplit(cfg, AssignAll(cfg, s, worker, max, claims, n - 1, now, choices), worker, max, claims, n - 1, n, now,
                     ChoiceAt(choices, n - 1));
    }
  }

  // ---------- claims are tried in priority order ----------

  lemma ClaimOrderStrictWeak(cfg: Config, s: State)
    ensures Sorting.StrictWeak((a: Claim, b: Claim) => ClaimBefore(cfg, s, a, b))
  {
  }

  lemma SortedByRank(cfg: Config, s: State, claims: seq<Claim>)
    ensures ByRank(s, SortClaims(cfg, s, claims))
    ensures multiset(SortClaims(cfg, s, claims)) == multiset(claims)
  {
    var before := (a: Claim, b: Claim) => ClaimBefore(cfg, s, a, b);
    ClaimOrderStrictWeak(cfg, s);
    Sorting.SortOrders(claims, before);
    Sorting.SortPermutes(claims, before);
    var sorted := SortClaims(cfg, s, claims);
    forall i, j | 0 <= i < j < |sorted| ensures ClaimRank(s, sorted[i].ref) >= ClaimRank(s, sorted[j].ref) {
      assert !before(sorted[j], sorted[i]);
    }
  }
}
