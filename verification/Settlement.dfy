/** How a poll leaves the queue: every claim it made is settled, and no runnable task is lost. */
module Settlement {
  import opened Records
  import opened Scheduler
  import opened PollConsistency
  import opened QueueLaws
  import Q = QueueModel

  lemma Partition(acks: seq<Claim>, nacks: seq<Claim>, errs: seq<Claim>, claims: seq<Claim>, r: string)
    requires multiset(acks) + multiset(nacks) + multiset(errs) == multiset(claims)
    ensures HasReceipt(claims, r) <==> HasReceipt(acks, r) || HasReceipt(nacks, r) || HasReceipt(errs, r)
  {
    if HasReceipt(claims, r) {
      var i :| 0 <= i < |claims| && claims[i].receipt == r;
      assert claims[i] in multiset(claims);
      assert claims[i] in acks || claims[i] in nacks || claims[i] in errs;
    }
    MemberReceipt(acks, claims, r);
    MemberReceipt(nacks, claims, r);
    MemberReceipt(errs, claims, r);
  }

  lemma MemberReceipt(part: seq<Claim>, whole: seq<Claim>, r: string)
    requires multiset(part) <= multiset(whole)
    ensures HasReceipt(part, r) ==> HasReceipt(whole, r)
  {
    if HasReceipt(part, r) {
      var i :| 0 <= i < |part| && part[i].receipt == r;
      assert part[i] in multiset(part);
      assert part[i] in multiset(whole);
      var k :| 0 <= k < |whole| && whole[k] == part[i];
    }
  }

  /** After settling, a receipt is in flight exactly if it was before and the poll did not claim it. */
  lemma SettleInflight(acc: Acc, claims: seq<Claim>, r: string)
    requires multiset(acc.acks) + multiset(acc.nacks) + multiset(acc.errs) == multiset(claims)
    ensures r in Settle(acc).queue.inflight <==> r in acc.s.queue.inflight && !HasReceipt(claims, r)
  {
    var q1 := Q.Ack(acc.s.queue, acc.acks);
    var q2 := Q.Nack(q1, acc.nacks, false);
    AckInflight(acc.s.queue, acc.acks, r);
    NackInflight(q1, acc.nacks, false, r);
    NackInflight(q2, acc.errs, true, r);
    Partition(acc.acks, acc.nacks, acc.errs, claims, r);
  }

  lemma SettleValid(acc: Acc)
    requires Valid(acc.s.queue)
    ensures Valid(Settle(acc).queue)
  {
    var q1 := Q.Ack(acc.s.queue, acc.acks);
    AckValid(acc.s.queue, acc.acks);
    NackValid(q1, acc.nacks, false);
    NackValid(Q.Nack(q1, acc.nacks, false), acc.errs, true);
  }

  // ---------- counters: a poll changes the queue's counter only by claiming ----------

  lemma CarryOutCounter(cfg: Config, s: State, worker: string, ref: TaskRef, now: int, sc: Screening)
    requires ScreeningOk(s, worker, ref, now, sc)
    ensures CarryOut(cfg, s, worker, ref, now, sc).0.queue.counter == s.queue.counter
  {
  }

  lemma AssignOneCounter(cfg: Config, acc: Acc, worker: string, max: int, claim: Claim, now: int, c: Choice)
    ensures AssignOne(cfg, acc, worker, max, claim, now, c).s.queue.counter == acc.s.queue.counter
  {
    CarryOutCounter(cfg, acc.s, worker, claim.ref, now, Screen(cfg, acc.s, worker, claim.ref, now, c));
  }

  lemma {:induction false} AssignAllCounter(cfg: Config, s: State, worker: string, max: int, claims: seq<Claim>, n: nat, now: int, choices: seq<Choice>)
    requires n <= |claims|
    ensures AssignAll(cfg, s, worker, max, claims, n, now, choices).s.queue.counter == s.queue.counter
  {
    if n > 0 {
      AssignAllCounter(cfg, s, worker, max, claims, n - 1, now, choices);
      AssignOneCounter(cfg, AssignAll(cfg, s, worker, max, claims, n - 1, now, choices), worker, max, claims[n - 1], now,
                       ChoiceAt(choices, n - 1));
    }
  }

  // ---------- the assigning phase ----------

  /** What the assigning phase guarantees, from the swept state s. */
  lemma AssigningOk(cfg: Config, s: State, worker: string, max: int, now: int, o: PollOrders)
    requires Valid(s.queue)
    ensures var (queue, claims) := PollClaims(cfg, s, worker, max, now);
      var s1 := s.(queue := queue);
      var sorted := SortClaims(cfg, s1, claims);
      && AccOk(s1, Assigning(cfg, s, worker, max, now, o), worker, PollMax(max), sorted, |sorted|)
      && multiset(sorted) == multiset(claims)
      && Valid(queue)
      && Valid(Assigning(cfg, s, worker, max, now, o).s.queue)
  {
    var (queue, claims) := PollClaims(cfg, s, worker, max, now);
    var s1 := s.(queue := queue);
    var sorted := SortClaims(cfg, s1, claims);
    SortedByRank(cfg, s1, claims);
    ClaimsValid(s.queue, Q.ClaimCount(s.queue, PollMax(max) * 32), worker, now, cfg.leaseNanos);
    AssignAllOk(cfg, s1, worker, PollMax(max), sorted, |sorted|, now, o.choices);
    AssignAllCounter(cfg, s1, worker, PollMax(max), sorted, |sorted|, now, o.choices);
  }

  /** The acks, nacks and error nacks of a poll together are the claims it made, each once. */
  lemma ClaimsSettledOnce(cfg: Config, s: State, worker: string, max: int, now: int, o: PollOrders)
    ensures var acc := Assigning(cfg, s, worker, max, now, o);
      multiset(acc.acks) + multiset(acc.nacks) + multiset(acc.errs) == multiset(PollClaims(cfg, s, worker, max, now).1)
  {
    var (queue, claims) := PollClaims(cfg, s, worker, max, now);
    var s1 := s.(queue := queue);
    var sorted := SortClaims(cfg, s1, claims);
    SortedByRank(cfg, s1, claims);
    AssignAllSplit(cfg, s1, worker, PollMax(max), sorted, |sorted|, now, o.choices);
    assert sorted[..|sorted|] == sorted;
  }

  lemma SettledInflight(cfg: Config, s: State, worker: string, max: int, now: int, o: PollOrders, r: string)
    requires Valid(s.queue)
    ensures r in Settle(Assigning(cfg, s, worker, max, now, o)).queue.inflight <==> r in s.queue.inflight
  {
    var n := Q.ClaimCount(s.queue, PollMax(max) * 32);
    var (queue, claims) := PollClaims(cfg, s, worker, max, now);
    AssigningOk(cfg, s, worker, max, now, o);
    ClaimsSettledOnce(cfg, s, worker, max, now, o);
    SettleInflight(Assigning(cfg, s, worker, max, now, o), claims, r);
    ClaimsInflight(s.queue, n, worker, now, cfg.leaseNanos, r);
  }

  /** One poll is consistent.  It returns at most max assignments, for pairwise distinct tasks, and each of those
      tasks ends the poll Assigned to the polling worker under the returned lease and attempt.  What is in flight
      afterwards is what was in flight before claiming: each claim was acked or nacked exactly once. */
  lemma PollIsConsistent(cfg: Config, s: State, worker: string, max: int, now: int, o: PollOrders)
    requires Valid(s.queue) && worker in s.workers
    ensures var (s', result) := PollAssignments(cfg, s, worker, max, now, o);
      && result.Polled?
      && |result.assignments| <= PollMax(max)
      && (forall i, j :: 0 <= i < j < |result.assignments| ==> result.assignments[i].ref != result.assignments[j].ref)
      && (forall i :: 0 <= i < |result.assignments| ==> Holds(s', worker, result.assignments[i]))
      && s'.queue.inflight.Keys == Swept(s, max, now, o).queue.inflight.Keys
      && Valid(s'.queue)
  {
    var swept := Swept(s, max, now, o);
    SweptValid(s, max, now, o);
    AssigningOk(cfg, swept, worker, max, now, o);
    var acc := Assigning(cfg, swept, worker, max, now, o);
    SettleValid(acc);
    var s' := Settle(acc);
    forall i | 0 <= i < |acc.given| ensures Holds(s', worker, acc.given[i]) {
      var (queue, claims) := PollClaims(cfg, swept, worker, max, now);
      var s1 := swept.(queue := queue);
      var sorted := SortClaims(cfg, s1, claims);
      assert Kept(s1, acc, worker, sorted, |sorted|, i);
    }
    forall r: string ensures r in s'.queue.inflight <==> r in swept.queue.inflight {
      SettledInflight(cfg, swept, worker, max, now, o, r);
    }
  }

  lemma SweptValid(s: State, max: int, now: int, o: PollOrders)
    requires Valid(s.queue)
    ensures Valid(Swept(s, max, now, o).queue)
  {
    ReleaseValid(s.queue, Q.Due(s.queue, o.receipts, now, PollMax(max) * 8));
  }
}
