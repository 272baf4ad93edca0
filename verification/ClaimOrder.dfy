/** Which claims a poll serves first: higher priority, then longer waiting. */
module ClaimOrder {
  import opened Text
  import opened Records
  import opened Scheduler
  import opened PollConsistency
  import Sorting

  /** Interactive work goes before standard work, and that before batch work. */
  lemma PriorityOrder()
    ensures PriorityRank("batch") == PriorityRank("low") < PriorityRank("standard") == PriorityRank("medium")
    ensures PriorityRank("standard") < PriorityRank("interactive") == PriorityRank("high")
  {
    hide Lower, Trim;
    Words();
    assert |"batch"| == 5 && |"low"| == 3 && |"standard"| == 8 && |"medium"| == 6 && |"interactive"| == 11 && |"high"| == 4;
  }

  /** Case and surrounding space do not matter, and what is not known counts as standard. */
  lemma PriorityFolds(p: string)
    ensures PriorityRank(Lower(Trim(p))) == PriorityRank(p)
    ensures Lower(Trim(p)) !in {"batch", "low", "interactive", "high"} ==> PriorityRank(p) == PriorityRank("standard")
  {
    hide Lower, Trim;
    FoldedStays(p);
    Words();
    assert |"standard"| == 8;
  }

  lemma Words()
    ensures Lower(Trim("batch")) == "batch" && Lower(Trim("low")) == "low" && Lower(Trim("standard")) == "standard"
    ensures Lower(Trim("medium")) == "medium" && Lower(Trim("interactive")) == "interactive" && Lower(Trim("high")) == "high"
  {
    Spelled("batch");
    Spelled("low");
    Spelled("standard");
    Spelled("medium");
    Spelled("interactive");
    Spelled("high");
  }

  lemma Spelled(p: string)
    requires Tight(p) && Lower(p) == p
    ensures Lower(Trim(p)) == p
  {
    TightStays(p);
  }

  /** a may be served before b: its task has a higher priority, or the same and was created no later. */
  ghost predicate ServedFirst(tasks: map<TaskRef, Task>, a: TaskRef, b: TaskRef) {
    a in tasks && b in tasks ==>
      || PriorityRank(Get(tasks[a].inputs, "_priority")) > PriorityRank(Get(tasks[b].inputs, "_priority"))
      || (PriorityRank(Get(tasks[a].inputs, "_priority")) == PriorityRank(Get(tasks[b].inputs, "_priority"))
          && tasks[a].createdAt <= tasks[b].createdAt)
  }

  /** Claims are tried by priority, and the older of two equal ones first. */
  lemma TriedInOrder(cfg: Config, s: State, claims: seq<Claim>, i: nat, j: nat)
    requires i < j < |SortClaims(cfg, s, claims)|
    ensures ServedFirst(s.tasks, SortClaims(cfg, s, claims)[i].ref, SortClaims(cfg, s, claims)[j].ref)
  {
    hide PriorityRank, RefText;
    var before := (a: Claim, b: Claim) => ClaimBefore(cfg, s, a, b);
    ClaimOrderStrictWeak(cfg, s);
    Sorting.SortOrders(claims, before);
    var sorted := SortClaims(cfg, s, claims);
    assert !before(sorted[j], sorted[i]);
  }

  // ---------- what a full poll leaves for later ----------

  /** Once the poll is full, nothing more is handed out. */
  lemma {:induction false} FullStays(cfg: Config, s: State, worker: string, max: int, claims: seq<Claim>, k: nat, n: nat,
                                     now: int, choices: seq<Choice>)
    requires k <= n <= |claims| && |AssignAll(cfg, s, worker, max, claims, k, now, choices).given| >= max
    ensures AssignAll(cfg, s, worker, max, claims, n, now, choices).given
         == AssignAll(cfg, s, worker, max, claims, k, now, choices).given
  {
    hide TryAssign;
    if k < n {
      FullStays(cfg, s, worker, max, claims, k, n - 1, now, choices);
    }
  }

  /** Each hand-out of the first n turns was for one of the first n claims. */
  lemma {:induction false} GivenAmong(cfg: Config, s: State, worker: string, max: int, claims: seq<Claim>, n: nat,
                                      now: int, choices: seq<Choice>, i: nat) returns (m: nat)
    requires n <= |claims| && i < |AssignAll(cfg, s, worker, max, claims, n, now, choices).given|
    ensures m < n && AssignAll(cfg, s, worker, max, claims, n, now, choices).given[i].ref == claims[m].ref
  {
    hide TryAssign, AssignAll;
    Unroll(cfg, s, worker, max, claims, n, now, choices);
    var acc := AssignAll(cfg, s, worker, max, claims, n - 1, now, choices);
    if i < |acc.given| {
      m := GivenAmong(cfg, s, worker, max, claims, n - 1, now, choices, i);
    } else {
      TryAssignFrame(cfg, acc.s, worker, claims[n - 1].ref, now, ChoiceAt(choices, n - 1));
      m := n - 1;
    }
  }

  lemma Unroll(cfg: Config, s: State, worker: string, max: int, claims: seq<Claim>, n: nat, now: int, choices: seq<Choice>)
    requires n <= |claims|
    ensures n == 0 ==> AssignAll(cfg, s, worker, max, claims, n, now, choices).given == []
    ensures n > 0 ==>
      AssignAll(cfg, s, worker, max, claims, n, now, choices)
      == AssignOne(cfg, AssignAll(cfg, s, worker, max, claims, n - 1, now, choices), worker, max, claims[n - 1], now,
                   ChoiceAt(choices, n - 1))
  {
    hide AssignOne;
  }

  /** A claim that a poll leaves untried because it has handed out as many tasks as it may is of no higher priority than any
      task it handed out, and of the same priority only if its task is not older. */
  lemma LeftForLater(cfg: Config, s: State, worker: string, max: int, now: int, o: PollOrders, k: nat, i: nat)
    requires var (queue, claims) := PollClaims(cfg, s, worker, max, now);
      var s1 := s.(queue := queue);
      var sorted := SortClaims(cfg, s1, claims);
      && k < |sorted| && |AssignAll(cfg, s1, worker, PollMax(max), sorted, k, now, o.choices).given| >= PollMax(max)
      && i < |Assigning(cfg, s, worker, max, now, o).given|
    ensures var (queue, claims) := PollClaims(cfg, s, worker, max, now);
      ServedFirst(s.tasks, Assigning(cfg, s, worker, max, now, o).given[i].ref,
                  SortClaims(cfg, s.(queue := queue), claims)[k].ref)
  {
    hide AssignAll, SortClaims, ServedFirst;
    var (queue, claims) := PollClaims(cfg, s, worker, max, now);
    var s1 := s.(queue := queue);
    var sorted := SortClaims(cfg, s1, claims);
    FullStays(cfg, s1, worker, PollMax(max), sorted, k, |sorted|, now, o.choices);
    var m := GivenAmong(cfg, s1, worker, PollMax(max), sorted, k, now, o.choices, i);
    TriedInOrder(cfg, s1, claims, m, k);
  }
}
