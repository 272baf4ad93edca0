/** The dead-letter admin endpoint's dry run (internal/api/server.go) against the requeue it predicts. */
module DeadLetterAdmin {
  import opened Records
  import opened QueueModel
  import opened Counters
  import QueueLaws

  /** How many dead letters a request can take: each request entry matches at most one, by key. */
  function Matching(requested: seq<TaskRef>, dead: seq<TaskRef>): nat {
    |multiset(Keys(requested)) * multiset(Keys(dead))|
  }

  lemma MatchOne(done: multiset<string>, stock: multiset<string>, key: string)
    ensures (done + multiset{key}) * stock == done * stock + if stock[key] > done[key] then multiset{key} else multiset{}
  {
  }

  lemma TakeOne(stock: multiset<string>, done: multiset<string>, key: string)
    ensures stock - (done + multiset{key}) == stock - done - multiset{key}
  {
  }

  /** countMatchingRefs */
  method CountMatchingRefs(requested: seq<TaskRef>, inDead: seq<TaskRef>) returns (count: nat)
    ensures count == Matching(requested, inDead)
  {
    hide Keys, Counted, Stocks;
    var available := CountKeys(inDead);
    assert Keys(requested[..0]) == [];
    ghost var stock := multiset(Keys(inDead));
    count := 0;
    ghost var done: multiset<string> := multiset{};
    assert stock - done == stock;
    for i := 0 to |requested|
      invariant done == multiset(Keys(requested[..i]))
      invariant Stocks(available, stock - done)
      invariant count == |done * stock|
    {
      KeysPush(requested, i);
      var k := EncodeRef(requested[i]);
      MatchOne(done, stock, k);
      TakeOne(stock, done, k);
      StockDown(available, stock - done, k);
      StockAt(available, stock - done, k);
      done := done + multiset{k};
      if Counted(available, k) > 0 {
        available := available[k := Counted(available, k) - 1];
        count := count + 1;
      }
    }
    assert requested[..|requested|] == requested;
  }

  /** The count a dry run answers with: it looks at no more than four dead letters for each one requested. */
  function DryRun(q: QueueState, requested: seq<TaskRef>): nat {
    Matching(requested, ListDeadLetters(q, 4 * |requested|))
  }

  /** The number RequeueDeadLetters moves. */
  function Moved(q: QueueState, requested: seq<TaskRef>): nat {
    |TakeRequested(q.dead, multiset(Keys(requested))).0|
  }

  lemma KeysJoin(a: seq<TaskRef>, b: seq<TaskRef>)
    ensures multiset(Keys(a + b)) == multiset(Keys(a)) + multiset(Keys(b))
  {
    assert Keys(a + b) == Keys(a) + Keys(b);
  }

  /** A requeue moves exactly the multiset intersection of requested and dead keys. */
  lemma MovedIsMatching(q: QueueState, requested: seq<TaskRef>)
    ensures Moved(q, requested) == Matching(requested, q.dead)
  {
    var want := multiset(Keys(requested));
    QueueLaws.TakeRequestedLaw(q.dead, want);
    assert multiset(Keys(q.dead)) * want == want * multiset(Keys(q.dead));
    var moved := TakeRequested(q.dead, want).0;
    assert |multiset(Keys(moved))| == |moved|;
  }

  /** The dead letters that the dry run does not look at. */
  function Unseen(q: QueueState, requested: seq<TaskRef>): seq<TaskRef> {
    q.dead[|ListDeadLetters(q, 4 * |requested|)|..]
  }

  /** Every key among the unseen dead letters is already listed as often as it is requested. */
  ghost predicate SeenEnough(q: QueueState, requested: seq<TaskRef>) {
    forall k :: k in multiset(Keys(Unseen(q, requested))) ==>
      multiset(Keys(requested))[k] <= multiset(Keys(ListDeadLetters(q, 4 * |requested|)))[k]
  }

  lemma SameSize(a: multiset<string>, b: multiset<string>)
    requires a <= b
    ensures |a| <= |b| && (|a| == |b| <==> a == b)
  {
    assert b == a + (b - a);
  }

  lemma IntersectGrows(want: multiset<string>, seen: multiset<string>, unseen: multiset<string>)
    ensures |want * seen| <= |want * (seen + unseen)|
    ensures |want * seen| == |want * (seen + unseen)| <==> (forall k :: k in unseen ==> want[k] <= seen[k])
  {
    var a, b := want * seen, want * (seen + unseen);
    SameSize(a, b);
    if a == b {
      forall k | k in unseen ensures want[k] <= seen[k] {
        assert a[k] == b[k];
      }
    }
    if forall k :: k in unseen ==> want[k] <= seen[k] {
      assert forall k :: a[k] == b[k];
    }
  }

  /** The dry run never promises more than the requeue moves, and is exact just when it has seen enough. */
  lemma DryRunPredicts(q: QueueState, requested: seq<TaskRef>)
    ensures DryRun(q, requested) <= Moved(q, requested)
    ensures DryRun(q, requested) == Moved(q, requested) <==> SeenEnough(q, requested)
  {
    var seen, unseen := ListDeadLetters(q, 4 * |requested|), Unseen(q, requested);
    assert q.dead == seen + unseen;
    KeysJoin(seen, unseen);
    MovedIsMatching(q, requested);
    IntersectGrows(multiset(Keys(requested)), multiset(Keys(seen)), multiset(Keys(unseen)));
  }

  /** In particular it is exact while there are at most four dead letters for each one requested. */
  lemma DryRunExactWhenShort(q: QueueState, requested: seq<TaskRef>)
    requires |q.dead| <= 4 * |requested|
    ensures DryRun(q, requested) == Moved(q, requested)
  {
    DryRunPredicts(q, requested);
    assert Unseen(q, requested) == [];
  }

  /** Beyond that it can fall short: the fifth dead letter is moved, though the dry run counts none. */
  lemma DryRunCanFallShort(other: TaskRef, ref: TaskRef)
    requires EncodeRef(other) != EncodeRef(ref)
    ensures var q := EMPTY.(dead := [other, other, other, other, ref]);
            DryRun(q, [ref]) == 0 && Moved(q, [ref]) == 1
  {
    var q := EMPTY.(dead := [other, other, other, other, ref]);
    var seen := [other, other, other, other];
    assert ListDeadLetters(q, 4) == seen;
    assert Keys([ref]) == [EncodeRef(ref)];
    assert Keys(seen) == [EncodeRef(other), EncodeRef(other), EncodeRef(other), EncodeRef(other)];
    assert multiset(Keys([ref])) * multiset(Keys(seen)) == multiset{};
    assert q.dead == seen + [ref];
    KeysJoin(seen, [ref]);
    assert multiset(Keys([ref])) * multiset(Keys(q.dead)) == multiset{EncodeRef(ref)};
    MovedIsMatching(q, [ref]);
  }
}
