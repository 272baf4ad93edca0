/** Laws of the memory queue over any sequence of operations. */
module QueueLaws {
  import opened Text
  import opened Records
  import opened Ledger
  import opened Listings
  import opened QueueModel

  // ---------- receipts ----------

  lemma ReceiptParts(c: string, n: nat)
    ensures Split(Receipt(c, n), ':') == Split("mem:" + c, ':') + [NatText(n)]
  {
    assert Receipt(c, n) == ("mem:" + c) + [':'] + NatText(n);
    SplitJoin("mem:" + c, ':', NatText(n));
    SplitAtom(NatText(n), ':');
  }

  /** Receipts with different numbers differ, whatever the consumers are called. */
  lemma ReceiptInjective(c1: string, n1: nat, c2: string, n2: nat)
    requires Receipt(c1, n1) == Receipt(c2, n2)
    ensures n1 == n2
  {
    ReceiptParts(c1, n1);
    ReceiptParts(c2, n2);
    var p := Split(Receipt(c1, n1), ':');
    assert p[|p| - 1] == NatText(n1) == NatText(n2);
    NatTextInjective(n1, n2);
  }

  ghost predicate Issued(r: string, consumer: string, n: nat, counter: nat) {
    1 <= n <= counter && r == Receipt(consumer, n)
  }

  ghost predicate WasIssued(r: string, consumer: string, counter: nat) {
    exists n :: Issued(r, consumer, n, counter)
  }

  /** Every claim in flight is filed under its own receipt, issued by this queue. */
  ghost predicate Valid(q: QueueState) {
    forall r :: r in q.inflight ==>
      q.inflight[r].receipt == r && WasIssued(r, q.inflight[r].claimedBy, q.counter)
  }

  lemma NextReceiptFresh(q: QueueState, consumer: string)
    requires Valid(q)
    ensures Receipt(consumer, q.counter + 1) !in q.inflight
  {
    var r := Receipt(consumer, q.counter + 1);
    if r in q.inflight {
      var c := q.inflight[r].claimedBy;
      var n :| Issued(r, c, n, q.counter);
      ReceiptInjective(c, n, consumer, q.counter + 1);
    }
  }

  // ---------- validity ----------

  lemma IssuedLater(r: string, consumer: string, m: nat, n: nat)
    requires WasIssued(r, consumer, m) && m <= n
    ensures WasIssued(r, consumer, n)
  {
    var k :| Issued(r, consumer, k, m);
    assert Issued(r, consumer, k, n);
  }

  lemma TakeFrontValid(q: QueueState, consumer: string, now: int, v: int)
    requires Valid(q) && |q.items| > 0
    ensures Valid(TakeFront(q, consumer, now, v))
  {
    var c := FrontClaim(q, consumer, now, v);
    assert Issued(c.receipt, consumer, q.counter + 1, q.counter + 1);
    forall r | r in q.inflight ensures WasIssued(r, q.inflight[r].claimedBy, q.counter + 1) {
      IssuedLater(r, q.inflight[r].claimedBy, q.counter, q.counter + 1);
    }
  }

  /** Claim i carries ref i and receipt number counter + 1 + i, and stays with the consumer for as long as asked, 15 seconds
      by default. */
  lemma {:induction false} ClaimsShape(q: QueueState, n: nat, consumer: string, now: int, v: int, i: nat)
    requires n <= |q.items| && i < n
    ensures var c := Claims(q, n, consumer, now, v).1[i];
      && c.ref == q.items[i] && c.claimedBy == consumer && c.claimedAt == now
      && c.receipt == "mem:" + consumer + ":" + NatText(q.counter + 1 + i)
      && c.visibleAt == now + if v > 0 then v else 15 * 1_000_000_000
    decreases n
  {
    hide NatText;
    if i > 0 {
      var q1 := TakeFront(q, consumer, now, v);
      ClaimsShape(q1, n - 1, consumer, now, v, i - 1);
      assert q1.counter + 1 + (i - 1) == q.counter + 1 + i && q1.items[i - 1] == q.items[i];
    }
  }

  lemma {:induction false} ClaimsValid(q: QueueState, n: nat, consumer: string, now: int, v: int)
    requires Valid(q) && n <= |q.items|
    ensures var q' := Claims(q, n, consumer, now, v).0;
      && Valid(q')
      && q'.counter == q.counter + n
      && q'.items == q.items[n..]
      && q'.dead == q.dead
      && q'.nacks == q.nacks
    decreases n
  {
    if n > 0 {
      TakeFrontValid(q, consumer, now, v);
      ClaimsValid(TakeFront(q, consumer, now, v), n - 1, consumer, now, v);
    }
  }

  ghost predicate HasReceipt(cs: seq<Claim>, r: string) {
    exists i :: 0 <= i < |cs| && cs[i].receipt == r
  }

  lemma HasReceiptCons(c: Claim, rest: seq<Claim>, r: string)
    ensures HasReceipt([c] + rest, r) <==> c.receipt == r || HasReceipt(rest, r)
  {
    var cs := [c] + rest;
    if HasReceipt(rest, r) {
      var i :| 0 <= i < |rest| && rest[i].receipt == r;
      assert cs[i + 1].receipt == r;
    }
    if c.receipt == r { assert cs[0].receipt == r; }
  }

  /** Claiming adds exactly the new claims, under receipts that were not in flight. */
  lemma {:induction false} ClaimsInflight(q: QueueState, n: nat, consumer: string, now: int, v: int, r: string)
    requires Valid(q) && n <= |q.items|
    ensures var (q', cs) := Claims(q, n, consumer, now, v);
      && (r in q'.inflight <==> r in q.inflight || HasReceipt(cs, r))
      && (r in q.inflight ==> q'.inflight[r] == q.inflight[r] && !HasReceipt(cs, r))
    decreases n
  {
    if n > 0 {
      var q1 := TakeFront(q, consumer, now, v);
      NextReceiptFresh(q, consumer);
      TakeFrontValid(q, consumer, now, v);
      ClaimsInflight(q1, n - 1, consumer, now, v, r);
      HasReceiptCons(FrontClaim(q, consumer, now, v), Claims(q1, n - 1, consumer, now, v).1, r);
    }
  }

  /** Each new claim is filed under its receipt. */
  lemma {:induction false} ClaimFiled(q: QueueState, n: nat, consumer: string, now: int, v: int, i: nat)
    requires Valid(q) && n <= |q.items| && i < n
    ensures var (q', cs) := Claims(q, n, consumer, now, v);
      cs[i].receipt in q'.inflight && q'.inflight[cs[i].receipt] == cs[i]
    decreases n
  {
    var q1 := TakeFront(q, consumer, now, v);
    NextReceiptFresh(q, consumer);
    TakeFrontValid(q, consumer, now, v);
    if i > 0 {
      ClaimFiled(q1, n - 1, consumer, now, v, i - 1);
    } else {
      ClaimsInflight(q1, n - 1, consumer, now, v, Receipt(consumer, q.counter + 1));
    }
  }

  /** An Ack ends exactly the claims it names, and loses nothing else. */
  lemma {:induction false} AckInflight(q: QueueState, cs: seq<Claim>, r: string)
    ensures var q' := Ack(q, cs);
      && q'.items == q.items && q'.dead == q.dead
      && (r in q'.inflight <==> r in q.inflight && !HasReceipt(cs, r))
      && (r in q'.inflight ==> q'.inflight[r] == q.inflight[r])
    decreases |cs|
  {
    if |cs| > 0 {
      AckInflight(AckOne(q, cs[0]), cs[1..], r);
      HasReceiptCons(cs[0], cs[1..], r);
      assert cs == [cs[0]] + cs[1..];
    }
  }

  lemma {:induction false} NackInflight(q: QueueState, cs: seq<Claim>, error: bool, r: string)
    ensures var q' := Nack(q, cs, error);
      && (r in q'.inflight <==> r in q.inflight && !HasReceipt(cs, r))
      && (r in q'.inflight ==> q'.inflight[r] == q.inflight[r])
    decreases |cs|
  {
    if |cs| > 0 {
      NackInflight(NackOne(q, cs[0].receipt, error), cs[1..], error, r);
      HasReceiptCons(cs[0], cs[1..], r);
      assert cs == [cs[0]] + cs[1..];
    }
  }

  lemma {:induction false} AckValid(q: QueueState, claims: seq<Claim>)
    requires Valid(q)
    ensures Valid(Ack(q, claims)) && Ack(q, claims).counter == q.counter
    decreases |claims|
  {
    if |claims| > 0 { AckValid(AckOne(q, claims[0]), claims[1..]); }
  }

  lemma {:induction false} NackValid(q: QueueState, claims: seq<Claim>, error: bool)
    requires Valid(q)
    ensures Valid(Nack(q, claims, error)) && Nack(q, claims, error).counter == q.counter
    decreases |claims|
  {
    if |claims| > 0 { NackValid(NackOne(q, claims[0].receipt, error), claims[1..], error); }
  }

  lemma {:induction false} ReleaseValid(q: QueueState, receipts: seq<string>)
    requires Valid(q)
    ensures Valid(Release(q, receipts)) && Release(q, receipts).counter == q.counter
    decreases |receipts|
  {
    if |receipts| > 0 { ReleaseValid(ReleaseOne(q, receipts[0]), receipts[1..]); }
  }

  // ---------- what the queue holds, as a multiset ----------

  ghost function InflightRefs(m: map<string, Claim>): multiset<TaskRef>
    decreases |m|
  {
    if |m| == 0 then multiset{}
    else
      var k :| k in m;
      multiset{m[k].ref} + InflightRefs(m - {k})
  }

  lemma {:induction false} InflightRemove(m: map<string, Claim>, k: string)
    requires k in m
    ensures InflightRefs(m) == multiset{m[k].ref} + InflightRefs(m - {k})
    decreases |m|
  {
    var p :| p in m && InflightRefs(m) == multiset{m[p].ref} + InflightRefs(m - {p});
    if p != k {
      var both := m - {p} - {k};
      assert both == m - {k} - {p};
      InflightRemove(m - {p}, k);
      InflightRemove(m - {k}, p);
      Exchange(multiset{m[p].ref}, multiset{m[k].ref}, InflightRefs(both));
    }
  }

  ghost function Holdings(q: QueueState): multiset<TaskRef> {
    multiset(q.items) + InflightRefs(q.inflight) + multiset(q.dead)
  }

  lemma InflightPut(m: map<string, Claim>, r: string, c: Claim)
    requires r !in m
    ensures InflightRefs(m[r := c]) == multiset{c.ref} + InflightRefs(m)
  {
    InflightRemove(m[r := c], r);
    assert m[r := c] - {r} == m;
  }

  lemma MoveFront(items: seq<TaskRef>, held: multiset<TaskRef>)
    requires |items| > 0
    ensures multiset(items[1..]) + (multiset{items[0]} + held) == multiset(items) + held
  {
    assert items == [items[0]] + items[1..];
  }

  lemma TakeFrontConserves(q: QueueState, consumer: string, now: int, v: int)
    requires Valid(q) && |q.items| > 0
    ensures Holdings(TakeFront(q, consumer, now, v)) == Holdings(q)
  {
    NextReceiptFresh(q, consumer);
    var c := FrontClaim(q, consumer, now, v);
    InflightPut(q.inflight, c.receipt, c);
    MoveFront(q.items, InflightRefs(q.inflight));
  }

  lemma {:induction false} ClaimsConserve(q: QueueState, n: nat, consumer: string, now: int, v: int)
    requires Valid(q) && n <= |q.items|
    ensures Holdings(Claims(q, n, consumer, now, v).0) == Holdings(q)
    decreases n
  {
    if n > 0 {
      TakeFrontConserves(q, consumer, now, v);
      TakeFrontValid(q, consumer, now, v);
      ClaimsConserve(TakeFront(q, consumer, now, v), n - 1, consumer, now, v);
    }
  }

  lemma NackOneConserves(q: QueueState, receipt: string, error: bool)
    ensures Holdings(NackOne(q, receipt, error)) == Holdings(q)
  {
    if receipt in q.inflight { InflightRemove(q.inflight, receipt); }
  }

  lemma {:induction false} NackConserves(q: QueueState, claims: seq<Claim>, error: bool)
    ensures Holdings(Nack(q, claims, error)) == Holdings(q)
    decreases |claims|
  {
    if |claims| > 0 {
      NackOneConserves(q, claims[0].receipt, error);
      NackConserves(NackOne(q, claims[0].receipt, error), claims[1..], error);
    }
  }

  lemma {:induction false} ReleaseConserves(q: QueueState, receipts: seq<string>)
    ensures Holdings(Release(q, receipts)) == Holdings(q)
    decreases |receipts|
  {
    if |receipts| > 0 {
      if receipts[0] in q.inflight { InflightRemove(q.inflight, receipts[0]); }
      ReleaseConserves(ReleaseOne(q, receipts[0]), receipts[1..]);
    }
  }

  /** The refs whose claims an Ack really ends: those still in flight when it reaches them. */
  ghost function AckedRefs(q: QueueState, claims: seq<Claim>): multiset<TaskRef>
    decreases |claims|
  {
    if |claims| == 0 then multiset{}
    else AckedRef(q, claims[0]) + AckedRefs(AckOne(q, claims[0]), claims[1..])
  }

  /** The ref an Ack of one claim ends, if that claim is still in flight. */
  ghost function AckedRef(q: QueueState, c: Claim): multiset<TaskRef> {
    if c.receipt in q.inflight then multiset{q.inflight[c.receipt].ref} else multiset{}
  }

  lemma AckOneConserves(q: QueueState, c: Claim)
    ensures Holdings(AckOne(q, c)) + AckedRef(q, c) == Holdings(q)
  {
    var r := c.receipt;
    if r in q.inflight {
      InflightRemove(q.inflight, r);
    } else {
      assert q.inflight - {r} == q.inflight;
    }
  }

  lemma {:induction false} AckConserves(q: QueueState, claims: seq<Claim>)
    ensures Holdings(Ack(q, claims)) + AckedRefs(q, claims) == Holdings(q)
    decreases |claims|
  {
    hide AckOne, AckedRef, Holdings;
    if |claims| > 0 {
      AckOneConserves(q, claims[0]);
      AckConserves(AckOne(q, claims[0]), claims[1..]);
    }
  }

  lemma KeysCons(r: TaskRef, s: seq<TaskRef>)
    ensures Keys([r] + s) == [EncodeRef(r)] + Keys(s)
  {
  }

  lemma RefsCons(r: TaskRef, s: seq<TaskRef>)
    ensures multiset([r] + s) == multiset{r} + multiset(s)
    ensures multiset(Keys([r] + s)) == multiset{EncodeRef(r)} + multiset(Keys(s))
  {
    KeysCons(r, s);
  }

  lemma NoIntersect(a: multiset<string>, want: multiset<string>, key: string)
    requires want[key] == 0
    ensures (multiset{key} + a) * want == a * want
  {
  }

  /** The split of a list from the split of its tail. */
  ghost predicate SplitBy(dead: seq<TaskRef>, want: multiset<string>, moved: seq<TaskRef>, kept: seq<TaskRef>) {
    multiset(moved) + multiset(kept) == multiset(dead) && multiset(Keys(moved)) == multiset(Keys(dead)) * want
  }

  lemma SplitTakes(r: TaskRef, rest: seq<TaskRef>, want: multiset<string>, moved: seq<TaskRef>, kept: seq<TaskRef>)
    requires want[EncodeRef(r)] > 0 && SplitBy(rest, want - multiset{EncodeRef(r)}, moved, kept)
    ensures SplitBy([r] + rest, want, [r] + moved, kept)
  {
    RefsCons(r, rest);
    RefsCons(r, moved);
    IntersectCons(multiset(Keys(rest)), want, EncodeRef(r));
  }

  lemma SplitLeaves(r: TaskRef, rest: seq<TaskRef>, want: multiset<string>, moved: seq<TaskRef>, kept: seq<TaskRef>)
    requires want[EncodeRef(r)] == 0 && SplitBy(rest, want, moved, kept)
    ensures SplitBy([r] + rest, want, moved, [r] + kept)
  {
    RefsCons(r, rest);
    RefsCons(r, kept);
    NoIntersect(multiset(Keys(rest)), want, EncodeRef(r));
  }

  lemma {:induction false} TakeRequestedSplits(dead: seq<TaskRef>, want: multiset<string>)
    ensures SplitBy(dead, want, TakeRequested(dead, want).0, TakeRequested(dead, want).1)
  {
    if |dead| == 0 {
      assert Keys(dead) == [];
    } else {
      hide SplitBy, EncodeRef;
      var key, rest := EncodeRef(dead[0]), dead[1..];
      assert dead == [dead[0]] + rest;
      if want[key] > 0 {
        var less := want - multiset{key};
        TakeRequestedSplits(rest, less);
        SplitTakes(dead[0], rest, want, TakeRequested(rest, less).0, TakeRequested(rest, less).1);
      } else {
        TakeRequestedSplits(rest, want);
        SplitLeaves(dead[0], rest, want, TakeRequested(rest, want).0, TakeRequested(rest, want).1);
      }
    }
  }

  /** TakeRequested loses nothing, and takes the multiset intersection of requested and dead keys. */
  lemma TakeRequestedLaw(dead: seq<TaskRef>, want: multiset<string>)
    ensures multiset(TakeRequested(dead, want).0) + multiset(TakeRequested(dead, want).1) == multiset(dead)
    ensures multiset(Keys(TakeRequested(dead, want).0)) == multiset(Keys(dead)) * want
  {
    TakeRequestedSplits(dead, want);
  }

  lemma IntersectCons(a: multiset<string>, want: multiset<string>, key: string)
    requires want[key] > 0
    ensures (multiset{key} + a) * want == multiset{key} + a * (want - multiset{key})
  {
  }

  // ---------- runs of queue operations ----------

  datatype QueueOp =
    | OpEnqueue(refs: seq<TaskRef>)
    | OpClaim(max: int, consumer: string, now: int, visibility: int)
    | OpAck(claims: seq<Claim>)
    | OpNack(nacked: seq<Claim>, error: bool)
    | OpRequeueExpired(listing: seq<string>, at: int, limit: int)
    | OpRequeueDead(wanted: seq<TaskRef>)

  function Apply(q: QueueState, op: QueueOp): QueueState {
    match op
    case OpEnqueue(refs) => Enqueue(q, refs)
    case OpClaim(max, c, now, v) => Claims(q, ClaimCount(q, max), c, now, v).0
    case OpAck(cs) => Ack(q, cs)
    case OpNack(cs, error) => Nack(q, cs, error)
    case OpRequeueExpired(listing, now, max) => RequeueExpired(q, listing, now, max)
    case OpRequeueDead(refs) => RequeueDead(q, refs)
  }

  ghost function Put(op: QueueOp): multiset<TaskRef> {
    if op.OpEnqueue? then multiset(op.refs) else multiset{}
  }

  ghost function Acked(q: QueueState, op: QueueOp): multiset<TaskRef> {
    if op.OpAck? then AckedRefs(q, op.claims) else multiset{}
  }

  lemma EnqueueConserves(q: QueueState, refs: seq<TaskRef>)
    ensures Holdings(Enqueue(q, refs)) == Holdings(q) + multiset(refs)
  {
  }

  lemma RequeueDeadConserves(q: QueueState, refs: seq<TaskRef>)
    ensures Holdings(RequeueDead(q, refs)) == Holdings(q)
  {
    TakeRequestedLaw(q.dead, multiset(Keys(refs)));
  }

  /** One operation: what the queue holds afterwards, plus what was acked, is what it held plus what was put. */
  lemma StepConserves(q: QueueState, op: QueueOp)
    requires Valid(q)
    ensures Holdings(Apply(q, op)) + Acked(q, op) == Holdings(q) + Put(op)
  {
    hide Holdings, Enqueue, Claims, Ack, Nack, Release, RequeueDead;
    match op
    case OpEnqueue(refs) => EnqueueConserves(q, refs);
    case OpClaim(max, c, now, v) => ClaimsConserve(q, ClaimCount(q, max), c, now, v);
    case OpAck(cs) => AckConserves(q, cs);
    case OpNack(cs, error) => NackConserves(q, cs, error);
    case OpRequeueExpired(listing, now, max) => ReleaseConserves(q, Due(q, listing, now, max));
    case OpRequeueDead(refs) => RequeueDeadConserves(q, refs);
  }

  lemma StepValid(q: QueueState, op: QueueOp)
    requires Valid(q)
    ensures Valid(Apply(q, op))
    ensures Apply(q, op).counter == q.counter + Taken(q, op)
  {
    match op
    case OpEnqueue(refs) =>
    case OpClaim(max, c, now, v) => ClaimsValid(q, ClaimCount(q, max), c, now, v);
    case OpAck(cs) => AckValid(q, cs);
    case OpNack(cs, error) => NackValid(q, cs, error);
    case OpRequeueExpired(listing, now, max) => ReleaseValid(q, Due(q, listing, now, max));
    case OpRequeueDead(refs) =>
  }

  ghost predicate StepAt(states: seq<QueueState>, ops: seq<QueueOp>, i: nat)
    requires i < |ops| && |states| == |ops| + 1
  {
    states[i + 1] == Apply(states[i], ops[i])
  }

  /** A run: the queue starts empty, and each state follows from the one before by its operation. */
  ghost predicate QueueRun(states: seq<QueueState>, ops: seq<QueueOp>) {
    && |states| == |ops| + 1
    && states[0] == EMPTY
    && (forall i :: 0 <= i < |ops| ==> StepAt(states, ops, i))
  }

  ghost function TotalPut(ops: seq<QueueOp>, n: nat): multiset<TaskRef>
    requires n <= |ops|
  {
    if n == 0 then multiset{} else TotalPut(ops, n - 1) + Put(ops[n - 1])
  }

  ghost function TotalAcked(states: seq<QueueState>, ops: seq<QueueOp>, n: nat): multiset<TaskRef>
    requires n <= |ops| && |states| == |ops| + 1
  {
    if n == 0 then multiset{} else TotalAcked(states, ops, n - 1) + Acked(states[n - 1], ops[n - 1])
  }

  /** Conservation over any run: every enqueued ref is waiting, claimed, dead-lettered or acked,
      exactly as many times as it was enqueued. */
  lemma {:induction false} RunConserves(states: seq<QueueState>, ops: seq<QueueOp>, n: nat)
    requires QueueRun(states, ops) && n <= |ops|
    ensures TotalPut(ops, n) == Holdings(states[n]) + TotalAcked(states, ops, n)
  {
    if n > 0 {
      RunConserves(states, ops, n - 1);
      RunValid(states, ops, n - 1);
      StepConserves(states[n - 1], ops[n - 1]);
      assert StepAt(states, ops, n - 1);
      LedgerStep(TotalPut(ops, n - 1), Put(ops[n - 1]), Holdings(states[n - 1]), Holdings(states[n]),
                 TotalAcked(states, ops, n - 1), Acked(states[n - 1], ops[n - 1]));
    }
  }

  lemma {:induction false} RunValid(states: seq<QueueState>, ops: seq<QueueOp>, n: nat)
    requires QueueRun(states, ops) && n <= |ops|
    ensures Valid(states[n])
  {
    if n > 0 {
      RunValid(states, ops, n - 1);
      StepValid(states[n - 1], ops[n - 1]);
      assert StepAt(states, ops, n - 1);
    }
  }

  ghost function Taken(q: QueueState, op: QueueOp): nat {
    if op.OpClaim? then ClaimCount(q, op.max) else 0
  }

  lemma CounterSteps(states: seq<QueueState>, ops: seq<QueueOp>, n: nat)
    requires QueueRun(states, ops) && n < |ops|
    ensures states[n + 1].counter == states[n].counter + Taken(states[n], ops[n])
  {
    RunValid(states, ops, n);
    StepValid(states[n], ops[n]);
    assert StepAt(states, ops, n);
  }

  lemma {:induction false} CounterGrows(states: seq<QueueState>, ops: seq<QueueOp>, m: nat, n: nat)
    requires QueueRun(states, ops) && m <= n <= |ops|
    ensures states[m].counter <= states[n].counter
  {
    if m < n {
      CounterGrows(states, ops, m, n - 1);
      CounterSteps(states, ops, n - 1);
    }
  }

  function ClaimedAt(q: QueueState, op: QueueOp): seq<Claim>
    requires op.OpClaim?
  {
    Claims(q, ClaimCount(q, op.max), op.consumer, op.now, op.visibility).1
  }

  lemma ReceiptAt(q: QueueState, op: QueueOp, i: nat)
    requires op.OpClaim? && i < |ClaimedAt(q, op)|
    ensures ClaimedAt(q, op)[i].receipt == Receipt(op.consumer, q.counter + 1 + i)
  {
    ClaimsShape(q, ClaimCount(q, op.max), op.consumer, op.now, op.visibility, i);
  }

  lemma NumbersAdvance(states: seq<QueueState>, ops: seq<QueueOp>, m: nat, n: nat)
    requires QueueRun(states, ops) && m < n <= |ops| && ops[m].OpClaim?
    ensures states[m].counter + |ClaimedAt(states[m], ops[m])| <= states[n].counter
  {
    CounterSteps(states, ops, m);
    CounterGrows(states, ops, m + 1, n);
  }

  /** Receipts stay fresh for ever: two claims of a run, made by the same or by different Claim calls,
      never carry the same receipt. */
  lemma RunReceiptsDistinct(states: seq<QueueState>, ops: seq<QueueOp>, m: nat, n: nat, i: nat, j: nat)
    requires QueueRun(states, ops) && m <= n < |ops|
    requires ops[m].OpClaim? && ops[n].OpClaim?
    requires i < |ClaimedAt(states[m], ops[m])| && j < |ClaimedAt(states[n], ops[n])|
    requires m != n || i != j
    ensures ClaimedAt(states[m], ops[m])[i].receipt != ClaimedAt(states[n], ops[n])[j].receipt
  {
    hide Apply, Claims;
    ReceiptAt(states[m], ops[m], i);
    ReceiptAt(states[n], ops[n], j);
    if m < n { NumbersAdvance(states, ops, m, n); }
    var a, b := states[m].counter + 1 + i, states[n].counter + 1 + j;
    assert a != b;
    if Receipt(ops[m].consumer, a) == Receipt(ops[n].consumer, b) {
      ReceiptInjective(ops[m].consumer, a, ops[n].consumer, b);
    }
  }

  // ---------- no operation but Ack makes a ref disappear ----------

  lemma {:induction false} NackTracked(q: QueueState, claims: seq<Claim>, error: bool, ref: TaskRef)
    requires Tracked(q, ref)
    ensures Tracked(Nack(q, claims, error), ref)
    decreases |claims|
  {
    if |claims| > 0 {
      var q1 := NackOne(q, claims[0].receipt, error);
      if r :| r in q.inflight && q.inflight[r].ref == ref && r != claims[0].receipt {
        assert r in q1.inflight && q1.inflight[r].ref == ref;
      }
      NackTracked(q1, claims[1..], error, ref);
    }
  }

  lemma {:induction false} ReleaseTracked(q: QueueState, receipts: seq<string>, ref: TaskRef)
    requires Tracked(q, ref)
    ensures Tracked(Release(q, receipts), ref)
    decreases |receipts|
  {
    if |receipts| > 0 {
      var q1 := ReleaseOne(q, receipts[0]);
      if r :| r in q.inflight && q.inflight[r].ref == ref && r != receipts[0] {
        assert r in q1.inflight && q1.inflight[r].ref == ref;
      }
      ReleaseTracked(q1, receipts[1..], ref);
    }
  }

  lemma {:induction false} ReleaseMoves(q: QueueState, receipts: seq<string>)
    requires forall r :: r in receipts ==> r in q.inflight
    requires forall i, j :: 0 <= i < j < |receipts| ==> receipts[i] != receipts[j]
    ensures var q' := Release(q, receipts);
      && |q'.items| == |q.items| + |receipts| && q.items <= q'.items
      && (forall r :: r in q'.inflight <==> r in q.inflight && r !in receipts)
      && (forall r :: r in q'.inflight ==> q'.inflight[r] == q.inflight[r])
      && (forall r :: r in receipts ==> q.inflight[r].ref in q'.items)
    decreases |receipts|
  {
    if |receipts| > 0 {
      var rest, q1 := receipts[1..], ReleaseOne(q, receipts[0]);
      assert receipts == [receipts[0]] + rest;
      ReleaseMoves(q1, rest);
      assert q1.items[|q.items|] == q.inflight[receipts[0]].ref;
      assert q1.items[|q.items|] in q1.items;
      assert q1.items[|q.items|] in Release(q1, rest).items;
    }
  }

  lemma {:induction false} ReleaseFree(q: QueueState, receipts: seq<string>)
    ensures Release(q, receipts).nacks == q.nacks && Release(q, receipts).dead == q.dead
    decreases |receipts|
  {
    if |receipts| > 0 { ReleaseFree(ReleaseOne(q, receipts[0]), receipts[1..]); }
  }

  /** A sweep puts back only claims whose time is up, with the refs they hold, and leaves the others alone.  It stops early
      only at its limit. */
  lemma SweepReleases(q: QueueState, listing: seq<string>, now: int, max: int, r: string)
    requires Lists(listing, q.inflight.Keys) && r in q.inflight
    ensures var q' := RequeueExpired(q, listing, now, max);
      var moved := |q'.items| - |q.items|;
      && q.items <= q'.items && q'.dead == q.dead && q'.nacks == q.nacks
      && (q.inflight[r].visibleAt > now ==> r in q'.inflight)
      && (q.inflight[r].visibleAt <= now && r in q'.inflight ==> max > 0 && moved == max)
      && (max > 0 ==> moved <= max)
      && (if r in q'.inflight then q'.inflight[r] == q.inflight[r] else q.inflight[r].ref in q'.items)
  {
    hide Release;
    var isDue := x => x in q.inflight && q.inflight[x].visibleAt <= now;
    FilterDistinct(listing, q.inflight.Keys, isDue);
    FilterAgree(listing, isDue, x => x in q.inflight && q.inflight[x].visibleAt <= now);
    ReleaseMoves(q, Due(q, listing, now, max));
    ReleaseFree(q, Due(q, listing, now, max));
    assert r in listing;
    assert isDue(r) ==> r in Filter(listing, isDue);
  }

  lemma {:induction false} ClaimsTracked(q: QueueState, n: nat, c: string, now: int, v: int, ref: TaskRef)
    requires Valid(q) && n <= |q.items| && Tracked(q, ref)
    ensures Tracked(Claims(q, n, c, now, v).0, ref)
    decreases n
  {
    if n > 0 {
      var q1 := TakeFront(q, c, now, v);
      var fresh_ := Receipt(c, q.counter + 1);
      NextReceiptFresh(q, c);
      TakeFrontValid(q, c, now, v);
      assert fresh_ in q1.inflight && q1.inflight[fresh_].ref == q.items[0];
      assert q.items == [q.items[0]] + q.items[1..];
      if r :| r in q.inflight && q.inflight[r].ref == ref {
        assert r in q1.inflight && q1.inflight[r].ref == ref;
      }
      ClaimsTracked(q1, n - 1, c, now, v, ref);
    }
  }

  lemma RequeueDeadTracked(q: QueueState, refs: seq<TaskRef>, ref: TaskRef)
    requires Tracked(q, ref)
    ensures Tracked(RequeueDead(q, refs), ref)
  {
    var want := multiset(Keys(refs));
    TakeRequestedLaw(q.dead, want);
    if ref in q.dead {
      assert ref in multiset(q.dead);
      assert ref in multiset(TakeRequested(q.dead, want).0) || ref in multiset(TakeRequested(q.dead, want).1);
    }
  }
}
