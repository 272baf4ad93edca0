/** Laws of the Redis queue over any run of operations: the claims hash and the visibility set always hold the same
    receipts, and no payload is lost or duplicated exactly as long as no receipt is given out while in use. */
module RedisLaws {
  import opened Text
  import opened Records
  import opened Ledger
  import opened RedisModel

  // ---------- the claims hash and the visibility set ----------

  /** Both structures hold the same receipts, and every payload filed is a non-empty text. */
  ghost predicate Paired(q: Redis) {
    q.claims.Keys == q.visibility.Keys && forall r :: r in q.claims ==> q.claims[r] != ""
  }

  lemma UnfilePaired(q: Redis, receipt: string)
    requires Paired(q)
    ensures Paired(Unfile(q, receipt))
  {
    assert (q.claims - {receipt}).Keys == q.claims.Keys - {receipt};
    assert (q.visibility - {receipt}).Keys == q.visibility.Keys - {receipt};
  }

  lemma TakeLastPaired(q: Redis, call: ClaimCall, i: nat)
    requires Paired(q) && |q.pending| > 0
    ensures Paired(TakeLast(q, call, i))
  {
    var raw := q.pending[|q.pending| - 1];
    if Decode(raw).Some? {
      assert raw == EncodeRef(Decode(raw).value);
      var r, ms := ReceiptAt(call, i), Millis(VisibleAt(call));
      assert q.claims[r := raw].Keys == q.claims.Keys + {r};
      assert q.visibility[r := ms].Keys == q.visibility.Keys + {r};
    }
  }

  lemma {:induction false} ClaimPaired(q: Redis, call: ClaimCall, i: nat)
    requires Paired(q)
    ensures Paired(ClaimFrom(q, call, i).0)
    decreases Limit(call) - i
  {
    if i < Limit(call) && |q.pending| > 0 {
      TakeLastPaired(q, call, i);
      ClaimPaired(TakeLast(q, call, i), call, i + 1);
    }
  }

  lemma {:induction false} AckPaired(q: Redis, cs: seq<Claim>)
    requires Paired(q)
    ensures Paired(Ack(q, cs))
    decreases |cs|
  {
    if |cs| > 0 {
      UnfilePaired(q, cs[0].receipt);
      AckPaired(AckOne(q, cs[0].receipt), cs[1..]);
    }
  }

  lemma NackOnePaired(q: Redis, receipt: string, error: bool, deadLetterMax: int)
    requires Paired(q)
    ensures Paired(NackOne(q, receipt, error, deadLetterMax))
  {
    UnfilePaired(q, receipt);
  }

  lemma {:induction false} NackPaired(q: Redis, cs: seq<Claim>, error: bool, deadLetterMax: int)
    requires Paired(q)
    ensures Paired(Nack(q, cs, error, deadLetterMax))
    decreases |cs|
  {
    if |cs| > 0 {
      NackOnePaired(q, cs[0].receipt, error, deadLetterMax);
      NackPaired(NackOne(q, cs[0].receipt, error, deadLetterMax), cs[1..], error, deadLetterMax);
    }
  }

  lemma {:induction false} ReleasePaired(q: Redis, receipts: seq<string>)
    requires Paired(q)
    ensures Paired(Release(q, receipts))
    decreases |receipts|
  {
    if |receipts| > 0 {
      UnfilePaired(q, receipts[0]);
      ReleasePaired(ReleaseOne(q, receipts[0]), receipts[1..]);
    }
  }

  lemma {:induction false} RevivePaired(q: Redis, refs: seq<TaskRef>)
    requires Paired(q)
    ensures Paired(Revive(q, refs).0)
    decreases |refs|
  {
    if |refs| > 0 {
      RevivePaired(ReviveOne(q, EncodeRef(refs[0])), refs[1..]);
    }
  }

  // ---------- what the queue holds ----------

  ghost function Payloads(m: map<string, string>): multiset<string>
    decreases |m|
  {
    if |m| == 0 then multiset{}
    else
      var k :| k in m;
      multiset{m[k]} + Payloads(m - {k})
  }

  lemma {:induction false} PayloadRemove(m: map<string, string>, k: string)
    requires k in m
    ensures Payloads(m) == multiset{m[k]} + Payloads(m - {k})
    decreases |m|
  {
    var p :| p in m && Payloads(m) == multiset{m[p]} + Payloads(m - {p});
    if p != k {
      var both := m - {p} - {k};
      assert both == m - {k} - {p};
      PayloadRemove(m - {p}, k);
      PayloadRemove(m - {k}, p);
      Exchange(multiset{m[p]}, multiset{m[k]}, Payloads(both));
    }
  }

  lemma PayloadPut(m: map<string, string>, k: string, v: string)
    requires k !in m
    ensures Payloads(m[k := v]) == multiset{v} + Payloads(m)
  {
    PayloadRemove(m[k := v], k);
    assert m[k := v] - {k} == m;
  }

  ghost function Holdings(q: Redis): multiset<string> {
    multiset(q.pending) + Payloads(q.claims) + multiset(q.dead)
  }

  lemma {:induction false} PushAllHolds(list: seq<string>, keys: seq<string>)
    ensures multiset(PushAll(list, keys)) == multiset(list) + multiset(keys)
    decreases |keys|
  {
    if |keys| > 0 {
      PushAllHolds([keys[0]] + list, keys[1..]);
      assert keys == [keys[0]] + keys[1..];
    }
  }

  lemma {:induction false} RemoveFirstHolds(list: seq<string>, raw: string)
    requires raw in list
    ensures multiset(RemoveFirst(list, raw)) + multiset{raw} == multiset(list)
  {
    assert list == [list[0]] + list[1..];
    if list[0] != raw {
      RemoveFirstHolds(list[1..], raw);
    }
  }

  /** What HSET overwrites when the receipt is already in use. */
  ghost function Overwritten(q: Redis, call: ClaimCall, i: nat): multiset<string>
    requires |q.pending| > 0
  {
    var r := ReceiptAt(call, i);
    if Decode(q.pending[|q.pending| - 1]).Some? && r in q.claims then multiset{q.claims[r]} else multiset{}
  }

  lemma PayloadOverwrite(m: map<string, string>, k: string, v: string)
    ensures Payloads(m[k := v]) + (if k in m then multiset{m[k]} else multiset{}) == Payloads(m) + multiset{v}
  {
    hide Payloads;
    if k in m {
      PayloadRemove(m, k);
      PayloadPut(m - {k}, k, v);
      assert (m - {k})[k := v] == m[k := v];
    } else {
      PayloadPut(m, k, v);
    }
  }

  lemma Shift(p: multiset<string>, front: multiset<string>, raw: multiset<string>, c: multiset<string>,
              c': multiset<string>, lost: multiset<string>, d: multiset<string>)
    requires p == front + raw && c' + lost == c + raw
    ensures front + c' + d + lost == p + c + d
  {
    forall x ensures (front + c' + d + lost)[x] == (p + c + d)[x] {
      assert (c' + lost)[x] == (c + raw)[x];
    }
  }

  lemma ShiftDead(p: multiset<string>, front: multiset<string>, raw: multiset<string>, c: multiset<string>, d: multiset<string>)
    requires p == front + raw
    ensures front + c + (raw + d) == p + c + d
  {
  }

  /** RPOP and HSET lose exactly what the receipt already held: nothing, if it is new. */
  lemma TakeLastConserves(q: Redis, call: ClaimCall, i: nat)
    requires |q.pending| > 0
    ensures Holdings(TakeLast(q, call, i)) + Overwritten(q, call, i) == Holdings(q)
  {
    hide Decode;
    var front, raw := q.pending[..|q.pending| - 1], q.pending[|q.pending| - 1];
    assert q.pending == front + [raw];
    assert multiset(q.pending) == multiset(front) + multiset{raw};
    var r := ReceiptAt(call, i);
    if Decode(raw).None? {
      PushHolds(q.dead, raw);
      ShiftDead(multiset(q.pending), multiset(front), multiset{raw}, Payloads(q.claims), multiset(q.dead));
    } else {
      PayloadOverwrite(q.claims, r, raw);
      Shift(multiset(q.pending), multiset(front), multiset{raw}, Payloads(q.claims), Payloads(q.claims[r := raw]),
            Overwritten(q, call, i), multiset(q.dead));
    }
  }

  lemma ReceiptParts(consumer: string, nanos: int, i: nat)
    ensures Split(ReceiptOf(consumer, nanos, i), ':') == Split(consumer, ':') + [IntText(nanos), NatText(i)]
  {
    var head := consumer + ":" + IntText(nanos);
    assert ReceiptOf(consumer, nanos, i) == head + [':'] + NatText(i);
    assert head == consumer + [':'] + IntText(nanos);
    SplitJoin(head, ':', NatText(i));
    SplitJoin(consumer, ':', IntText(nanos));
    IntTextChars(nanos);
    SplitAtom(IntText(nanos), ':');
    SplitAtom(NatText(i), ':');
  }

  lemma ReceiptEnds(c: string, n: int, i: nat)
    ensures var p := Split(ReceiptOf(c, n, i), ':');
      |p| >= 3 && p[|p| - 1] == NatText(i) && p[|p| - 2] == IntText(n)
  {
    hide ReceiptOf, Split, NatText, IntText;
    ReceiptParts(c, n, i);
  }

  lemma ReceiptTail(c: string, n: int, i: nat)
    ensures ReceiptOf(c, n, i) == c + (":" + IntText(n) + ":" + NatText(i))
  {
    hide NatText, IntText;
  }

  /** Receipts agree exactly if they were made for one consumer, at one clock reading, in the same turn of a call,
      whatever colons the consumers' names hold. */
  lemma ReceiptInjective(c1: string, n1: int, i1: nat, c2: string, n2: int, i2: nat)
    ensures ReceiptOf(c1, n1, i1) == ReceiptOf(c2, n2, i2) <==> c1 == c2 && n1 == n2 && i1 == i2
  {
    hide ReceiptOf, Split, NatText, IntText;
    if ReceiptOf(c1, n1, i1) == ReceiptOf(c2, n2, i2) {
      ReceiptEnds(c1, n1, i1);
      ReceiptEnds(c2, n2, i2);
      NatTextInjective(i1, i2);
      IntTextInjective(n1, n2);
      ReceiptTail(c1, n1, i1);
      ReceiptTail(c2, n2, i2);
      SameTail(c1, c2, ":" + IntText(n1) + ":" + NatText(i1));
    }
  }

  /** What the claim loop overwrites from its i-th turn on. */
  ghost function LostFrom(q: Redis, call: ClaimCall, i: nat): multiset<string>
    decreases Limit(call) - i
  {
    if i >= Limit(call) || |q.pending| == 0 then multiset{}
    else Overwritten(q, call, i) + LostFrom(TakeLast(q, call, i), call, i + 1)
  }

  lemma {:induction false} ClaimLedger(q: Redis, call: ClaimCall, i: nat)
    ensures Holdings(ClaimFrom(q, call, i).0) + LostFrom(q, call, i) == Holdings(q)
    decreases Limit(call) - i
  {
    hide TakeLast, LastClaim, Holdings, Overwritten, Limit;
    if i < Limit(call) && |q.pending| > 0 {
      TakeLastConserves(q, call, i);
      ClaimLedger(TakeLast(q, call, i), call, i + 1);
    }
  }

  lemma UnfileMoves(q: Redis, receipt: string)
    requires Payload(q, receipt) != ""
    ensures Payloads(q.claims) == multiset{Payload(q, receipt)} + Payloads(Unfile(q, receipt).claims)
  {
    PayloadRemove(q.claims, receipt);
  }

  lemma PushHolds(list: seq<string>, raw: string)
    ensures multiset([raw] + list) == multiset{raw} + multiset(list)
  {
  }

  lemma NackOneConserves(q: Redis, receipt: string, error: bool, deadLetterMax: int)
    ensures Holdings(NackOne(q, receipt, error, deadLetterMax)) == Holdings(q)
  {
    var payload := Payload(q, receipt);
    if payload != "" {
      UnfileMoves(q, receipt);
      PushHolds(q.dead, payload);
      PushHolds(q.pending, payload);
    }
  }

  lemma {:induction false} NackConserves(q: Redis, cs: seq<Claim>, error: bool, deadLetterMax: int)
    ensures Holdings(Nack(q, cs, error, deadLetterMax)) == Holdings(q)
    decreases |cs|
  {
    if |cs| > 0 {
      NackOneConserves(q, cs[0].receipt, error, deadLetterMax);
      NackConserves(NackOne(q, cs[0].receipt, error, deadLetterMax), cs[1..], error, deadLetterMax);
    }
  }

  lemma UnfileNothing(q: Redis, receipt: string)
    requires Paired(q) && Payload(q, receipt) == ""
    ensures Unfile(q, receipt).claims == q.claims
  {
  }

  lemma ReleaseOneConserves(q: Redis, receipt: string)
    requires Paired(q)
    ensures Holdings(ReleaseOne(q, receipt)) == Holdings(q) && Paired(ReleaseOne(q, receipt))
  {
    UnfilePaired(q, receipt);
    var payload := Payload(q, receipt);
    if payload != "" {
      UnfileMoves(q, receipt);
      PushHolds(q.pending, payload);
    } else {
      UnfileNothing(q, receipt);
    }
  }

  lemma {:induction false} ReleaseConserves(q: Redis, receipts: seq<string>)
    requires Paired(q)
    ensures Holdings(Release(q, receipts)) == Holdings(q)
    decreases |receipts|
  {
    if |receipts| > 0 {
      ReleaseOneConserves(q, receipts[0]);
      ReleaseConserves(ReleaseOne(q, receipts[0]), receipts[1..]);
    }
  }

  lemma ReviveOneConserves(q: Redis, raw: string)
    ensures Holdings(ReviveOne(q, raw)) == Holdings(q)
  {
    if raw in q.dead {
      RemoveFirstHolds(q.dead, raw);
      PushHolds(q.pending, raw);
    }
  }

  lemma {:induction false} ReviveConserves(q: Redis, refs: seq<TaskRef>)
    ensures Holdings(Revive(q, refs).0) == Holdings(q)
    ensures |q.dead| == |Revive(q, refs).0.dead| + Revive(q, refs).1
    decreases |refs|
  {
    if |refs| > 0 {
      var raw := EncodeRef(refs[0]);
      ReviveOneConserves(q, raw);
      if raw in q.dead {
        RemoveFirstHolds(q.dead, raw);
        assert |multiset(RemoveFirst(q.dead, raw)) + multiset{raw}| == |multiset(q.dead)|;
      }
      ReviveConserves(ReviveOne(q, raw), refs[1..]);
    }
  }

  /** The payloads whose claims an Ack really ends. */
  ghost function AckedPayloads(q: Redis, cs: seq<Claim>): multiset<string>
    decreases |cs|
  {
    if |cs| == 0 then multiset{}
    else
      (if cs[0].receipt in q.claims then multiset{q.claims[cs[0].receipt]} else multiset{})
      + AckedPayloads(AckOne(q, cs[0].receipt), cs[1..])
  }

  lemma AckOneConserves(q: Redis, receipt: string)
    requires Paired(q)
    ensures Holdings(AckOne(q, receipt)) + (if receipt in q.claims then multiset{q.claims[receipt]} else multiset{})
         == Holdings(q)
    ensures Paired(AckOne(q, receipt))
  {
    UnfilePaired(q, receipt);
    if receipt in q.claims {
      PayloadRemove(q.claims, receipt);
    } else {
      UnfileNothing(q, receipt);
    }
  }

  lemma {:induction false} AckConserves(q: Redis, cs: seq<Claim>)
    requires Paired(q)
    ensures Holdings(Ack(q, cs)) + AckedPayloads(q, cs) == Holdings(q)
    decreases |cs|
  {
    if |cs| > 0 {
      hide AckOne, Holdings;
      AckOneConserves(q, cs[0].receipt);
      AckConserves(AckOne(q, cs[0].receipt), cs[1..]);
    }
  }

  // ---------- runs ----------

  datatype RedisOp =
    | OpEnqueue(refs: seq<TaskRef>)
    | OpClaim(call: ClaimCall)
    | OpAck(acked: seq<Claim>)
    | OpNack(nacked: seq<Claim>, error: bool, deadLetterMax: int)
    | OpRequeueExpired(due: seq<string>)
    | OpRequeueDead(wanted: seq<TaskRef>)

  function Apply(q: Redis, op: RedisOp): Redis {
    match op
    case OpEnqueue(refs) => Enqueue(q, refs)
    case OpClaim(call) => ClaimFrom(q, call, 0).0
    case OpAck(cs) => Ack(q, cs)
    case OpNack(cs, error, max) => Nack(q, cs, error, max)
    case OpRequeueExpired(due) => Release(q, due)
    case OpRequeueDead(refs) => Revive(q, refs).0
  }

  ghost function Put(op: RedisOp): multiset<string> {
    if op.OpEnqueue? then multiset(Keys(op.refs)) else multiset{}
  }

  /** What leaves the queue on purpose. */
  ghost function Acked(q: Redis, op: RedisOp): multiset<string> {
    if op.OpAck? then AckedPayloads(q, op.acked) else multiset{}
  }

  /** What leaves the queue because a receipt was given out while in use. */
  ghost function Lost(q: Redis, op: RedisOp): multiset<string> {
    if op.OpClaim? then LostFrom(q, op.call, 0) else multiset{}
  }

  lemma StepPaired(q: Redis, op: RedisOp)
    requires Paired(q)
    ensures Paired(Apply(q, op))
  {
    match op
    case OpEnqueue(refs) =>
    case OpClaim(call) => ClaimPaired(q, call, 0);
    case OpAck(cs) => AckPaired(q, cs);
    case OpNack(cs, error, max) => NackPaired(q, cs, error, max);
    case OpRequeueExpired(due) => ReleasePaired(q, due);
    case OpRequeueDead(refs) => RevivePaired(q, refs);
  }

  lemma EnqueueConserves(q: Redis, refs: seq<TaskRef>)
    ensures Holdings(Enqueue(q, refs)) == Holdings(q) + multiset(Keys(refs))
  {
    PushAllHolds(q.pending, Keys(refs));
  }

  lemma StepConserves(q: Redis, op: RedisOp)
    requires Paired(q)
    ensures Holdings(Apply(q, op)) + (Acked(q, op) + Lost(q, op)) == Holdings(q) + Put(op)
  {
    hide Holdings, Enqueue, ClaimFrom, Ack, Nack, Release, Revive, Paired, LostFrom;
    match op
    case OpEnqueue(refs) => EnqueueConserves(q, refs);
    case OpClaim(call) => ClaimLedger(q, call, 0);
    case OpAck(cs) => AckConserves(q, cs);
    case OpNack(cs, error, max) => NackConserves(q, cs, error, max);
    case OpRequeueExpired(due) => ReleaseConserves(q, due);
    case OpRequeueDead(refs) => ReviveConserves(q, refs);
  }

  ghost predicate StepAt(states: seq<Redis>, ops: seq<RedisOp>, i: nat)
    requires i < |ops| && |states| == |ops| + 1
  {
    states[i + 1] == Apply(states[i], ops[i])
  }

  ghost predicate RedisRun(states: seq<Redis>, ops: seq<RedisOp>) {
    && |states| == |ops| + 1
    && states[0] == EMPTY
    && (forall i :: 0 <= i < |ops| ==> StepAt(states, ops, i))
  }

  /** In every state of every run the claims hash and the visibility set hold the same receipts, new or not. */
  lemma {:induction false} RunPaired(states: seq<Redis>, ops: seq<RedisOp>, n: nat)
    requires RedisRun(states, ops) && n <= |ops|
    ensures Paired(states[n])
  {
    if n > 0 {
      RunPaired(states, ops, n - 1);
      StepPaired(states[n - 1], ops[n - 1]);
      assert StepAt(states, ops, n - 1);
    }
  }

  ghost function TotalPut(ops: seq<RedisOp>, n: nat): multiset<string>
    requires n <= |ops|
  {
    if n == 0 then multiset{} else TotalPut(ops, n - 1) + Put(ops[n - 1])
  }

  ghost function TotalAcked(states: seq<Redis>, ops: seq<RedisOp>, n: nat): multiset<string>
    requires n <= |ops| && |states| == |ops| + 1
  {
    if n == 0 then multiset{} else TotalAcked(states, ops, n - 1) + Acked(states[n - 1], ops[n - 1])
  }

  ghost function TotalLost(states: seq<Redis>, ops: seq<RedisOp>, n: nat): multiset<string>
    requires n <= |ops| && |states| == |ops| + 1
  {
    if n == 0 then multiset{} else TotalLost(states, ops, n - 1) + Lost(states[n - 1], ops[n - 1])
  }

  lemma Regroup(a: multiset<string>, b: multiset<string>, c: multiset<string>, d: multiset<string>)
    ensures (a + b) + (c + d) == (a + c) + (b + d)
  {
  }

  lemma NothingHeld()
    ensures Holdings(EMPTY) == multiset{}
  {
  }

  /** The books of any run: every enqueued payload is pending, claimed, dead, acked or lost to a reused receipt, exactly
      as often as it was enqueued. */
  lemma {:induction false} RunBalances(states: seq<Redis>, ops: seq<RedisOp>, n: nat)
    requires RedisRun(states, ops) && n <= |ops|
    ensures TotalPut(ops, n) == Holdings(states[n]) + (TotalAcked(states, ops, n) + TotalLost(states, ops, n))
  {
    hide Holdings, Acked, Lost, Put, Apply, Paired;
    if n > 0 {
      var q, op := states[n - 1], ops[n - 1];
      RunBalances(states, ops, n - 1);
      RunPaired(states, ops, n - 1);
      StepConserves(q, op);
      assert StepAt(states, ops, n - 1);
      LedgerStep(TotalPut(ops, n - 1), Put(op), Holdings(q), Holdings(states[n]),
                 TotalAcked(states, ops, n - 1) + TotalLost(states, ops, n - 1), Acked(q, op) + Lost(q, op));
      Regroup(TotalAcked(states, ops, n - 1), TotalLost(states, ops, n - 1), Acked(q, op), Lost(q, op));
    } else {
      NothingHeld();
    }
  }

  lemma NothingMissing(a: multiset<string>, b: multiset<string>, c: multiset<string>, lost: multiset<string>)
    requires a == b + (c + lost)
    ensures a == b + c <==> lost == multiset{}
  {
    if a == b + c {
      forall x ensures lost[x] == 0 {
        assert a[x] == b[x] + c[x] && a[x] == b[x] + (c[x] + lost[x]);
      }
      assert forall x :: x !in lost;
    }
    if lost == multiset{} {
      assert c + lost == c;
    }
  }

  /** Conservation over any run: enqueued payloads are exactly those pending, claimed, dead or acked, if and only if no
      claim was filed under a receipt in use. */
  lemma RunConserves(states: seq<Redis>, ops: seq<RedisOp>, n: nat)
    requires RedisRun(states, ops) && n <= |ops|
    ensures TotalPut(ops, n) == Holdings(states[n]) + TotalAcked(states, ops, n) <==> TotalLost(states, ops, n) == multiset{}
  {
    RunBalances(states, ops, n);
    NothingMissing(TotalPut(ops, n), Holdings(states[n]), TotalAcked(states, ops, n), TotalLost(states, ops, n));
  }

  // ---------- when nothing is lost ----------

  /** The two calls of one consumer read the same clock in their i-th turns. */
  predicate SameReading(a: ClaimCall, b: ClaimCall, i: nat) {
    a.consumer == b.consumer && a.stamp(i) == b.stamp(i)
  }

  /** No two Claim calls of the run by one consumer read the same clock in the same turn. */
  ghost predicate DistinctReadings(ops: seq<RedisOp>) {
    forall m: nat, n: nat, i: nat :: m < n < |ops| && ops[m].OpClaim? && ops[n].OpClaim? ==>
      !SameReading(ops[m].call, ops[n].call, i)
  }

  /** The receipt was made in a turn of one of the first n operations. */
  ghost predicate GivenAt(r: string, ops: seq<RedisOp>, n: nat, m: nat, i: nat) {
    m < n && m < |ops| && ops[m].OpClaim? && r == ReceiptAt(ops[m].call, i)
  }

  ghost predicate Given(r: string, ops: seq<RedisOp>, n: nat) { exists m: nat, i: nat :: GivenAt(r, ops, n, m, i) }

  /** The receipt was made in one of the first i turns of the call. */
  ghost predicate Taken(r: string, call: ClaimCall, i: nat) { exists k: nat :: k < i && r == ReceiptAt(call, k) }

  ghost predicate FiledFrom(q: Redis, ops: seq<RedisOp>, n: nat, call: ClaimCall, i: nat) {
    forall r :: r in q.claims ==> Given(r, ops, n) || Taken(r, call, i)
  }

  lemma FreshReceipt(q: Redis, ops: seq<RedisOp>, n: nat, i: nat)
    requires DistinctReadings(ops) && n < |ops| && ops[n].OpClaim? && FiledFrom(q, ops, n, ops[n].call, i)
    ensures ReceiptAt(ops[n].call, i) !in q.claims
  {
    hide ReceiptOf;
    var call := ops[n].call;
    var r := ReceiptAt(call, i);
    if Given(r, ops, n) {
      var m: nat, k: nat :| GivenAt(r, ops, n, m, k);
      assert !SameReading(ops[m].call, call, i);
      ReceiptInjective(ops[m].call.consumer, ops[m].call.stamp(k), k, call.consumer, call.stamp(i), i);
    }
    if Taken(r, call, i) {
      var k: nat :| k < i && r == ReceiptAt(call, k);
      ReceiptInjective(call.consumer, call.stamp(k), k, call.consumer, call.stamp(i), i);
    }
  }

  lemma TurnFiles(q: Redis, ops: seq<RedisOp>, n: nat, i: nat, next: nat)
    requires n < |ops| && ops[n].OpClaim? && |q.pending| > 0 && next == i + 1
    requires FiledFrom(q, ops, n, ops[n].call, i)
    ensures FiledFrom(TakeLast(q, ops[n].call, i), ops, n, ops[n].call, next)
  {
    hide Decode, ReceiptAt, Given;
    var call := ops[n].call;
    forall r | r in TakeLast(q, call, i).claims ensures Given(r, ops, n) || Taken(r, call, next) {
      if r !in q.claims {
        assert r == ReceiptAt(call, i);
      }
    }
  }

  lemma {:induction false} ClaimLosesNothing(q: Redis, ops: seq<RedisOp>, n: nat, i: nat)
    requires DistinctReadings(ops) && n < |ops| && ops[n].OpClaim? && FiledFrom(q, ops, n, ops[n].call, i)
    ensures LostFrom(q, ops[n].call, i) == multiset{}
    ensures forall r :: r in ClaimFrom(q, ops[n].call, i).0.claims ==> Given(r, ops, n + 1)
    decreases Limit(ops[n].call) - i
  {
    var call := ops[n].call;
    if i < Limit(call) && |q.pending| > 0 {
      hide TakeLast, LastClaim, ReceiptAt, FiledFrom, DistinctReadings, Given, Limit;
      FreshReceipt(q, ops, n, i);
      TurnFiles(q, ops, n, i, i + 1);
      ClaimLosesNothing(TakeLast(q, call, i), ops, n, i + 1);
    } else {
      GivenLater(q, ops, n, i);
    }
  }

  lemma GivenLater(q: Redis, ops: seq<RedisOp>, n: nat, i: nat)
    requires n < |ops| && ops[n].OpClaim? && FiledFrom(q, ops, n, ops[n].call, i)
    ensures forall r :: r in q.claims ==> Given(r, ops, n + 1)
  {
    hide ReceiptAt;
    forall r | r in q.claims ensures Given(r, ops, n + 1) {
      if Given(r, ops, n) {
        var m: nat, k: nat :| GivenAt(r, ops, n, m, k);
        assert GivenAt(r, ops, n + 1, m, k);
      } else {
        var k: nat :| k < i && r == ReceiptAt(ops[n].call, k);
        assert GivenAt(r, ops, n + 1, n, k);
      }
    }
  }

  /** Only Claim files anything. */
  lemma OthersFileNothing(q: Redis, op: RedisOp)
    requires !op.OpClaim?
    ensures Apply(q, op).claims.Keys <= q.claims.Keys
  {
    match op
    case OpEnqueue(_) =>
    case OpAck(cs) => AckFilesNothing(q, cs);
    case OpNack(cs, error, max) => NackFilesNothing(q, cs, error, max);
    case OpRequeueExpired(due) => ReleaseFilesNothing(q, due);
    case OpRequeueDead(refs) => ReviveFilesNothing(q, refs);
  }

  lemma {:induction false} AckFilesNothing(q: Redis, cs: seq<Claim>)
    ensures Ack(q, cs).claims.Keys <= q.claims.Keys
    decreases |cs|
  {
    if |cs| > 0 { AckFilesNothing(AckOne(q, cs[0].receipt), cs[1..]); }
  }

  lemma {:induction false} NackFilesNothing(q: Redis, cs: seq<Claim>, error: bool, max: int)
    ensures Nack(q, cs, error, max).claims.Keys <= q.claims.Keys
    decreases |cs|
  {
    if |cs| > 0 { NackFilesNothing(NackOne(q, cs[0].receipt, error, max), cs[1..], error, max); }
  }

  lemma {:induction false} ReleaseFilesNothing(q: Redis, due: seq<string>)
    ensures Release(q, due).claims.Keys <= q.claims.Keys
    decreases |due|
  {
    if |due| > 0 { ReleaseFilesNothing(ReleaseOne(q, due[0]), due[1..]); }
  }

  lemma {:induction false} ReviveFilesNothing(q: Redis, refs: seq<TaskRef>)
    ensures Revive(q, refs).0.claims.Keys <= q.claims.Keys
    decreases |refs|
  {
    if |refs| > 0 { ReviveFilesNothing(ReviveOne(q, EncodeRef(refs[0])), refs[1..]); }
  }

  /** What a caller can see to: if no two Claim calls of one consumer read the same clock in the same turn, no payload is
      ever lost, so the run conserves. */
  lemma {:induction false} DistinctReadingsLoseNothing(states: seq<Redis>, ops: seq<RedisOp>, n: nat)
    requires RedisRun(states, ops) && DistinctReadings(ops) && n <= |ops|
    ensures TotalLost(states, ops, n) == multiset{}
    ensures forall r :: r in states[n].claims ==> Given(r, ops, n)
  {
    hide DistinctReadings, Given, Apply, Lost;
    if n > 0 {
      var q, op := states[n - 1], ops[n - 1];
      DistinctReadingsLoseNothing(states, ops, n - 1);
      assert StepAt(states, ops, n - 1);
      NextGiven(q, ops, n - 1);
    }
  }

  lemma NextGiven(q: Redis, ops: seq<RedisOp>, n: nat)
    requires DistinctReadings(ops) && n < |ops| && forall r :: r in q.claims ==> Given(r, ops, n)
    ensures Lost(q, ops[n]) == multiset{}
    ensures forall r :: r in Apply(q, ops[n]).claims ==> Given(r, ops, n + 1)
  {
    hide DistinctReadings, ClaimFrom, LostFrom;
    if ops[n].OpClaim? {
      assert FiledFrom(q, ops, n, ops[n].call, 0);
      ClaimLosesNothing(q, ops, n, 0);
    } else {
      OthersFileNothing(q, ops[n]);
      forall r | r in q.claims ensures Given(r, ops, n + 1) {
        var m: nat, k: nat :| GivenAt(r, ops, n, m, k);
        assert GivenAt(r, ops, n + 1, m, k);
      }
    }
  }

  // ---------- an instance that loses a payload ----------

  /** A one-item Claim files the oldest payload under its receipt, over whatever the receipt held. */
  lemma OneTurn(q: Redis, call: ClaimCall, newer: seq<string>, ref: TaskRef)
    requires q.pending == newer + [EncodeRef(ref)] && WellFormed(ref) && Limit(call) == 1
    ensures var r := ReceiptAt(call, 0);
      var q' := Apply(q, OpClaim(call));
      && q'.pending == newer && q'.dead == q.dead && q'.claims == q.claims[r := EncodeRef(ref)]
      && Lost(q, OpClaim(call)) == if r in q.claims then multiset{q.claims[r]} else multiset{}
  {
    hide Decode, EncodeRef, ReceiptAt, Limit, WellFormed;
    DecodeEncode(ref);
    var q' := TakeLast(q, call, 0);
    assert ClaimFrom(q, call, 0).0 == ClaimFrom(q', call, 1).0 == q';
    assert LostFrom(q, call, 0) == Overwritten(q, call, 0) + LostFrom(q', call, 1);
  }

  lemma PutTwo(x: TaskRef, y: TaskRef)
    ensures Apply(EMPTY, OpEnqueue([x, y])) == EMPTY.(pending := [EncodeRef(y)] + [EncodeRef(x)])
  {
    hide EncodeRef;
    var keys := Keys([x, y]);
    assert keys == [EncodeRef(x), EncodeRef(y)];
    assert keys[1..] == [EncodeRef(y)] && [keys[0]] + [] == [EncodeRef(x)];
    assert PushAll([EncodeRef(x)], keys[1..]) == [EncodeRef(y)] + [EncodeRef(x)];
  }

  lemma HoldsOne(q: Redis, r: string, raw: string)
    requires q.pending == [] && q.dead == [] && q.claims == map[r := raw]
    ensures Holdings(q) == multiset{raw}
  {
    PayloadPut(map[], r, raw);
    assert map[][r := raw] == map[r := raw];
  }

  /** Two one-item Claim calls that read the same clock for one consumer: the first ref is gone from the queue, though
      nobody acked it. */
  lemma SameReadingLoses(x: TaskRef, y: TaskRef, call: ClaimCall) returns (states: seq<Redis>)
    requires WellFormed(x) && WellFormed(y) && Limit(call) == 1
    ensures var ops := [OpEnqueue([x, y]), OpClaim(call), OpClaim(call)];
      && RedisRun(states, ops)
      && Holdings(states[3]) == multiset{EncodeRef(y)}
      && TotalAcked(states, ops, 3) == multiset{}
      && TotalLost(states, ops, 3) == multiset{EncodeRef(x)}
  {
    hide EncodeRef, ReceiptAt, Limit, WellFormed, Apply, Holdings;
    var ops := [OpEnqueue([x, y]), OpClaim(call), OpClaim(call)];
    assert ops[0] == OpEnqueue([x, y]);
    var q1 := Apply(EMPTY, ops[0]);
    var q2 := Apply(q1, ops[1]);
    var q3 := Apply(q2, ops[2]);
    states := [EMPTY, q1, q2, q3];
    PutTwo(x, y);
    OneTurn(q1, call, [EncodeRef(y)], x);
    OneTurn(q2, call, [], y);
    HoldsOne(q3, ReceiptAt(call, 0), EncodeRef(y));
    assert TotalLost(states, ops, 1) == multiset{} && TotalLost(states, ops, 2) == multiset{};
    assert TotalAcked(states, ops, 1) == multiset{} && TotalAcked(states, ops, 2) == multiset{};
  }

  // ---------- first in, first out ----------

  function Reverse(s: seq<string>): (r: seq<string>)
    ensures |r| == |s|
  {
    if |s| == 0 then [] else Reverse(s[1..]) + [s[0]]
  }

  lemma {:induction false} PushAllReverses(list: seq<string>, keys: seq<string>)
    ensures PushAll(list, keys) == Reverse(keys) + list
    decreases |keys|
  {
    if |keys| > 0 {
      PushAllReverses([keys[0]] + list, keys[1..]);
      assert Reverse(keys[1..]) + ([keys[0]] + list) == Reverse(keys) + list;
    }
  }

  // ---------- sweeps ----------

  lemma {:induction false} ReleaseMoves(q: Redis, receipts: seq<string>, r: string, raw: string)
    ensures var q' := Release(q, receipts);
      && (r in q'.claims <==> r in q.claims && r !in receipts)
      && (r in q'.claims ==> q'.claims[r] == q.claims[r])
      && (raw in q.pending ==> raw in q'.pending)
      && (r in q.claims && r in receipts && q.claims[r] == raw != "" ==> raw in q'.pending)
    decreases |receipts|
  {
    if |receipts| > 0 {
      ReleaseMoves(ReleaseOne(q, receipts[0]), receipts[1..], r, raw);
      assert receipts == [receipts[0]] + receipts[1..];
    }
  }

  /** A sweep puts back only payloads whose time, in milliseconds, is up, and leaves the other claims alone.  It stops early
      only at its limit, which is 100 unless one is given. */
  lemma SweepReleases(q: Redis, now: int, max: int, due: seq<string>, r: string)
    requires Paired(q) && DueRange(q.visibility, now, max, due) && r in q.claims
    ensures var q', limit := Release(q, due), if max > 0 then max else 100;
      && |due| <= limit
      && (q.visibility[r] > now / 1_000_000 ==> r in q'.claims)
      && (q.visibility[r] <= now / 1_000_000 && r in q'.claims ==> |due| == limit)
      && (if r in q'.claims then q'.claims[r] == q.claims[r] else q.claims[r] != "" ==> q.claims[r] in q'.pending)
  {
    hide Release;
    ReleaseMoves(q, due, r, q.claims[r]);
  }

  lemma {:induction false} ScoreStays(q: Redis, call: ClaimCall, i: nat, r: string)
    requires r in q.visibility && q.visibility[r] == Millis(VisibleAt(call))
    ensures var q' := ClaimFrom(q, call, i).0; r in q'.visibility && q'.visibility[r] == Millis(VisibleAt(call))
    decreases Limit(call) - i
  {
    hide Decode, ReceiptAt, Limit, VisibleAt, Millis;
    if i < Limit(call) && |q.pending| > 0 {
      ScoreStays(TakeLast(q, call, i), call, i + 1, r);
    }
  }

  /** A claim stays with its consumer for as long as asked, 15 seconds by default, and is filed under that time in
      milliseconds. */
  lemma {:induction false} ClaimTimes(q: Redis, call: ClaimCall, i: nat, c: Claim)
    requires c in ClaimFrom(q, call, i).1
    ensures c.claimedBy == call.consumer && c.claimedAt == call.now
    ensures c.visibleAt == call.now + if call.visibility > 0 then call.visibility else 15 * 1_000_000_000
    ensures var q' := ClaimFrom(q, call, i).0; c.receipt in q'.visibility && q'.visibility[c.receipt] == c.visibleAt / 1_000_000
    decreases Limit(call) - i
  {
    hide Decode, ReceiptAt, Limit;
    if i < Limit(call) && |q.pending| > 0 {
      var q1 := TakeLast(q, call, i);
      if c in LastClaim(q, call, i) {
        ScoreStays(q1, call, i + 1, c.receipt);
      } else {
        ClaimTimes(q1, call, i + 1, c);
      }
    }
  }

  lemma OldestIsLast(q: Redis, call: ClaimCall, i: nat, refs: seq<TaskRef>)
    requires |refs| > 0 && q.pending == Reverse(Keys(refs)) && WellFormed(refs[0])
    ensures |q.pending| > 0 && TakeLast(q, call, i).pending == Reverse(Keys(refs[1..]))
    ensures LastClaim(q, call, i) == [Claim(refs[0], ReceiptAt(call, i), call.consumer, call.now, VisibleAt(call))]
  {
    hide Decode;
    var keys := Keys(refs);
    assert keys[1..] == Keys(refs[1..]) && keys[0] == EncodeRef(refs[0]);
    DecodeEncode(refs[0]);
    var older := Reverse(keys[1..]);
    assert q.pending == older + [keys[0]];
    assert q.pending[..|q.pending| - 1] == older;
  }

  lemma {:induction false} ClaimsInOrder(q: Redis, call: ClaimCall, i: nat, refs: seq<TaskRef>)
    requires q.pending == Reverse(Keys(refs)) && i + |refs| <= Limit(call)
    requires forall k :: 0 <= k < |refs| ==> WellFormed(refs[k])
    ensures Refs(ClaimFrom(q, call, i).1) == refs
    decreases |refs|
  {
    hide TakeLast, LastClaim, WellFormed, Limit;
    if |refs| > 0 {
      OldestIsLast(q, call, i, refs);
      var first := LastClaim(q, call, i);
      var q1 := TakeLast(q, call, i);
      ClaimsInOrder(q1, call, i + 1, refs[1..]);
      assert ClaimFrom(q, call, i).1 == first + ClaimFrom(q1, call, i + 1).1;
      assert refs == [refs[0]] + refs[1..];
    }
  }

  /** From an empty pending list, what is enqueued is claimed in the order it was enqueued, with the ids it had. */
  lemma EnqueueThenClaim(q: Redis, refs: seq<TaskRef>, call: ClaimCall)
    requires q.pending == [] && |refs| <= Limit(call)
    requires forall k :: 0 <= k < |refs| ==> WellFormed(refs[k])
    ensures Refs(ClaimFrom(Enqueue(q, refs), call, 0).1) == refs
  {
    PushAllReverses([], Keys(refs));
    assert Reverse(Keys(refs)) + [] == Reverse(Keys(refs));
    ClaimsInOrder(Enqueue(q, refs), call, 0, refs);
  }
}
