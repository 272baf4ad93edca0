/** When a payload goes to the dead list of the Redis queue: at every error nack that fills up the configured number, counted
    since the payload was last acked or revived. */
module RedisStrikes {
  import opened Records
  import opened RedisModel
  import opened RedisLaws
  import Q = QueueLaws

  function Count(q: Redis, key: string): int { if key in q.nacks then q.nacks[key] else 0 }

  // ---------- counting up to a maximum ----------

  lemma Multiples(d: int, m: int)
    requires m > 0
    ensures d >= 1 ==> d * m >= m
    ensures d <= -1 ==> d * m <= -m
  {
  }

  lemma Remainder(k: int, m: int, q: int, r: int)
    requires m > 0 && 0 <= r < m && k == q * m + r
    ensures k % m == r
  {
    assert k == (k / m) * m + k % m;
    assert (q - k / m) * m == k % m - r;
    Multiples(q - k / m, m);
  }

  lemma NextRemainder(k: nat, m: nat)
    requires m >= 1
    ensures (k + 1) % m == if k % m + 1 >= m then 0 else k % m + 1
  {
    var q, r := k / m, k % m;
    assert k == q * m + r;
    if r + 1 == m {
      assert (q + 1) * m == q * m + m;
      Remainder(k + 1, m, q + 1, 0);
    } else {
      Remainder(k + 1, m, q, r + 1);
    }
  }

  // ---------- one operation ----------

  /** The claims of this payload that an operation on cs finds filed. */
  ghost function Hits(claims: map<string, string>, cs: seq<Claim>, key: string): set<string> {
    set r | r in claims && Q.HasReceipt(cs, r) && claims[r] == key
  }

  lemma HitsStep(claims: map<string, string>, cs: seq<Claim>, key: string)
    requires |cs| > 0
    ensures var c := cs[0].receipt;
      |Hits(claims, cs, key)| == |Hits(claims - {c}, cs[1..], key)| + if c in claims && claims[c] == key then 1 else 0
  {
    hide Q.HasReceipt;
    var c, rest := cs[0].receipt, cs[1..];
    assert cs == [cs[0]] + rest;
    forall r ensures Q.HasReceipt(cs, r) <==> c == r || Q.HasReceipt(rest, r) { Q.HasReceiptCons(cs[0], cs[1..], r); }
    var more := if c in claims && claims[c] == key then {c} else {};
    assert Hits(claims, cs, key) == Hits(claims - {c}, rest, key) + more;
  }

  lemma NoHits(claims: map<string, string>, cs: seq<Claim>, key: string)
    requires |cs| == 0
    ensures Hits(claims, cs, key) == {}
  {
  }

  lemma NackOneCounts(q: Redis, receipt: string, key: string, max: nat, k: nat)
    requires key != "" && max >= 1 && Count(q, key) == k % max
    ensures var q' := NackOne(q, receipt, true, max);
      && (receipt in q.claims && q.claims[receipt] != "" ==> q'.claims == q.claims - {receipt})
      && (receipt !in q.claims || q.claims[receipt] == "" ==> q' == q)
      && Count(q', key) == (if receipt in q.claims && q.claims[receipt] == key then k + 1 else k) % max
  {
    NextRemainder(k, max);
  }

  /** A receipt whose payload is empty stays filed; it is never a hit for a key. */
  lemma HitsSkip(claims: map<string, string>, cs: seq<Claim>, key: string)
    requires |cs| > 0 && key != "" && (cs[0].receipt in claims ==> claims[cs[0].receipt] == "")
    ensures Hits(claims, cs, key) == Hits(claims, cs[1..], key)
  {
    hide Q.HasReceipt;
    assert cs == [cs[0]] + cs[1..];
    forall r ensures Q.HasReceipt(cs, r) <==> cs[0].receipt == r || Q.HasReceipt(cs[1..], r) { Q.HasReceiptCons(cs[0], cs[1..], r); }
  }

  lemma {:induction false} NackStrikes(q: Redis, cs: seq<Claim>, key: string, max: nat, k: nat)
    requires key != "" && max >= 1 && Count(q, key) == k % max
    ensures Count(Nack(q, cs, true, max), key) == (k + |Hits(q.claims, cs, key)|) % max
    decreases |cs|
  {
    hide Hits, Q.HasReceipt, NackOne, Count;
    if |cs| == 0 {
      NoHits(q.claims, cs, key);
    } else {
      var c := cs[0].receipt;
      NackOneCounts(q, c, key, max, k);
      if c in q.claims && q.claims[c] != "" {
        HitsStep(q.claims, cs, key);
      } else {
        HitsSkip(q.claims, cs, key);
      }
      NackStrikes(NackOne(q, c, true, max), cs[1..], key, max, if c in q.claims && q.claims[c] == key then k + 1 else k);
    }
  }

  lemma {:induction false} OtherNacksFree(q: Redis, cs: seq<Claim>, max: int)
    ensures Nack(q, cs, false, max).nacks == q.nacks
    decreases |cs|
  {
    if |cs| > 0 { OtherNacksFree(NackOne(q, cs[0].receipt, false, max), cs[1..], max); }
  }

  lemma {:induction false} AckForgets(q: Redis, cs: seq<Claim>, key: string)
    requires key != ""
    ensures Count(Ack(q, cs), key) == if Hits(q.claims, cs, key) != {} then 0 else Count(q, key)
    decreases |cs|
  {
    hide Q.HasReceipt;
    if |cs| > 0 {
      AckForgets(AckOne(q, cs[0].receipt), cs[1..], key);
      HitsStep(q.claims, cs, key);
    } else {
      NoHits(q.claims, cs, key);
    }
  }

  lemma {:induction false} ReleaseFree(q: Redis, receipts: seq<string>)
    ensures Release(q, receipts).nacks == q.nacks
    decreases |receipts|
  {
    if |receipts| > 0 { ReleaseFree(ReleaseOne(q, receipts[0]), receipts[1..]); }
  }

  lemma {:induction false} ClaimsFree(q: Redis, call: ClaimCall, i: nat)
    ensures ClaimFrom(q, call, i).0.nacks == q.nacks
    decreases Limit(call) - i
  {
    if i < Limit(call) && |q.pending| > 0 { ClaimsFree(TakeLast(q, call, i), call, i + 1); }
  }

  lemma {:induction false} ReviveForgets(q: Redis, refs: seq<TaskRef>, key: string)
    ensures Count(Revive(q, refs).0, key) == if key in q.dead && key in Keys(refs) then 0 else Count(q, key)
    decreases |refs|
  {
    hide EncodeRef;
    if |refs| > 0 {
      var raw := EncodeRef(refs[0]);
      assert Keys(refs) == [raw] + Keys(refs[1..]);
      ReviveForgets(ReviveOne(q, raw), refs[1..], key);
      if raw != key { RemovesOnly(q.dead, raw, key); }
    }
  }

  lemma {:induction false} RemovesOnly(list: seq<string>, raw: string, key: string)
    requires raw != key
    ensures key in RemoveFirst(list, raw) <==> key in list
  {
    if |list| > 0 {
      assert list == [list[0]] + list[1..];
      RemovesOnly(list[1..], raw, key);
    }
  }

  // ---------- over runs ----------

  /** Every nack of the run is made under the same configured maximum. */
  ghost predicate Under(ops: seq<RedisOp>, max: nat) {
    forall i :: 0 <= i < |ops| && ops[i].OpNack? ==> ops[i].deadLetterMax == max
  }

  /** The error nacks of a payload since it was last acked or revived. */
  ghost function Strikes(states: seq<Redis>, ops: seq<RedisOp>, n: nat, key: string): nat
    requires n <= |ops| && |states| == |ops| + 1
  {
    if n == 0 then 0
    else
      var q, op, before := states[n - 1], ops[n - 1], Strikes(states, ops, n - 1, key);
      if op.OpAck? && Hits(q.claims, op.acked, key) != {} then 0
      else if op.OpRequeueDead? && key in q.dead && key in Keys(op.wanted) then 0
      else if op.OpNack? && op.error then before + |Hits(q.claims, op.nacked, key)|
      else before
  }

  /** In every state of every run the stored count of a payload is the number of its error nacks since it was last acked or
      revived, less the maximum for each time that made it dead. */
  lemma {:induction false} RunStrikes(states: seq<Redis>, ops: seq<RedisOp>, n: nat, key: string, max: nat)
    requires RedisRun(states, ops) && n <= |ops| && key != "" && max >= 1 && Under(ops, max)
    ensures Count(states[n], key) == Strikes(states, ops, n, key) % max
  {
    hide Hits, ClaimFrom, Ack, Nack, Release, Revive, Enqueue;
    if n > 0 {
      RunStrikes(states, ops, n - 1, key, max);
      assert StepAt(states, ops, n - 1);
      var q := states[n - 1];
      match ops[n - 1]
      case OpEnqueue(refs) => EnqueueFree(q, refs);
      case OpClaim(call) => ClaimsFree(q, call, 0);
      case OpAck(cs) => AckForgets(q, cs, key);
      case OpNack(cs, error, _) =>
        if error { NackStrikes(q, cs, key, max, Strikes(states, ops, n - 1, key)); } else { OtherNacksFree(q, cs, max); }
      case OpRequeueExpired(due) => ReleaseFree(q, due);
      case OpRequeueDead(refs) => ReviveForgets(q, refs, key);
    }
  }

  lemma EnqueueFree(q: Redis, refs: seq<TaskRef>)
    ensures Enqueue(q, refs).nacks == q.nacks
  {
  }

  /** So the nack of one claim sends its payload to the dead list exactly if it is an error and fills up the maximum;
      otherwise the payload waits again. */
  lemma DeadAtMax(states: seq<Redis>, ops: seq<RedisOp>, n: nat, c: Claim, error: bool, max: nat)
    requires RedisRun(states, ops) && n < |ops| && max >= 1 && Under(ops, max) && ops[n] == OpNack([c], error, max)
    requires c.receipt in states[n].claims && states[n].claims[c.receipt] != ""
    ensures var key := states[n].claims[c.receipt];
      && states[n + 1].claims == states[n].claims - {c.receipt}
      && if error && (Strikes(states, ops, n, key) + 1) % max == 0
         then states[n + 1].dead == [key] + states[n].dead && states[n + 1].pending == states[n].pending
         else states[n + 1].pending == [key] + states[n].pending && states[n + 1].dead == states[n].dead
  {
    hide Strikes;
    var key := states[n].claims[c.receipt];
    RunStrikes(states, ops, n, key, max);
    NextRemainder(Strikes(states, ops, n, key), max);
    assert StepAt(states, ops, n);
    assert [c][1..] == [];
    assert Nack(states[n], [c], error, max) == NackOne(states[n], c.receipt, error, max);
  }
}
