/** When a ref is dead-lettered: at every fifth error nack since it was last acked, whatever else happens to the queue. */
module StrikeLaws {
  import opened Records
  import opened QueueModel
  import opened QueueLaws

  function Count(q: QueueState, key: string): nat { if key in q.nacks then q.nacks[key] else 0 }

  /** One error nack of a claim in flight: with four strikes already the ref goes to the dead letters and its count is
      forgotten; with fewer it waits again with one strike more.  Any other nack costs nothing. */
  lemma NackCounts(q: QueueState, receipt: string, error: bool)
    requires receipt in q.inflight
    ensures var ref, q' := q.inflight[receipt].ref, NackOne(q, receipt, error);
      var before := Count(q, EncodeRef(ref));
      && q'.inflight == q.inflight - {receipt}
      && (error && before >= 4 ==> q'.dead == q.dead + [ref] && q'.items == q.items && q'.nacks == q.nacks - {EncodeRef(ref)})
      && (error && before < 4 ==>
            q'.items == q.items + [ref] && q'.dead == q.dead && q'.nacks == q.nacks[EncodeRef(ref) := before + 1])
      && (!error ==> q'.items == q.items + [ref] && q'.dead == q.dead && q'.nacks == q.nacks)
  {
  }

  // ---------- over runs ----------

  /** The claims of this key that the nack finds in flight. */
  ghost function Hits(inflight: map<string, Claim>, claims: seq<Claim>, key: string): set<string> {
    set r | r in inflight && HasReceipt(claims, r) && EncodeRef(inflight[r].ref) == key
  }

  ghost predicate Names(claims: seq<Claim>, key: string) { exists i :: 0 <= i < |claims| && EncodeRef(claims[i].ref) == key }

  /** The error nacks of a key since it was last acked. */
  ghost function Strikes(states: seq<QueueState>, ops: seq<QueueOp>, n: nat, key: string): nat
    requires n <= |ops| && |states| == |ops| + 1
  {
    if n == 0 then 0
    else
      var op, before := ops[n - 1], Strikes(states, ops, n - 1, key);
      if op.OpAck? && Names(op.claims, key) then 0
      else if op.OpNack? && op.error then before + |Hits(states[n - 1].inflight, op.nacked, key)|
      else before
  }

  lemma HitsStep(inflight: map<string, Claim>, claims: seq<Claim>, key: string)
    requires |claims| > 0
    ensures var c := claims[0].receipt;
      |Hits(inflight, claims, key)| == |Hits(inflight - {c}, claims[1..], key)|
        + if c in inflight && EncodeRef(inflight[c].ref) == key then 1 else 0
  {
    hide EncodeRef, HasReceipt;
    var c, rest := claims[0].receipt, claims[1..];
    assert claims == [claims[0]] + rest;
    forall r ensures HasReceipt(claims, r) <==> c == r || HasReceipt(rest, r) { HasReceiptCons(claims[0], rest, r); }
    var more := if c in inflight && EncodeRef(inflight[c].ref) == key then {c} else {};
    assert Hits(inflight, claims, key) == Hits(inflight - {c}, rest, key) + more;
  }

  lemma NackOneTakes(q: QueueState, receipt: string)
    ensures NackOne(q, receipt, true).inflight == q.inflight - {receipt}
  {
  }

  lemma {:induction false} NackStrikes(q: QueueState, claims: seq<Claim>, key: string)
    requires Count(q, key) < 5
    ensures Count(Nack(q, claims, true), key) == (Count(q, key) + |Hits(q.inflight, claims, key)|) % 5
    decreases |claims|
  {
    hide Hits, HasReceipt, EncodeRef;
    if |claims| == 0 {
      NoHits(q.inflight, claims, key);
    } else {
      HitsStep(q.inflight, claims, key);
      NackOneTakes(q, claims[0].receipt);
      NackStrikes(NackOne(q, claims[0].receipt, true), claims[1..], key);
    }
  }

  lemma NoHits(inflight: map<string, Claim>, claims: seq<Claim>, key: string)
    requires |claims| == 0
    ensures Hits(inflight, claims, key) == {}
  {
  }

  lemma {:induction false} OtherNacksFree(q: QueueState, claims: seq<Claim>)
    ensures Nack(q, claims, false).nacks == q.nacks
    decreases |claims|
  {
    if |claims| > 0 { OtherNacksFree(NackOne(q, claims[0].receipt, false), claims[1..]); }
  }

  lemma {:induction false} AckForgets(q: QueueState, claims: seq<Claim>, key: string)
    ensures Count(Ack(q, claims), key) == if Names(claims, key) then 0 else Count(q, key)
    decreases |claims|
  {
    hide EncodeRef;
    if |claims| > 0 {
      AckForgets(AckOne(q, claims[0]), claims[1..], key);
      if Names(claims[1..], key) {
        var i :| 0 <= i < |claims| - 1 && EncodeRef(claims[1..][i].ref) == key;
        assert EncodeRef(claims[i + 1].ref) == key;
      }
    }
  }

  lemma {:induction false} ClaimsFree(q: QueueState, n: nat, consumer: string, now: int, v: int)
    requires n <= |q.items|
    ensures Claims(q, n, consumer, now, v).0.nacks == q.nacks
    decreases n
  {
    if n > 0 { ClaimsFree(TakeFront(q, consumer, now, v), n - 1, consumer, now, v); }
  }

  /** In every state of every run the stored count of a key is the number of its error nacks since it was last acked,
      less five for each time that made it dead. */
  lemma {:induction false} RunStrikes(states: seq<QueueState>, ops: seq<QueueOp>, n: nat, key: string)
    requires QueueRun(states, ops) && n <= |ops|
    ensures Count(states[n], key) == Strikes(states, ops, n, key) % 5
  {
    hide Hits, Names, Claims, Ack, Nack, Release;
    if n > 0 {
      RunStrikes(states, ops, n - 1, key);
      assert StepAt(states, ops, n - 1);
      var q := states[n - 1];
      match ops[n - 1]
      case OpEnqueue(refs) =>
      case OpClaim(max, c, now, v) => ClaimsFree(q, ClaimCount(q, max), c, now, v);
      case OpAck(cs) => AckForgets(q, cs, key);
      case OpNack(cs, error) => if error { NackStrikes(q, cs, key); } else { OtherNacksFree(q, cs); }
      case OpRequeueExpired(listing, now, max) => ReleaseFree(q, Due(q, listing, now, max));
      case OpRequeueDead(refs) =>
    }
  }

  /** So the nack of one claim makes its ref dead exactly if it is an error and the fifth, or tenth, and so on, of its key
      since the last ack; otherwise the ref waits again. */
  lemma DeadAtFifth(states: seq<QueueState>, ops: seq<QueueOp>, n: nat, c: Claim, error: bool)
    requires QueueRun(states, ops) && n < |ops| && ops[n] == OpNack([c], error) && c.receipt in states[n].inflight
    ensures var ref := states[n].inflight[c.receipt].ref;
      if error && (Strikes(states, ops, n, EncodeRef(ref)) + 1) % 5 == 0
      then states[n + 1].dead == states[n].dead + [ref] && states[n + 1].items == states[n].items
      else states[n + 1].items == states[n].items + [ref] && states[n + 1].dead == states[n].dead
  {
    hide Strikes, EncodeRef;
    var q := states[n];
    RunStrikes(states, ops, n, EncodeRef(q.inflight[c.receipt].ref));
    assert StepAt(states, ops, n);
    assert [c][1..] == [];
    assert Nack(q, [c], error) == NackOne(q, c.receipt, error);
    NackCounts(q, c.receipt, error);
  }
}
