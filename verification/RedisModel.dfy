/** The Redis form of the queue as a value (internal/state/redis_queue.go): a pending list, a claims hash, a
    visibility sorted set, a nack hash and a dead list, all holding the text form of task refs.

    Every command is taken to succeed.  The left end of a list is index 0: LPUSH puts in front, RPOP takes the last. */
module RedisModel {
  import opened Text
  import opened Records

  datatype Redis = Redis(
    pending: seq<string>,
    claims: map<string, string>,
    visibility: map<string, int>,
    nacks: map<string, int>,
    dead: seq<string>)

  const EMPTY := Redis([], map[], map[], map[], [])

  // ---------- text form of a ref ----------

  /** decodeTaskRef: split at the first bar, both sides non-empty. */
  function Decode(raw: string): (r: Option<TaskRef>)
    ensures r.Some? ==> EncodeRef(r.value) == raw
  {
    var i := Bar(raw);
    if i == |raw| || i == 0 || i == |raw| - 1 then None
    else
      assert raw == raw[..i] + "|" + raw[i + 1..];
      Some(TaskRef(raw[..i], raw[i + 1..]))
  }

  function Bar(s: string): (i: nat)
    ensures i <= |s| && (i < |s| ==> s[i] == '|')
    ensures forall k :: 0 <= k < i ==> s[k] != '|'
  {
    if |s| == 0 || s[0] == '|' then 0
    else
      assert forall k :: 0 < k < |s| ==> s[k] == s[1..][k - 1];
      Bar(s[1..]) + 1
  }

  predicate WellFormed(ref: TaskRef) { ref.jobId != "" && ref.taskId != "" && '|' !in ref.jobId }

  /** decodeTaskRef inverts encodeTaskRef on exactly the refs with non-empty ids and no bar in the job id. */
  lemma DecodeEncode(ref: TaskRef)
    ensures Decode(EncodeRef(ref)) == Some(ref) <==> WellFormed(ref)
  {
    var raw := EncodeRef(ref);
    var n := |ref.jobId|;
    assert raw[..n] == ref.jobId && raw[n] == '|' && raw[n + 1..] == ref.taskId;
    assert '|' in ref.jobId ==> Bar(raw) < n by {
      if '|' in ref.jobId {
        var k :| 0 <= k < n && ref.jobId[k] == '|';
        assert raw[k] == '|' && Bar(raw) <= k;
      }
    }
  }

  // ---------- commands on lists ----------

  /** LPUSH list k1 k2 ...: each in turn goes in front. */
  function PushAll(list: seq<string>, keys: seq<string>): seq<string>
    decreases |keys|
  {
    if |keys| == 0 then list else PushAll([keys[0]] + list, keys[1..])
  }

  /** LREM list 1 raw: the first occurrence from the left. */
  function RemoveFirst(list: seq<string>, raw: string): seq<string> {
    if |list| == 0 then []
    else if list[0] == raw then list[1..]
    else [list[0]] + RemoveFirst(list[1..], raw)
  }

  function Payload(q: Redis, receipt: string): string {
    if receipt in q.claims then q.claims[receipt] else ""
  }

  function Unfile(q: Redis, receipt: string): Redis {
    q.(claims := q.claims - {receipt}, visibility := q.visibility - {receipt})
  }

  // ---------- operations ----------

  function Enqueue(q: Redis, refs: seq<TaskRef>): Redis {
    q.(pending := PushAll(q.pending, Keys(refs)))
  }

  const MILLI := 1_000_000
  const DEFAULT_VISIBILITY := 15_000_000_000

  /** Time.UnixMilli */
  function Millis(t: int): int { t / MILLI }

  function ReceiptOf(consumer: string, nanos: int, i: nat): string {
    consumer + ":" + IntText(nanos) + ":" + NatText(i)
  }

  /** One Claim call: who asks, when, for how long, and the clock reading behind each receipt. */
  datatype ClaimCall = ClaimCall(max: int, consumer: string, now: int, visibility: int, stamp: nat -> int)

  function Limit(call: ClaimCall): nat { if call.max <= 0 then 1 else call.max }

  function VisibleAt(call: ClaimCall): int {
    call.now + if call.visibility <= 0 then DEFAULT_VISIBILITY else call.visibility
  }

  function ReceiptAt(call: ClaimCall, i: nat): string { ReceiptOf(call.consumer, call.stamp(i), i) }

  /** RPOP, then either LPUSH to the dead list or HSET and ZADD. */
  function TakeLast(q: Redis, call: ClaimCall, i: nat): Redis
    requires |q.pending| > 0
  {
    var raw := q.pending[|q.pending| - 1];
    var q := q.(pending := q.pending[..|q.pending| - 1]);
    if Decode(raw).None? then q.(dead := [raw] + q.dead)
    else
      q.(claims := q.claims[ReceiptAt(call, i) := raw],
         visibility := q.visibility[ReceiptAt(call, i) := Millis(VisibleAt(call))])
  }

  function LastClaim(q: Redis, call: ClaimCall, i: nat): seq<Claim>
    requires |q.pending| > 0
  {
    match Decode(q.pending[|q.pending| - 1])
    case None => []
    case Some(ref) => [Claim(ref, ReceiptAt(call, i), call.consumer, call.now, VisibleAt(call))]
  }

  /** The claim loop from its i-th turn on. */
  function ClaimFrom(q: Redis, call: ClaimCall, i: nat): (Redis, seq<Claim>)
    decreases Limit(call) - i
  {
    if i >= Limit(call) || |q.pending| == 0 then (q, [])
    else
      var (q', rest) := ClaimFrom(TakeLast(q, call, i), call, i + 1);
      (q', LastClaim(q, call, i) + rest)
  }

  function AckOne(q: Redis, receipt: string): Redis {
    var payload := Payload(q, receipt);
    var q := Unfile(q, receipt);
    if payload != "" then q.(nacks := q.nacks - {payload}) else q
  }

  function Ack(q: Redis, claims: seq<Claim>): Redis
    decreases |claims|
  {
    if |claims| == 0 then q else Ack(AckOne(q, claims[0].receipt), claims[1..])
  }

  /** The nack count after HINCRBY. */
  function Strikes(q: Redis, payload: string): int { (if payload in q.nacks then q.nacks[payload] else 0) + 1 }

  function NackOne(q: Redis, receipt: string, error: bool, deadLetterMax: int): Redis {
    var payload := Payload(q, receipt);
    if payload == "" then q
    else
      var n := Strikes(q, payload);
      Unfile(
        if error && n >= deadLetterMax then q.(dead := [payload] + q.dead, nacks := q.nacks - {payload})
        else q.(pending := [payload] + q.pending, nacks := if error then q.nacks[payload := n] else q.nacks),
        receipt)
  }

  function Nack(q: Redis, claims: seq<Claim>, error: bool, deadLetterMax: int): Redis
    decreases |claims|
  {
    if |claims| == 0 then q
    else Nack(NackOne(q, claims[0].receipt, error, deadLetterMax), claims[1..], error, deadLetterMax)
  }

  /** What ZRANGEBYSCORE -inf now LIMIT 0 max answers: the members due, lowest score first, at most max of them. */
  ghost predicate DueRange(visibility: map<string, int>, now: int, max: int, due: seq<string>) {
    var limit := if max <= 0 then 100 else max;
    && |due| <= limit
    && (forall i :: 0 <= i < |due| ==> due[i] in visibility && visibility[due[i]] <= Millis(now))
    && (forall i, j :: 0 <= i < j < |due| ==> due[i] != due[j] && visibility[due[i]] <= visibility[due[j]])
    && (forall r :: r in visibility && visibility[r] <= Millis(now) && r !in due ==>
          |due| == limit && visibility[due[|due| - 1]] <= visibility[r])
  }

  function ReleaseOne(q: Redis, receipt: string): Redis {
    var payload := Payload(q, receipt);
    Unfile(if payload != "" then q.(pending := [payload] + q.pending) else q, receipt)
  }

  function Release(q: Redis, receipts: seq<string>): Redis
    decreases |receipts|
  {
    if |receipts| == 0 then q else Release(ReleaseOne(q, receipts[0]), receipts[1..])
  }

  function ReviveOne(q: Redis, raw: string): Redis {
    if raw !in q.dead then q
    else q.(dead := RemoveFirst(q.dead, raw), pending := [raw] + q.pending, nacks := q.nacks - {raw})
  }

  /** RequeueDeadLetters: the new state and the number requeued. */
  function Revive(q: Redis, refs: seq<TaskRef>): (Redis, nat)
    decreases |refs|
  {
    if |refs| == 0 then (q, 0)
    else
      var raw := EncodeRef(refs[0]);
      var (q', n) := Revive(ReviveOne(q, raw), refs[1..]);
      (q', n + if raw in q.dead then 1 else 0)
  }
}
