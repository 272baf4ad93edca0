/** The claim/ack/nack queue as a value (internal/state/memory_queue.go) and its operations. */
module QueueModel {
  import opened Text
  import opened Records

  const MAX_NACKS := 5

  datatype QueueState = QueueState(
    items: seq<TaskRef>,
    inflight: map<string, Claim>,
    nacks: map<string, nat>,
    dead: seq<TaskRef>,
    counter: nat)

  const EMPTY := QueueState([], map[], map[], [], 0)

  function Receipt(consumer: string, n: nat): string { "mem:" + consumer + ":" + NatText(n) }

  function Enqueue(q: QueueState, refs: seq<TaskRef>): QueueState {
    q.(items := q.items + refs)
  }

  function ClaimCount(q: QueueState, max: int): (n: nat)
    ensures n <= |q.items|
  {
    var m := if max <= 0 then 1 else max;
    if m > |q.items| then |q.items| else m
  }

  const DEFAULT_VISIBILITY := 15_000_000_000

  function VisibleAt(now: int, visibility: int): int {
    now + if visibility <= 0 then DEFAULT_VISIBILITY else visibility
  }

  function FrontClaim(q: QueueState, consumer: string, now: int, visibility: int): Claim
    requires |q.items| > 0
  {
    Claim(q.items[0], Receipt(consumer, q.counter + 1), consumer, now, VisibleAt(now, visibility))
  }

  function TakeFront(q: QueueState, consumer: string, now: int, visibility: int): QueueState
    requires |q.items| > 0
  {
    var c := FrontClaim(q, consumer, now, visibility);
    q.(items := q.items[1..], inflight := q.inflight[c.receipt := c], counter := q.counter + 1)
  }

  /** Takes n refs from the front of the list, one receipt each. */
  function Claims(q: QueueState, n: nat, consumer: string, now: int, visibility: int): (r: (QueueState, seq<Claim>))
    requires n <= |q.items|
    ensures |r.1| == n
    decreases n
  {
    if n == 0 then (q, [])
    else
      var (q', rest) := Claims(TakeFront(q, consumer, now, visibility), n - 1, consumer, now, visibility);
      (q', [FrontClaim(q, consumer, now, visibility)] + rest)
  }

  function AckOne(q: QueueState, c: Claim): QueueState {
    q.(inflight := q.inflight - {c.receipt}, nacks := q.nacks - {EncodeRef(c.ref)})
  }

  function Ack(q: QueueState, claims: seq<Claim>): QueueState
    decreases |claims|
  {
    if |claims| == 0 then q else Ack(AckOne(q, claims[0]), claims[1..])
  }

  function NackOne(q: QueueState, receipt: string, error: bool): QueueState {
    if receipt !in q.inflight then q
    else
      var ref := q.inflight[receipt].ref;
      var key := EncodeRef(ref);
      var seen := (if key in q.nacks then q.nacks[key] else 0) + 1;
      if error && seen >= MAX_NACKS then
        q.(dead := q.dead + [ref], nacks := q.nacks - {key}, inflight := q.inflight - {receipt})
      else
        q.(items := q.items + [ref],
           nacks := if error then q.nacks[key := seen] else q.nacks,
           inflight := q.inflight - {receipt})
  }

  function Nack(q: QueueState, claims: seq<Claim>, error: bool): QueueState
    decreases |claims|
  {
    if |claims| == 0 then q
    else Nack(NackOne(q, claims[0].receipt, error), claims[1..], error)
  }

  /** The expired receipts that one sweep moves, in the order the in-flight map is listed. */
  function Due(q: QueueState, listing: seq<string>, now: int, max: int): seq<string> {
    var due := Filter(listing, r => r in q.inflight && q.inflight[r].visibleAt <= now);
    if max > 0 && |due| > max then due[..max] else due
  }

  function ReleaseOne(q: QueueState, receipt: string): QueueState {
    if receipt !in q.inflight then q
    else q.(items := q.items + [q.inflight[receipt].ref], inflight := q.inflight - {receipt})
  }

  function Release(q: QueueState, receipts: seq<string>): QueueState
    decreases |receipts|
  {
    if |receipts| == 0 then q else Release(ReleaseOne(q, receipts[0]), receipts[1..])
  }

  function RequeueExpired(q: QueueState, listing: seq<string>, now: int, max: int): QueueState {
    Release(q, Due(q, listing, now, max))
  }

  /** ListDeadLetters. */
  function ListDeadLetters(q: QueueState, limit: int): seq<TaskRef> {
    if limit <= 0 || limit > |q.dead| then q.dead else q.dead[..limit]
  }

  /** Splits the dead letters into those requested (each request entry takes one) and the rest. */
  function TakeRequested(dead: seq<TaskRef>, want: multiset<string>): (r: (seq<TaskRef>, seq<TaskRef>))
  {
    if |dead| == 0 then ([], [])
    else
      var key := EncodeRef(dead[0]);
      if want[key] > 0 then
        var (moved, kept) := TakeRequested(dead[1..], want - multiset{key});
        ([dead[0]] + moved, kept)
      else
        var (moved, kept) := TakeRequested(dead[1..], want);
        (moved, [dead[0]] + kept)
  }

  function RequeueDead(q: QueueState, refs: seq<TaskRef>): QueueState {
    var (moved, kept) := TakeRequested(q.dead, multiset(Keys(refs)));
    q.(items := q.items + moved, dead := kept)
  }

  /** The ref is somewhere in the queue: waiting, claimed or dead-lettered. */
  ghost predicate Tracked(q: QueueState, ref: TaskRef) {
    || ref in q.items
    || ref in q.dead
    || exists r :: r in q.inflight && q.inflight[r].ref == ref
  }
}
