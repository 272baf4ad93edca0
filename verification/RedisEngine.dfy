/** The scheduler engine over the Redis queue (internal/scheduler/engine.go with internal/state/redis_queue.go): no runnable
    task is lost, and no claim is outstanding between engine calls.

    The core is the engine's state without its queue.  The queue field of the core only collects, in order, what one phase
    of a call enqueues; the phase then ends by pushing it to Redis. */
module RedisEngine {
  import opened Records
  import opened Scheduler
  import opened PollPreservation
  import opened PollConsistency
  import opened NoLost
  import opened Settlement
  import Q = QueueModel
  import QueueLaws
  import R = RedisModel
  import L = RedisLaws

  datatype System = System(core: State, redis: R.Redis)

  const EMPTY_SYSTEM := System(INIT, R.EMPTY)

  /** What one call meets in Redis: the receipts ZRANGEBYSCORE answers, and the clock behind each new receipt. */
  datatype Feed = Feed(due: seq<string>, stamp: nat -> int)

  datatype Call = Call(action: Action, now: int, feed: Feed)

  function Flush(core: State, redis: R.Redis): System {
    System(core.(queue := Q.EMPTY), R.Enqueue(redis, core.queue.items))
  }

  // ---------- one engine call ----------

  function SweptSystem(y: System, now: int, tasks: seq<TaskRef>, due: seq<string>): System {
    Flush(ExpireLeases(y.core.(clock := now), tasks, now), R.Release(y.redis, due))
  }

  function PollCall(cfg: Config, worker: string, max: int, now: int, stamp: nat -> int): R.ClaimCall {
    R.ClaimCall(PollMax(max) * 32, worker, now, cfg.leaseNanos, stamp)
  }

  /** Trying the claims in priority order. */
  function Tried(cfg: Config, core: State, claims: seq<Claim>, worker: string, max: int, now: int, choices: seq<Choice>): Acc {
    var sorted := SortClaims(cfg, core, claims);
    AssignAll(cfg, core, worker, PollMax(max), sorted, |sorted|, now, choices)
  }

  function Settled(redis: R.Redis, acc: Acc, deadLetterMax: int): R.Redis {
    R.Nack(R.Nack(R.Ack(redis, acc.acks), acc.nacks, false, deadLetterMax), acc.errs, true, deadLetterMax)
  }

  /** Claiming, trying and settling, from the swept system. */
  function Served(cfg: Config, deadLetterMax: int, swept: System, worker: string, max: int, now: int, choices: seq<Choice>,
                    stamp: nat -> int): System
  {
    var (redis, claims) := R.ClaimFrom(swept.redis, PollCall(cfg, worker, max, now, stamp), 0);
    var acc := Tried(cfg, swept.core, claims, worker, max, now, choices);
    var tried := Flush(acc.s, redis);
    System(tried.core, Settled(tried.redis, acc, deadLetterMax))
  }

  function PollSystem(cfg: Config, deadLetterMax: int, y: System, worker: string, max: int, now: int, o: PollOrders, feed: Feed): System {
    if worker !in y.core.workers then y.(core := y.core.(clock := now))
    else Served(cfg, deadLetterMax, SweptSystem(y, now, o.tasks, feed.due), worker, max, now, o.choices, feed.stamp)
  }

  function Perform(cfg: Config, deadLetterMax: int, y: System, c: Call): System {
    match c.action
    case Poll(w, max, o) => PollSystem(cfg, deadLetterMax, y, w, max, c.now, o, c.feed)
    case Revive(refs) => System(y.core.(clock := c.now), R.Revive(y.redis, refs).0)
    case _ =>
      var core := Step(cfg, y.core, c.action, c.now);
      Flush(core, y.redis)
  }

  // ---------- refs and their text ----------

  predicate BarFree(ref: TaskRef) { '|' !in ref.jobId }

  lemma BarPlace(ref: TaskRef)
    requires BarFree(ref)
    ensures R.Bar(EncodeRef(ref)) == |ref.jobId|
  {
    var raw := EncodeRef(ref);
    assert raw[|ref.jobId|] == '|';
    assert forall k :: 0 <= k < |ref.jobId| ==> raw[k] == ref.jobId[k];
  }

  /** Without bars in job ids, the text of a ref names one task. */
  lemma TextNamesOne(a: TaskRef, b: TaskRef)
    requires BarFree(a) && BarFree(b) && EncodeRef(a) == EncodeRef(b)
    ensures a == b
  {
    BarPlace(a);
    BarPlace(b);
    var raw, n := EncodeRef(a), |a.jobId|;
    assert raw[..n] == a.jobId && raw[..n] == b.jobId;
    assert raw[n + 1..] == a.taskId && raw[n + 1..] == b.taskId;
  }

  lemma DecodedWellFormed(raw: string)
    requires R.Decode(raw).Some?
    ensures R.WellFormed(R.Decode(raw).value)
  {
  }

  // ---------- what a claim leaves in Redis ----------

  ghost predicate Filed(q: R.Redis, c: Claim) {
    c.receipt in q.claims && q.claims[c.receipt] == EncodeRef(c.ref) && R.WellFormed(c.ref)
  }

  lemma {:induction false} LaterTurnsKeep(q: R.Redis, call: R.ClaimCall, i: nat, j: nat)
    requires j < i && R.ReceiptAt(call, j) in q.claims
    ensures var q', r := R.ClaimFrom(q, call, i).0, R.ReceiptAt(call, j);
      r in q'.claims && q'.claims[r] == q.claims[r]
    decreases R.Limit(call) - i
  {
    hide R.ReceiptOf, R.Decode, R.Limit;
    if i < R.Limit(call) && |q.pending| > 0 {
      L.ReceiptInjective(call.consumer, call.stamp(i), i, call.consumer, call.stamp(j), j);
      LaterTurnsKeep(R.TakeLast(q, call, i), call, i + 1, j);
    }
  }

  lemma TurnFiles(q: R.Redis, call: R.ClaimCall, i: nat)
    requires |q.pending| > 0 && |R.LastClaim(q, call, i)| > 0
    ensures var c := R.LastClaim(q, call, i)[0];
      c.receipt == R.ReceiptAt(call, i) && Filed(R.TakeLast(q, call, i), c)
  {
    DecodedWellFormed(q.pending[|q.pending| - 1]);
  }

  /** Every claim returned is filed under its receipt with the text of its ref, whatever the clock reads. */
  lemma {:induction false} ClaimsFiled(q: R.Redis, call: R.ClaimCall, i: nat, k: nat)
    requires k < |R.ClaimFrom(q, call, i).1|
    ensures Filed(R.ClaimFrom(q, call, i).0, R.ClaimFrom(q, call, i).1[k])
    decreases R.Limit(call) - i
  {
    hide R.ReceiptAt, R.TakeLast, R.Limit, R.WellFormed;
    var first, q1 := R.LastClaim(q, call, i), R.TakeLast(q, call, i);
    if k < |first| {
      TurnFiles(q, call, i);
      LaterTurnsKeep(q1, call, i + 1, i);
    } else {
      ClaimsFiled(q1, call, i + 1, k - |first|);
    }
  }

  lemma TurnFilesOnly(q: R.Redis, call: R.ClaimCall, i: nat, r: string)
    requires |q.pending| > 0 && r in R.TakeLast(q, call, i).claims
    ensures r in q.claims || QueueLaws.HasReceipt(R.LastClaim(q, call, i), r)
  {
    hide R.Decode;
    if r !in q.claims {
      assert R.LastClaim(q, call, i)[0].receipt == r;
    }
  }

  lemma {:induction false} OnlyClaimsFiled(q: R.Redis, call: R.ClaimCall, i: nat, r: string)
    requires r in R.ClaimFrom(q, call, i).0.claims
    ensures r in q.claims || QueueLaws.HasReceipt(R.ClaimFrom(q, call, i).1, r)
    decreases R.Limit(call) - i
  {
    hide R.ReceiptAt, R.TakeLast, R.LastClaim, R.Limit, QueueLaws.HasReceipt;
    if i < R.Limit(call) && |q.pending| > 0 {
      var first, q1 := R.LastClaim(q, call, i), R.TakeLast(q, call, i);
      OnlyClaimsFiled(q1, call, i + 1, r);
      if r in q1.claims { TurnFilesOnly(q, call, i, r); }
      ReceiptEither(first, R.ClaimFrom(q1, call, i + 1).1, r);
    }
  }

  lemma ReceiptEither(a: seq<Claim>, b: seq<Claim>, r: string)
    ensures QueueLaws.HasReceipt(a + b, r) <==> QueueLaws.HasReceipt(a, r) || QueueLaws.HasReceipt(b, r)
  {
    if QueueLaws.HasReceipt(a, r) {
      var i :| 0 <= i < |a| && a[i].receipt == r;
      assert (a + b)[i].receipt == r;
    }
    if QueueLaws.HasReceipt(b, r) {
      var i :| 0 <= i < |b| && b[i].receipt == r;
      assert (a + b)[|a| + i].receipt == r;
    }
  }

  /** A call that finds no claim outstanding loses nothing: its receipts differ by turn. */
  lemma ClaimKeepsAll(q: R.Redis, call: R.ClaimCall)
    requires q.claims == map[]
    ensures L.Holdings(R.ClaimFrom(q, call, 0).0) == L.Holdings(q)
  {
    var ops := [L.OpClaim(call)];
    assert L.FiledFrom(q, ops, 0, ops[0].call, 0);
    L.ClaimLosesNothing(q, ops, 0, 0);
    L.ClaimLedger(q, call, 0);
  }

  // ---------- what settling leaves ----------

  lemma {:induction false} AckLeaves(q: R.Redis, cs: seq<Claim>, r: string)
    requires r in R.Ack(q, cs).claims
    ensures r in q.claims && !QueueLaws.HasReceipt(cs, r)
    decreases |cs|
  {
    if |cs| > 0 {
      AckLeaves(R.AckOne(q, cs[0].receipt), cs[1..], r);
      assert cs == [cs[0]] + cs[1..];
      ReceiptEither([cs[0]], cs[1..], r);
    }
  }

  lemma {:induction false} NackLeaves(q: R.Redis, cs: seq<Claim>, error: bool, max: int, r: string)
    requires L.Paired(q) && r in R.Nack(q, cs, error, max).claims
    ensures r in q.claims && !QueueLaws.HasReceipt(cs, r)
    decreases |cs|
  {
    if |cs| > 0 {
      L.NackOnePaired(q, cs[0].receipt, error, max);
      NackLeaves(R.NackOne(q, cs[0].receipt, error, max), cs[1..], error, max, r);
      assert cs == [cs[0]] + cs[1..];
      ReceiptEither([cs[0]], cs[1..], r);
    }
  }

  lemma {:induction false} AckSpares(q: R.Redis, cs: seq<Claim>, raw: string)
    requires forall i :: 0 <= i < |cs| && cs[i].receipt in q.claims ==> q.claims[cs[i].receipt] != raw
    ensures raw !in L.AckedPayloads(q, cs)
    decreases |cs|
  {
    if |cs| > 0 {
      var q1 := R.AckOne(q, cs[0].receipt);
      forall i | 0 <= i < |cs[1..]| && cs[1..][i].receipt in q1.claims ensures q1.claims[cs[1..][i].receipt] != raw {
        assert cs[1..][i] == cs[i + 1];
      }
      AckSpares(q1, cs[1..], raw);
    }
  }

  ghost predicate Covers(acc: Acc, claims: seq<Claim>) {
    multiset(acc.acks) + multiset(acc.nacks) + multiset(acc.errs) == multiset(claims)
  }

  lemma SettledPaired(q: R.Redis, acc: Acc, max: int)
    requires L.Paired(q)
    ensures L.Paired(R.Ack(q, acc.acks)) && L.Paired(R.Nack(R.Ack(q, acc.acks), acc.nacks, false, max))
    ensures L.Paired(Settled(q, acc, max))
  {
    L.AckPaired(q, acc.acks);
    L.NackPaired(R.Ack(q, acc.acks), acc.nacks, false, max);
    L.NackPaired(R.Nack(R.Ack(q, acc.acks), acc.nacks, false, max), acc.errs, true, max);
  }

  /** If only the claims of this poll are filed, settling them leaves no claim. */
  lemma SettledLeavesNone(q: R.Redis, acc: Acc, claims: seq<Claim>, max: int)
    requires L.Paired(q) && Covers(acc, claims)
    requires forall r :: r in q.claims ==> QueueLaws.HasReceipt(claims, r)
    ensures Settled(q, acc, max).claims == map[]
  {
    hide R.Ack, R.Nack, L.Paired, QueueLaws.HasReceipt;
    SettledPaired(q, acc, max);
    var q1 := R.Ack(q, acc.acks);
    var q2 := R.Nack(q1, acc.nacks, false, max);
    forall r: string ensures r !in Settled(q, acc, max).claims {
      if r in Settled(q, acc, max).claims {
        NackLeaves(q2, acc.errs, true, max, r);
        NackLeaves(q1, acc.nacks, false, max, r);
        AckLeaves(q, acc.acks, r);
        Partition(acc.acks, acc.nacks, acc.errs, claims, r);
      }
    }
  }

  lemma SettledHolds(q: R.Redis, acc: Acc, max: int, raw: string)
    requires L.Paired(q) && raw in L.Holdings(q)
    requires forall i :: 0 <= i < |acc.acks| && acc.acks[i].receipt in q.claims ==> q.claims[acc.acks[i].receipt] != raw
    ensures raw in L.Holdings(Settled(q, acc, max))
  {
    hide L.Holdings, L.Paired, R.Ack, R.Nack;
    AckSpares(q, acc.acks, raw);
    L.AckConserves(q, acc.acks);
    var q1 := R.Ack(q, acc.acks);
    assert L.Holdings(q)[raw] == L.Holdings(q1)[raw] + L.AckedPayloads(q, acc.acks)[raw];
    L.NackConserves(q1, acc.nacks, false, max);
    L.NackConserves(R.Nack(q1, acc.nacks, false, max), acc.errs, true, max);
  }

  // ---------- the invariant ----------

  ghost predicate NothingLostIn(core: State, redis: R.Redis) {
    forall ref :: Ready(core.tasks, ref) ==> EncodeRef(ref) in L.Holdings(redis)
  }

  ghost predicate AllBarFree(tasks: map<TaskRef, Task>) { forall r :: r in tasks ==> BarFree(r) }

  ghost predicate Sound(y: System) {
    && y.core.queue == Q.EMPTY
    && L.Paired(y.redis)
    && y.redis.claims == map[]
    && AllBarFree(y.core.tasks)
    && NothingLostIn(y.core, y.redis)
  }

  ghost function ReadySet(tasks: map<TaskRef, Task>): set<TaskRef> { set r | r in tasks && Ready(tasks, r) }

  /** A phase that only adds waiting refs to the core's queue, all tracked but the known ones. */
  ghost predicate Refilled(known: set<TaskRef>, core: State) {
    core.queue.inflight == map[] && core.queue.dead == [] && Covered(known, core)
  }

  lemma PushedHolds(redis: R.Redis, refs: seq<TaskRef>, ref: TaskRef)
    requires ref in refs
    ensures EncodeRef(ref) in L.Holdings(R.Enqueue(redis, refs))
  {
    L.EnqueueConserves(redis, refs);
    var i :| 0 <= i < |refs| && refs[i] == ref;
    assert Keys(refs)[i] == EncodeRef(ref);
    assert EncodeRef(ref) in multiset(Keys(refs));
  }

  /** Pushing what a phase enqueued to Redis completes the phase. */
  lemma FlushLosesNothing(known: set<TaskRef>, core: State, redis: R.Redis)
    requires Refilled(known, core) && forall r :: r in known ==> EncodeRef(r) in L.Holdings(redis)
    ensures NothingLostIn(Flush(core, redis).core, Flush(core, redis).redis)
  {
    hide L.Holdings, R.Enqueue;
    L.EnqueueConserves(redis, core.queue.items);
    forall ref | Ready(core.tasks, ref) ensures EncodeRef(ref) in L.Holdings(R.Enqueue(redis, core.queue.items)) {
      if ref !in known {
        PushedHolds(redis, core.queue.items, ref);
      }
    }
  }

  lemma StartCovered(core: State)
    ensures Covered(ReadySet(core.tasks), core)
  {
  }

  // ---------- a poll ----------

  lemma SweptSound(y: System, now: int, listing: seq<TaskRef>, due: seq<string>)
    requires Sound(y) && Lists(listing, y.core.tasks.Keys)
    ensures Sound(SweptSystem(y, now, listing, due))
  {
    hide L.Holdings, R.Release, R.Enqueue, EncodeRef;
    var s := y.core.(clock := now);
    var core, redis := ExpireLeases(s, listing, now), R.Release(y.redis, due);
    L.ReleaseConserves(y.redis, due);
    L.ReleasePaired(y.redis, due);
    L.ReleaseFilesNothing(y.redis, due);
    StartCovered(s);
    ExpireNoLoss(ReadySet(s.tasks), s, listing, now);
    FlushLosesNothing(ReadySet(s.tasks), core, redis);
    EnqueueLeavesClaims(redis, core.queue.items);
  }

  lemma EnqueueLeavesClaims(q: R.Redis, refs: seq<TaskRef>)
    ensures R.Enqueue(q, refs).claims == q.claims && R.Enqueue(q, refs).visibility == q.visibility
  {
  }

  /** After trying the claims: acks are claims, of tasks no longer queued, and each claim is settled once. */
  lemma TriedOk(cfg: Config, core: State, claims: seq<Claim>, worker: string, max: int, now: int, choices: seq<Choice>)
    ensures var acc := Tried(cfg, core, claims, worker, max, now, choices);
      && Frame(core, acc.s) && Covers(acc, claims)
      && (forall i :: 0 <= i < |acc.acks| ==>
            acc.acks[i].ref in acc.s.tasks && acc.s.tasks[acc.acks[i].ref].status != Queued)
      && (forall i :: 0 <= i < |acc.given| ==> exists c :: c in claims && c.ref == acc.given[i].ref)
  {
    var sorted := SortClaims(cfg, core, claims);
    var acc := Tried(cfg, core, claims, worker, max, now, choices);
    SortedByRank(cfg, core, claims);
    AssignAllOk(cfg, core, worker, PollMax(max), sorted, |sorted|, now, choices);
    AssignAllSplit(cfg, core, worker, PollMax(max), sorted, |sorted|, now, choices);
    assert sorted[..|sorted|] == sorted;
    forall i | 0 <= i < |acc.given|
      ensures acc.acks[i].ref in acc.s.tasks && acc.s.tasks[acc.acks[i].ref].status != Queued
      ensures exists c :: c in claims && c.ref == acc.given[i].ref
    {
      assert Kept(core, acc, worker, sorted, |sorted|, i);
      assert acc.acks[i] in multiset(acc.acks);
      assert acc.acks[i] in multiset(claims);
    }
  }

  lemma TriedRefilled(cfg: Config, core: State, claims: seq<Claim>, worker: string, max: int, now: int, choices: seq<Choice>)
    requires core.queue == Q.EMPTY
    ensures Refilled(ReadySet(core.tasks), Tried(cfg, core, claims, worker, max, now, choices).s)
  {
    var sorted := SortClaims(cfg, core, claims);
    StartCovered(core);
    AssignAllNoLoss(ReadySet(core.tasks), cfg, core, worker, PollMax(max), sorted, |sorted|, now, choices);
    TriedOk(cfg, core, claims, worker, max, now, choices);
  }

  /** An ack of a task that is not queued never drops the text of a ready one. */
  lemma AcksSpareReady(redis: R.Redis, acc: Acc, claims: seq<Claim>, ref: TaskRef)
    requires Covers(acc, claims) && forall c :: c in claims ==> Filed(redis, c)
    requires forall i :: 0 <= i < |acc.acks| ==>
      acc.acks[i].ref in acc.s.tasks && acc.s.tasks[acc.acks[i].ref].status != Queued
    requires Ready(acc.s.tasks, ref) && BarFree(ref)
    ensures forall i :: 0 <= i < |acc.acks| && acc.acks[i].receipt in redis.claims ==>
      redis.claims[acc.acks[i].receipt] != EncodeRef(ref)
  {
    hide EncodeRef;
    forall i | 0 <= i < |acc.acks| && acc.acks[i].receipt in redis.claims
      ensures redis.claims[acc.acks[i].receipt] != EncodeRef(ref)
    {
      var c := acc.acks[i];
      assert c in multiset(acc.acks);
      assert c in multiset(claims);
      assert Filed(redis, c);
      if EncodeRef(c.ref) == EncodeRef(ref) {
        TextNamesOne(c.ref, ref);
      }
    }
  }

  lemma ClaimedSystem(swept: System, call: R.ClaimCall)
    requires Sound(swept)
    ensures var (redis, claims) := R.ClaimFrom(swept.redis, call, 0);
      && L.Paired(redis) && NothingLostIn(swept.core, redis)
      && (forall c :: c in claims ==> Filed(redis, c))
      && (forall r :: r in redis.claims ==> QueueLaws.HasReceipt(claims, r))
  {
    hide L.Holdings, L.Paired, R.ClaimFrom, Filed, QueueLaws.HasReceipt;
    var (redis, claims) := R.ClaimFrom(swept.redis, call, 0);
    L.ClaimPaired(swept.redis, call, 0);
    ClaimKeepsAll(swept.redis, call);
    forall c | c in claims ensures Filed(redis, c) {
      var k :| 0 <= k < |claims| && claims[k] == c;
      ClaimsFiled(swept.redis, call, 0, k);
    }
    forall r | r in redis.claims ensures QueueLaws.HasReceipt(claims, r) {
      OnlyClaimsFiled(swept.redis, call, 0, r);
    }
  }

  lemma ServedSound(cfg: Config, deadLetterMax: int, swept: System, worker: string, max: int, now: int, choices: seq<Choice>,
                      stamp: nat -> int)
    requires Sound(swept)
    ensures Sound(Served(cfg, deadLetterMax, swept, worker, max, now, choices, stamp))
  {
    hide L.Holdings, L.Paired, R.ClaimFrom, R.Enqueue, Settled, Tried, QueueLaws.HasReceipt, EncodeRef, PollCall, Ready, BarFree;
    var call := PollCall(cfg, worker, max, now, stamp);
    var (redis, claims) := R.ClaimFrom(swept.redis, call, 0);
    ClaimedSystem(swept, call);
    var acc := Tried(cfg, swept.core, claims, worker, max, now, choices);
    TriedOk(cfg, swept.core, claims, worker, max, now, choices);
    TriedRefilled(cfg, swept.core, claims, worker, max, now, choices);
    FlushLosesNothing(ReadySet(swept.core.tasks), acc.s, redis);
    var pushed := R.Enqueue(redis, acc.s.queue.items);
    EnqueueLeavesClaims(redis, acc.s.queue.items);
    PairedSame(redis, pushed);
    SettledPaired(pushed, acc, deadLetterMax);
    SettledLeavesNone(pushed, acc, claims, deadLetterMax);
    forall ref | Ready(acc.s.tasks, ref) ensures EncodeRef(ref) in L.Holdings(Settled(pushed, acc, deadLetterMax)) {
      ReadyKnown(acc.s.tasks, ref);
      AcksSpareReady(pushed, acc, claims, ref);
      SettledHolds(pushed, acc, deadLetterMax, EncodeRef(ref));
    }
  }

  lemma ReadyKnown(tasks: map<TaskRef, Task>, ref: TaskRef)
    requires Ready(tasks, ref)
    ensures ref in tasks
  {
  }

  lemma PairedSame(a: R.Redis, b: R.Redis)
    requires L.Paired(a) && a.claims == b.claims && a.visibility == b.visibility
    ensures L.Paired(b)
  {
  }

  // ---------- the other calls ----------

  predicate NamesNoBar(a: Action) { a.Submit? ==> '|' !in a.sub.jobId }

  lemma CoreEnqueues(cfg: Config, core: State, a: Action, now: int)
    requires !a.Poll? && !a.Revive?
    ensures var core' := Step(cfg, core, a, now);
      core'.queue.inflight == core.queue.inflight && core'.queue.dead == core.queue.dead
  {
    hide SourceRefs, SubmitAllowed, PutTasks, WithoutJob, Judge, ReportedTask, ReadyRefs, Extended, CanceledTask;
  }

  lemma CoreRefilled(cfg: Config, core: State, a: Action, now: int)
    requires core.queue == Q.EMPTY && Legal(core, a, now) && !a.Poll? && !a.Revive?
    ensures Refilled(ReadySet(core.tasks), Step(cfg, core, a, now))
  {
    hide AddJob, Report, Heartbeat, CancelJob, ReadySet, Covered;
    var known := ReadySet(core.tasks);
    CoreEnqueues(cfg, core, a, now);
    StartCovered(core);
    match a
    case Submit(sub) => AddJobNoLoss(known, cfg, core, sub, now);
    case Tell(req, listing) => ReportNoLoss(known, core, req, listing, now);
    case Pulse(w, b) => HeartbeatNoLoss(known, cfg, core, w, b, now);
    case Cancel(j) => CancelNoLoss(known, core, j, now);
    case Archive(j) => QuietNoLoss(known, core, ArchiveJob(core, j, now));
    case Register(id, w) => QuietNoLoss(known, core, RegisterWorker(core, id, w, now));
    case _ =>
  }

  lemma CoreBarFree(cfg: Config, core: State, a: Action, now: int)
    requires AllBarFree(core.tasks) && NamesNoBar(a) && !a.Poll?
    ensures AllBarFree(Step(cfg, core, a, now).tasks)
  {
    if a.Submit? && SubmitAllowed(cfg, core, a.sub) {
      forall r | r in Step(cfg, core, a, now).tasks ensures BarFree(r) {
        SubmittedTask(cfg, core, a.sub, now, r);
      }
    }
  }

  lemma FlushedSound(cfg: Config, y: System, a: Action, now: int)
    requires Sound(y) && NamesNoBar(a) && Legal(y.core, a, now) && !a.Poll? && !a.Revive?
    ensures Sound(Flush(Step(cfg, y.core, a, now), y.redis))
  {
    hide L.Holdings, R.Enqueue, Step, Legal, EncodeRef, NamesNoBar, BarFree;
    var core := Step(cfg, y.core, a, now);
    CoreRefilled(cfg, y.core, a, now);
    CoreBarFree(cfg, y.core, a, now);
    FlushLosesNothing(ReadySet(y.core.tasks), core, y.redis);
    EnqueueLeavesClaims(y.redis, core.queue.items);
  }

  lemma RevivedSound(y: System, refs: seq<TaskRef>, now: int)
    requires Sound(y)
    ensures Sound(System(y.core.(clock := now), R.Revive(y.redis, refs).0))
  {
    hide L.Holdings, R.Revive, EncodeRef, BarFree;
    L.ReviveConserves(y.redis, refs);
    L.RevivePaired(y.redis, refs);
    L.ReviveFilesNothing(y.redis, refs);
  }

  ghost predicate LegalCall(y: System, c: Call) {
    && Legal(y.core, c.action, c.now)
    && (c.action.Poll? ==> R.DueRange(y.redis.visibility, c.now, PollMax(c.action.max) * 8, c.feed.due))
  }

  lemma PerformSound(cfg: Config, deadLetterMax: int, y: System, c: Call)
    requires Sound(y) && LegalCall(y, c) && NamesNoBar(c.action)
    ensures Sound(Perform(cfg, deadLetterMax, y, c))
  {
    hide Step, SweptSystem, Served, R.Revive, L.Holdings, L.Paired, R.DueRange, BarFree;
    match c.action
    case Poll(w, max, o) =>
      if w in y.core.workers {
        SweptSound(y, c.now, o.tasks, c.feed.due);
        ServedSound(cfg, deadLetterMax, SweptSystem(y, c.now, o.tasks, c.feed.due), w, max, c.now, o.choices, c.feed.stamp);
      }
    case Revive(refs) => RevivedSound(y, refs, c.now);
    case _ => FlushedSound(cfg, y, c.action, c.now);
  }

  // ---------- runs ----------

  ghost predicate Follows(cfg: Config, deadLetterMax: int, systems: seq<System>, calls: seq<Call>, i: nat)
    requires i < |calls| && |systems| == |calls| + 1
  {
    LegalCall(systems[i], calls[i]) && systems[i + 1] == Perform(cfg, deadLetterMax, systems[i], calls[i])
  }

  /** A run of an engine on an empty Redis, one engine call after another, with no bar in a submitted job id. */
  ghost predicate Run(cfg: Config, deadLetterMax: int, systems: seq<System>, calls: seq<Call>) {
    && |systems| == |calls| + 1
    && systems[0] == EMPTY_SYSTEM
    && (forall i :: 0 <= i < |calls| ==> NamesNoBar(calls[i].action) && Follows(cfg, deadLetterMax, systems, calls, i))
  }

  lemma EmptySound()
    ensures Sound(EMPTY_SYSTEM)
  {
  }

  lemma {:induction false} RunSound(cfg: Config, deadLetterMax: int, systems: seq<System>, calls: seq<Call>, n: nat)
    requires Run(cfg, deadLetterMax, systems, calls) && n <= |calls|
    ensures Sound(systems[n])
  {
    hide Sound, Perform, LegalCall, NamesNoBar;
    if n == 0 {
      EmptySound();
    } else {
      RunSound(cfg, deadLetterMax, systems, calls, n - 1);
      assert Follows(cfg, deadLetterMax, systems, calls, n - 1);
      PerformSound(cfg, deadLetterMax, systems[n - 1], calls[n - 1]);
    }
  }

  /** On Redis too no claim is outstanding between engine calls, and no runnable task is ever lost: the text of its ref is
      in the pending list or the dead list.  Neither depends on how the clock behind the receipts runs. */
  lemma NoRunnableTaskLost(cfg: Config, deadLetterMax: int, systems: seq<System>, calls: seq<Call>, n: nat, ref: TaskRef)
    requires Run(cfg, deadLetterMax, systems, calls) && n <= |calls|
    ensures systems[n].redis.claims == map[] && systems[n].redis.visibility == map[]
    ensures Ready(systems[n].core.tasks, ref) ==>
      EncodeRef(ref) in systems[n].redis.pending || EncodeRef(ref) in systems[n].redis.dead
  {
    assert |systems| == |calls| + 1;
    hide Run, Ready, EncodeRef;
    RunSound(cfg, deadLetterMax, systems, calls, n);
    var q := systems[n].redis;
    assert q.visibility.Keys == {};
    assert L.Payloads(map[]) == multiset{};
  }

  /** What a poll hands out, from the swept system. */
  function HandedOutBy(cfg: Config, swept: System, worker: string, max: int, now: int, choices: seq<Choice>,
                       stamp: nat -> int): seq<Assignment>
  {
    var claims := R.ClaimFrom(swept.redis, PollCall(cfg, worker, max, now, stamp), 0).1;
    Tried(cfg, swept.core, claims, worker, max, now, choices).given
  }

  /** Why bars are kept out: a poll over Redis hands out only tasks whose ids are not empty and whose job id has no bar. */
  lemma OnlyWellFormedHandedOut(cfg: Config, swept: System, worker: string, max: int, now: int, choices: seq<Choice>,
                                stamp: nat -> int, i: nat)
    requires i < |HandedOutBy(cfg, swept, worker, max, now, choices, stamp)|
    ensures R.WellFormed(HandedOutBy(cfg, swept, worker, max, now, choices, stamp)[i].ref)
  {
    hide Tried, R.ClaimFrom, R.WellFormed, PollCall;
    var call := PollCall(cfg, worker, max, now, stamp);
    var (redis, claims) := R.ClaimFrom(swept.redis, call, 0);
    TriedOk(cfg, swept.core, claims, worker, max, now, choices);
    var acc := Tried(cfg, swept.core, claims, worker, max, now, choices);
    var c :| c in claims && c.ref == acc.given[i].ref;
    var k :| 0 <= k < |claims| && claims[k] == c;
    ClaimsFiled(swept.redis, call, 0, k);
  }
}
