/** The in-memory queue's methods (internal/state/memory_queue.go): loops over its fields, each proved to do what
    QueueModel says.  Where the code ranges over the in-flight map, the order taken is returned as a ghost listing. */
module MemoryQueue {
  import opened Records
  import opened Counters
  import opened Listings
  import Q = QueueModel

  lemma {:induction false} ReleaseJoin(q: Q.QueueState, a: seq<string>, b: seq<string>)
    ensures Q.Release(q, a + b) == Q.Release(Q.Release(q, a), b)
    decreases |a|
  {
    if |a| == 0 {
      assert a + b == b;
    } else {
      ReleaseJoin(Q.ReleaseOne(q, a[0]), a[1..], b);
      assert (a + b)[1..] == a[1..] + b;
    }
  }

  predicate IsDue(q: Q.QueueState, now: int, r: string) { r in q.inflight && q.inflight[r].visibleAt <= now }

  /** Releasing some receipts leaves every other claim in flight. */
  lemma {:induction false} ReleaseKeeps(q: Q.QueueState, rs: seq<string>, r: string)
    requires r in q.inflight && r !in rs
    ensures r in Q.Release(q, rs).inflight && Q.Release(q, rs).inflight[r] == q.inflight[r]
    decreases |rs|
  {
    if |rs| > 0 {
      assert rs[0] in rs;
      ReleaseKeeps(Q.ReleaseOne(q, rs[0]), rs[1..], r);
    }
  }

  lemma DueFound(q: Q.QueueState, seen: seq<string>, left: seq<string>, now: int, max: int)
    requires left == [] || (max > 0 && |Filter(seen, r => IsDue(q, now, r))| == max)
    requires max > 0 ==> |Filter(seen, r => IsDue(q, now, r))| <= max
    ensures Q.Due(q, seen + left, now, max) == Filter(seen, r => IsDue(q, now, r))
  {
    var due := r => IsDue(q, now, r);
    FilterJoin(seen, left, due);
    FilterAgree(seen + left, due, r => r in q.inflight && q.inflight[r].visibleAt <= now);
  }

  class MemoryQueue {
    var items: seq<TaskRef>
    var inflight: map<string, Records.Claim>
    var nack: map<string, nat>
    var dead: seq<TaskRef>
    var counter: nat

    function State(): Q.QueueState
      reads this
    {
      Q.QueueState(items, inflight, nack, dead, counter)
    }

    constructor ()
      ensures State() == Q.EMPTY
    {
      items, inflight, nack, dead, counter := [], map[], map[], [], 0;
    }

    method EnqueueMany(refs: seq<TaskRef>)
      modifies this
      ensures State() == Q.Enqueue(old(State()), refs)
    {
      items := items + refs;
    }

    method ClaimFront(consumer: string, now: int, visibility: int) returns (claim: Records.Claim)
      requires |items| > 0
      modifies this
      ensures State() == Q.TakeFront(old(State()), consumer, now, visibility)
      ensures claim == Q.FrontClaim(old(State()), consumer, now, visibility)
      ensures |items| == |old(items)| - 1
    {
      var ref := items[0];
      items := items[1..];
      counter := counter + 1;
      var receipt := Q.Receipt(consumer, counter);
      claim := Records.Claim(ref, receipt, consumer, now, Q.VisibleAt(now, visibility));
      inflight := inflight[receipt := claim];
    }

    method Claim(max: int, consumer: string, now: int, visibility: int) returns (out: seq<Records.Claim>)
      modifies this
      ensures var r := Q.Claims(old(State()), Q.ClaimCount(old(State()), max), consumer, now, visibility);
              State() == r.0 && out == r.1
    {
      hide Q.TakeFront, Q.FrontClaim;
      var n := if max <= 0 then 1 else max;
      if n > |items| {
        n := |items|;
      }
      out := [];
      for i := 0 to n
        invariant n - i <= |items|
        invariant Q.Claims(old(State()), n, consumer, now, visibility).0
               == Q.Claims(State(), n - i, consumer, now, visibility).0
        invariant Q.Claims(old(State()), n, consumer, now, visibility).1
               == out + Q.Claims(State(), n - i, consumer, now, visibility).1
      {
        var claim := ClaimFront(consumer, now, visibility);
        out := out + [claim];
      }
    }

    method Ack(claims: seq<Records.Claim>)
      modifies this
      ensures State() == Q.Ack(old(State()), claims)
    {
      for i := 0 to |claims|
        invariant Q.Ack(State(), claims[i..]) == Q.Ack(old(State()), claims)
      {
        assert claims[i..][1..] == claims[i + 1..];
        inflight := inflight - {claims[i].receipt};
        nack := nack - {EncodeRef(claims[i].ref)};
      }
    }

    method NackOne(receipt: string, error: bool)
      modifies this
      ensures State() == Q.NackOne(old(State()), receipt, error)
    {
      if receipt in inflight {
        var ref := inflight[receipt].ref;
        var key := EncodeRef(ref);
        if error {
          ghost var was := nack;
          nack := nack[key := (if key in nack then nack[key] else 0) + 1];
          if nack[key] >= Q.MAX_NACKS {
            dead := dead + [ref];
            nack := nack - {key};
            assert nack == was - {key};
            inflight := inflight - {receipt};
            return;
          }
        }
        items := items + [ref];
        inflight := inflight - {receipt};
      }
    }

    method Nack(claims: seq<Records.Claim>, error: bool)
      modifies this
      ensures State() == Q.Nack(old(State()), claims, error)
    {
      hide Q.NackOne;
      for i := 0 to |claims|
        invariant Q.Nack(State(), claims[i..], error) == Q.Nack(old(State()), claims, error)
      {
        assert claims[i..][1..] == claims[i + 1..];
        NackOne(claims[i].receipt, error);
      }
    }

    /** Moves one claim from in flight back to the list. */
    method ReleaseOne(receipt: string)
      requires receipt in inflight
      modifies this
      ensures State() == Q.ReleaseOne(old(State()), receipt)
    {
      items := items + [inflight[receipt].ref];
      inflight := inflight - {receipt};
    }

    method RequeueExpired(now: int, max: int) returns (moved: nat, ghost listing: seq<string>)
      modifies this
      ensures Lists(listing, old(inflight).Keys)
      ensures State() == Q.RequeueExpired(old(State()), listing, now, max)
      ensures moved == |Q.Due(old(State()), listing, now, max)|
    {
      hide Q.Release, Q.Due, IsDue, Lists;
      ghost var q := State();
      ghost var due := r => IsDue(q, now, r);
      ghost var seen: seq<string> := [];
      var left := inflight.Keys;
      moved := 0;
      ReleaseNone(q);
      ListsNothing<string>();
      assert q.inflight.Keys - left == {};
      while left != {} && !(max > 0 && moved >= max)
        invariant left <= q.inflight.Keys && Lists(seen, q.inflight.Keys - left)
        invariant forall r :: r in left ==> r !in seen
        invariant State() == Q.Release(q, Filter(seen, due))
        invariant moved == |Filter(seen, due)| && (max > 0 ==> moved <= max)
        decreases left
      {
        var receipt :| receipt in left;
        ListsMore(seen, q.inflight.Keys, left, receipt);
        ReleaseKeeps(q, Filter(seen, due), receipt);
        FilterJoin(seen, [receipt], due);
        FilterOne(receipt, due);
        assert Filter(seen, due) + [] == Filter(seen, due);
        DueHere(q, State(), now, receipt);
        if inflight[receipt].visibleAt <= now {
          ReleaseJoin(q, Filter(seen, due), [receipt]);
          ReleaseSingle(State(), receipt);
          ReleaseOne(receipt);
          moved := moved + 1;
        }
        seen := seen + [receipt];
        left := left - {receipt};
      }
      listing := seen + ListOf(left);
      ListsJoin(seen, ListOf(left), q.inflight.Keys, left);
      DueFound(q, seen, ListOf(left), now, max);
    }

    method ListDeadLetters(limit: int) returns (out: seq<TaskRef>)
      ensures out == Q.ListDeadLetters(State(), limit)
    {
      var n := if limit <= 0 || limit > |dead| then |dead| else limit;
      return dead[..n];
    }

    method RequeueDeadLetters(refs: seq<TaskRef>) returns (requeued: nat)
      modifies this
      ensures State() == Q.RequeueDead(old(State()), refs)
      ensures requeued == |Q.TakeRequested(old(dead), multiset(Keys(refs))).0|
    {
      requeued := 0;
      if |refs| == 0 {
        TakeNothing(dead);
        assert items + [] == items;
        return;
      }
      hide Keys, Counted, Stocks, EncodeRef, Q.TakeRequested;
      var target := CountKeys(refs);
      ghost var want := multiset(Keys(refs));
      var letters := dead;
      var kept := [];
      for i := 0 to |letters|
        invariant dead == letters == old(dead) && nack == old(nack) && inflight == old(inflight) && counter == old(counter)
        invariant Stocks(target, want)
        invariant old(items) + Q.TakeRequested(letters, multiset(Keys(refs))).0
               == items + Q.TakeRequested(letters[i..], want).0
        invariant Q.TakeRequested(letters, multiset(Keys(refs))).1 == kept + Q.TakeRequested(letters[i..], want).1
        invariant |items| == |old(items)| + requeued
      {
        var key := EncodeRef(letters[i]);
        TakeStep(items, kept, letters, i, want);
        StockAt(target, want, key);
        StockDown(target, want, key);
        if Counted(target, key) > 0 {
          items := items + [letters[i]];
          target := target[key := Counted(target, key) - 1];
          want := want - multiset{key};
          requeued := requeued + 1;
        } else {
          kept := kept + [letters[i]];
        }
      }
      TakeNothing(letters[|letters|..]);
      dead := kept;
    }
  }

  /** One dead letter goes behind what was moved if it is still wanted, behind what was kept if not. */
  lemma TakeStep(moved: seq<TaskRef>, kept: seq<TaskRef>, letters: seq<TaskRef>, i: nat, want: multiset<string>)
    requires i < |letters|
    ensures var r, key := letters[i], EncodeRef(letters[i]);
      if want[key] > 0 then
        && moved + Q.TakeRequested(letters[i..], want).0
           == (moved + [r]) + Q.TakeRequested(letters[i + 1..], want - multiset{key}).0
        && Q.TakeRequested(letters[i..], want).1 == Q.TakeRequested(letters[i + 1..], want - multiset{key}).1
      else
        && Q.TakeRequested(letters[i..], want).0 == Q.TakeRequested(letters[i + 1..], want).0
        && kept + Q.TakeRequested(letters[i..], want).1 == (kept + [r]) + Q.TakeRequested(letters[i + 1..], want).1
  {
    hide EncodeRef, Q.TakeRequested;
    var rest := letters[i..];
    assert rest[1..] == letters[i + 1..] && rest[0] == letters[i];
    TakeFirst(rest, want);
  }

  lemma TakeFirst(letters: seq<TaskRef>, want: multiset<string>)
    requires |letters| > 0
    ensures var key := EncodeRef(letters[0]);
      Q.TakeRequested(letters, want) ==
        if want[key] > 0 then
          var (moved, kept) := Q.TakeRequested(letters[1..], want - multiset{key});
          ([letters[0]] + moved, kept)
        else
          var (moved, kept) := Q.TakeRequested(letters[1..], want);
          (moved, [letters[0]] + kept)
  {
  }

  lemma ReleaseNone(q: Q.QueueState)
    ensures Q.Release(q, []) == q
  {
  }

  lemma ReleaseSingle(q: Q.QueueState, r: string)
    ensures Q.Release(q, [r]) == Q.ReleaseOne(q, r)
  {
    assert [r][1..] == [];
  }

  lemma {:induction false} TakeNothing(dead: seq<TaskRef>)
    ensures Q.TakeRequested(dead, multiset(Keys([]))) == ([], dead)
  {
    assert Keys([]) == [];
    if |dead| > 0 {
      TakeNothing(dead[1..]);
      assert [dead[0]] + dead[1..] == dead;
    }
  }

  lemma DueHere(q: Q.QueueState, later: Q.QueueState, now: int, r: string)
    requires r in q.inflight && r in later.inflight && later.inflight[r] == q.inflight[r]
    ensures IsDue(q, now, r) == (later.inflight[r].visibleAt <= now)
  {
  }
}
