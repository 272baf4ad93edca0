/** The Redis queue's methods (internal/state/redis_queue.go): loops of commands that change the remote structures in
    place, each proved to do what RedisModel says. */
module RedisQueue {
  import opened Text
  import opened Records
  import opened RedisModel

  lemma PushSplit(list: seq<string>, keys: seq<string>, i: nat)
    requires i < |keys|
    ensures PushAll(list, keys[i..]) == PushAll([keys[i]] + list, keys[i + 1..])
  {
    assert keys[i..][1..] == keys[i + 1..];
  }

  class RedisQueue {
    const deadLetterMax: int
    var pending: seq<string>
    var claims: map<string, string>
    var visibility: map<string, int>
    var nacks: map<string, int>
    var dead: seq<string>

    function State(): Redis
      reads this
    {
      Redis(pending, claims, visibility, nacks, dead)
    }

    constructor (max: int)
      ensures State() == EMPTY && deadLetterMax == if max <= 0 then 5 else max
    {
      deadLetterMax := if max <= 0 then 5 else max;
      pending, claims, visibility, nacks, dead := [], map[], map[], map[], [];
    }

    method LPush(raw: string)
      modifies this`pending
      ensures pending == [raw] + old(pending)
    {
      pending := [raw] + pending;
    }

    method EnqueueMany(refs: seq<TaskRef>)
      modifies this
      ensures State() == Enqueue(old(State()), refs)
    {
      var args := Keys(refs);
      for i := 0 to |args|
        invariant State() == old(State()).(pending := pending)
        invariant PushAll(pending, args[i..]) == PushAll(old(pending), args)
      {
        PushSplit(pending, args, i);
        LPush(args[i]);
      }
    }

    /** One turn of the claim loop: RPOP, then LPUSH to the dead list, or HSET and ZADD. */
    method ClaimOne(call: ClaimCall, i: nat) returns (got: seq<Claim>)
      requires |pending| > 0
      modifies this
      ensures State() == TakeLast(old(State()), call, i) && got == LastClaim(old(State()), call, i)
    {
      hide Decode;
      var raw := pending[|pending| - 1];
      pending := pending[..|pending| - 1];
      var ref := Decode(raw);
      if ref.None? {
        dead := [raw] + dead;
        return [];
      }
      var receipt := ReceiptAt(call, i);
      claims := claims[receipt := raw];
      visibility := visibility[receipt := Millis(VisibleAt(call))];
      return [Records.Claim(ref.value, receipt, call.consumer, call.now, VisibleAt(call))];
    }

    method Claim(call: ClaimCall) returns (out: seq<Claim>)
      modifies this
      ensures State() == ClaimFrom(old(State()), call, 0).0 && out == ClaimFrom(old(State()), call, 0).1
    {
      hide TakeLast, LastClaim, Limit;
      out := [];
      var i: nat := 0;
      while i < Limit(call) && |pending| > 0
        invariant ClaimFrom(old(State()), call, 0).0 == ClaimFrom(State(), call, i).0
        invariant ClaimFrom(old(State()), call, 0).1 == out + ClaimFrom(State(), call, i).1
        decreases Limit(call) - i
      {
        var got := ClaimOne(call, i);
        out := out + got;
        i := i + 1;
      }
    }

    method HDelZRem(receipt: string)
      modifies this`claims, this`visibility
      ensures claims == old(claims) - {receipt} && visibility == old(visibility) - {receipt}
    {
      claims := claims - {receipt};
      visibility := visibility - {receipt};
    }

    method GetClaimPayload(receipt: string) returns (payload: string)
      ensures payload == Payload(State(), receipt)
    {
      return if receipt in claims then claims[receipt] else "";
    }

    method Ack(cs: seq<Claim>)
      modifies this
      ensures State() == RedisModel.Ack(old(State()), cs)
    {
      for i := 0 to |cs|
        invariant RedisModel.Ack(State(), cs[i..]) == RedisModel.Ack(old(State()), cs)
      {
        assert cs[i..][1..] == cs[i + 1..];
        ghost var before := State();
        var payload := GetClaimPayload(cs[i].receipt);
        HDelZRem(cs[i].receipt);
        if payload != "" {
          nacks := nacks - {payload};
        }
        assert State() == AckOne(before, cs[i].receipt);
      }
    }

    method IncrNack(payload: string) returns (count: int)
      modifies this`nacks
      ensures count == Strikes(old(State()), payload) && nacks == old(nacks)[payload := count]
    {
      count := (if payload in nacks then nacks[payload] else 0) + 1;
      nacks := nacks[payload := count];
    }

    method Nack(cs: seq<Claim>, error: bool)
      modifies this
      ensures State() == RedisModel.Nack(old(State()), cs, error, deadLetterMax)
    {
      for i := 0 to |cs|
        invariant RedisModel.Nack(State(), cs[i..], error, deadLetterMax)
               == RedisModel.Nack(old(State()), cs, error, deadLetterMax)
      {
        assert cs[i..][1..] == cs[i + 1..];
        ghost var before := State();
        var payload := GetClaimPayload(cs[i].receipt);
        if payload == "" {
          continue;
        }
        var toDead := false;
        if error {
          var count := IncrNack(payload);
          toDead := count >= deadLetterMax;
        }
        if toDead {
          dead := [payload] + dead;
          nacks := nacks - {payload};
          assert nacks == before.nacks - {payload};
        } else {
          LPush(payload);
        }
        HDelZRem(cs[i].receipt);
        assert State() == NackOne(before, cs[i].receipt, error, deadLetterMax);
      }
    }

    /** `due` is the answer of ZRANGEBYSCORE. */
    method RequeueExpired(now: int, max: int, due: seq<string>) returns (moved: nat)
      requires DueRange(visibility, now, max, due)
      modifies this
      ensures State() == Release(old(State()), due) && moved == |due|
    {
      for i := 0 to |due|
        invariant Release(State(), due[i..]) == Release(old(State()), due)
      {
        assert due[i..][1..] == due[i + 1..];
        ghost var before := State();
        var payload := GetClaimPayload(due[i]);
        if payload != "" {
          LPush(payload);
        }
        HDelZRem(due[i]);
        assert State() == ReleaseOne(before, due[i]);
      }
      return |due|;
    }

    method LRem(raw: string) returns (removed: nat)
      modifies this`dead
      ensures removed == (if raw in old(dead) then 1 else 0)
      ensures dead == if raw in old(dead) then RemoveFirst(old(dead), raw) else old(dead)
    {
      if raw !in dead {
        return 0;
      }
      dead := RemoveFirst(dead, raw);
      return 1;
    }

    method RequeueDeadLetters(refs: seq<TaskRef>) returns (requeued: nat)
      modifies this
      ensures (State(), requeued) == Revive(old(State()), refs)
    {
      requeued := 0;
      for i := 0 to |refs|
        invariant Revive(old(State()), refs) == (Revive(State(), refs[i..]).0, requeued + Revive(State(), refs[i..]).1)
      {
        assert refs[i..][1..] == refs[i + 1..];
        ghost var before := State();
        var raw := EncodeRef(refs[i]);
        var removed := LRem(raw);
        if removed != 0 {
          LPush(raw);
          nacks := nacks - {raw};
          requeued := requeued + 1;
        }
        assert State() == ReviveOne(before, raw);
      }
    }
  }
}
