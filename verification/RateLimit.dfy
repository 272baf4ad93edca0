/** The submit limiter (internal/api/rate_limit.go): per-tenant and global sliding windows kept as pruned lists.

    Times are whole seconds, as the limiter stores them.  The reference is the limiter that prunes nothing and
    counts the log of every request it ever accepted; `log` and `clock` are ghost and hold that history. */
module RateLimit {
  import opened SlidingWindow

  const WINDOW := 60

  datatype Request = Request(tenant: string, at: int)

  function TenantKey(tenant: string): string { if tenant == "" then "default" else tenant }

  // ---------- the reference limiter ----------

  function Times(log: seq<Request>): (times: seq<int>)
    ensures |times| == |log|
  {
    if |log| == 0 then [] else Times(log[..|log| - 1]) + [log[|log| - 1].at]
  }

  function TimesOf(log: seq<Request>, tenant: string): seq<int> {
    if |log| == 0 then []
    else
      var last := log[|log| - 1];
      TimesOf(log[..|log| - 1], tenant) + if last.tenant == tenant then [last.at] else []
  }

  predicate Allows(perTenantMax: nat, globalMax: nat, log: seq<Request>, tenant: string, now: int) {
    Within(WINDOW, globalMax, Times(log), now) && Within(WINDOW, perTenantMax, TimesOf(log, TenantKey(tenant)), now)
  }

  function Logged(perTenantMax: nat, globalMax: nat, log: seq<Request>, tenant: string, now: int): seq<Request> {
    if Allows(perTenantMax, globalMax, log, tenant, now) then log + [Request(TenantKey(tenant), now)] else log
  }

  lemma LogPush(log: seq<Request>, r: Request, tenant: string)
    ensures Times(log + [r]) == Times(log) + [r.at]
    ensures TimesOf(log + [r], tenant) == TimesOf(log, tenant) + if r.tenant == tenant then [r.at] else []
  {
    assert (log + [r])[..|log|] == log;
  }

  /** The log is one that the reference limiter wrote: it allowed each entry on the ones before. */
  predicate Admitted(perTenantMax: nat, globalMax: nat, log: seq<Request>) {
    |log| > 0 ==>
      var front, last := log[..|log| - 1], log[|log| - 1];
      && Admitted(perTenantMax, globalMax, front)
      && last.tenant == TenantKey(last.tenant)
      && Allows(perTenantMax, globalMax, front, last.tenant, last.at)
  }

  lemma LoggedAdmitted(perTenantMax: nat, globalMax: nat, log: seq<Request>, tenant: string, now: int)
    requires Admitted(perTenantMax, globalMax, log)
    ensures Admitted(perTenantMax, globalMax, Logged(perTenantMax, globalMax, log, tenant, now))
  {
    var next := log + [Request(TenantKey(tenant), now)];
    assert next[..|next| - 1] == log;
  }

  lemma {:induction false} AdmittedSpaced(perTenantMax: nat, globalMax: nat, log: seq<Request>, tenant: string)
    requires Admitted(perTenantMax, globalMax, log)
    ensures Spaced(WINDOW, globalMax, Times(log)) && Spaced(WINDOW, perTenantMax, TimesOf(log, tenant))
  {
    if |log| > 0 {
      var front, last := log[..|log| - 1], log[|log| - 1];
      AdmittedSpaced(perTenantMax, globalMax, front, tenant);
      assert Times(log)[..|log| - 1] == Times(front);
      var times := TimesOf(log, tenant);
      if last.tenant == tenant {
        assert times[..|times| - 1] == TimesOf(front, tenant);
      } else {
        assert times == TimesOf(front, tenant);
      }
    }
  }

  /** So no 60-second window holds more accepted requests than the tenant or the global maximum. */
  lemma NoWindowExceeds(perTenantMax: nat, globalMax: nat, log: seq<Request>, tenant: string, start: int)
    requires Admitted(perTenantMax, globalMax, log)
    ensures globalMax > 0 ==> CountIn(Times(log), start, start + WINDOW) <= globalMax
    ensures perTenantMax > 0 ==> CountIn(TimesOf(log, tenant), start, start + WINDOW) <= perTenantMax
  {
    AdmittedSpaced(perTenantMax, globalMax, log, tenant);
    hide Admitted, Spaced, Times, TimesOf, CountIn;
    WindowBound(WINDOW, globalMax, Times(log), start);
    WindowBound(WINDOW, perTenantMax, TimesOf(log, tenant), start);
  }

  ghost function Lately(log: seq<Request>, cutoff: int): set<int> {
    set i | 0 <= i < |log| && log[i].at > cutoff
  }

  ghost function LatelyOf(log: seq<Request>, tenant: string, cutoff: int): set<int> {
    set i | 0 <= i < |log| && log[i].tenant == tenant && log[i].at > cutoff
  }

  lemma OneMore(small: set<int>, large: set<int>, n: int, more: bool)
    requires n !in small
    requires forall i :: i in large <==> (i in small || (more && i == n))
    ensures |large| == |small| + if more then 1 else 0
  {
    var grown := small + if more then {n} else {};
    forall i ensures i in large <==> i in grown { }
    assert large == grown;
  }

  lemma LatelyGrows(front: seq<Request>, last: Request, cutoff: int)
    ensures |Lately(front + [last], cutoff)| == |Lately(front, cutoff)| + if last.at > cutoff then 1 else 0
  {
    OneMore(Lately(front, cutoff), Lately(front + [last], cutoff), |front|, last.at > cutoff);
  }

  lemma LatelyOfGrows(front: seq<Request>, last: Request, tenant: string, cutoff: int)
    ensures |LatelyOf(front + [last], tenant, cutoff)|
         == |LatelyOf(front, tenant, cutoff)| + if last.tenant == tenant && last.at > cutoff then 1 else 0
  {
    OneMore(LatelyOf(front, tenant, cutoff), LatelyOf(front + [last], tenant, cutoff), |front|,
            last.tenant == tenant && last.at > cutoff);
  }

  lemma {:induction false} RecentTimes(log: seq<Request>, tenant: string, cutoff: int)
    ensures |Recent(Times(log), cutoff)| == |Lately(log, cutoff)|
    ensures |Recent(TimesOf(log, tenant), cutoff)| == |LatelyOf(log, tenant, cutoff)|
  {
    if |log| == 0 {
      assert Lately(log, cutoff) == LatelyOf(log, tenant, cutoff) == {};
    } else {
      hide Recent, Lately, LatelyOf;
      var front, last := log[..|log| - 1], log[|log| - 1];
      assert log == front + [last];
      RecentTimes(front, tenant, cutoff);
      LatelyGrows(front, last, cutoff);
      LatelyOfGrows(front, last, tenant, cutoff);
      RecentPush(Times(front), last.at, cutoff);
      RecentPush(TimesOf(front, tenant), last.at, cutoff);
      assert TimesOf(front, tenant) + [] == TimesOf(front, tenant);
    }
  }

  lemma RecentPush(times: seq<int>, at: int, cutoff: int)
    ensures Recent(times + [at], cutoff) == Recent(times, cutoff) + if at > cutoff then [at] else []
  {
    assert (times + [at])[..|times|] == times;
  }

  /** A request is accepted exactly if in the last 60 seconds fewer requests than the maximum were, of all tenants and of its
      own; no name counts as one tenant, and a maximum of 0 is none. */
  lemma AllowedIff(perTenantMax: nat, globalMax: nat, log: seq<Request>, tenant: string, now: int)
    ensures var name := if tenant == "" then "default" else tenant;
      Allows(perTenantMax, globalMax, log, tenant, now) <==> (
        && (globalMax == 0 || |set i | 0 <= i < |log| && log[i].at > now - 60| < globalMax)
        && (perTenantMax == 0 || |set i | 0 <= i < |log| && log[i].tenant == name && log[i].at > now - 60| < perTenantMax))
  {
    RecentTimes(log, TenantKey(tenant), now - 60);
  }

  // ---------- pruning ----------

  /** Non-decreasing, and nowhere above the bound. */
  predicate Rising(times: seq<int>, bound: int) {
    |times| > 0 ==> Rising(times[..|times| - 1], times[|times| - 1]) && times[|times| - 1] <= bound
  }

  lemma {:induction false} RisingAt(times: seq<int>, bound: int, i: nat, j: nat)
    requires Rising(times, bound) && i <= j < |times|
    ensures times[i] <= times[j] <= bound
  {
    var n := |times| - 1;
    if j < n {
      RisingAt(times[..n], times[n], i, j);
    } else if i < n {
      RisingAt(times[..n], times[n], i, i);
    }
  }

  lemma {:induction false} RisingDrop(times: seq<int>, bound: int, i: nat)
    requires Rising(times, bound) && i <= |times|
    ensures Rising(times[i..], bound)
  {
    if i < |times| {
      var n := |times| - 1;
      RisingDrop(times[..n], times[n], i);
      assert times[i..][..n - i] == times[..n][i..];
    }
  }

  lemma {:induction false} RisingLater(times: seq<int>, bound: int, later: int)
    requires Rising(times, bound) && bound <= later
    ensures Rising(times, later)
  {
  }

  /** On a rising list, dropping the stale front is exactly keeping what is recent. */
  lemma DroppingIsRecent(times: seq<int>, bound: int, cutoff: int, i: nat)
    requires Rising(times, bound) && i <= |times|
    requires forall k :: 0 <= k < i ==> times[k] <= cutoff
    requires i < |times| ==> times[i] > cutoff
    ensures times[i..] == Recent(times, cutoff)
    ensures Rising(times[i..], bound)
  {
    RisingDrop(times, bound, i);
    forall k | i <= k < |times| ensures times[k] > cutoff {
      RisingAt(times, bound, i, k);
    }
    assert times == times[..i] + times[i..];
    RecentJoin(times[..i], times[i..], cutoff);
    RecentOfNone(times[..i], cutoff);
    RecentOfAll(times[i..], cutoff);
  }

  /** A stored history: what is left of its part of the log once leading entries up to the cutoff are dropped. */
  predicate Pruned(times: seq<int>, full: seq<int>, cutoff: int) {
    if |times| == 0 then |full| == 0 || full[|full| - 1] <= cutoff
    else |full| > 0 && times[|times| - 1] == full[|full| - 1] && Pruned(times[..|times| - 1], full[..|full| - 1], cutoff)
  }

  lemma {:induction false} PrunedLater(times: seq<int>, full: seq<int>, cutoff: int, later: int)
    requires Pruned(times, full, cutoff) && cutoff <= later
    ensures Pruned(times, full, later)
  {
    if |times| > 0 {
      PrunedLater(times[..|times| - 1], full[..|full| - 1], cutoff, later);
    }
  }

  lemma PrunedPush(times: seq<int>, full: seq<int>, cutoff: int, now: int)
    requires Pruned(times, full, cutoff)
    ensures Pruned(times + [now], full + [now], cutoff)
  {
    assert (times + [now])[..|times|] == times && (full + [now])[..|full|] == full;
  }

  lemma NoneRecent(times: seq<int>, bound: int, cutoff: int)
    requires Rising(times, bound) && (|times| > 0 ==> times[|times| - 1] <= cutoff)
    ensures Recent(times, cutoff) == []
  {
    forall k | 0 <= k < |times| ensures times[k] <= cutoff {
      RisingAt(times, bound, k, |times| - 1);
    }
    RecentOfNone(times, cutoff);
  }

  /** Trimming a stored history leaves exactly the recent times of the log. */
  lemma {:induction false} PrunedTrim(times: seq<int>, full: seq<int>, clock: int, cutoff: int)
    requires Rising(full, clock) && Pruned(times, full, cutoff)
    ensures Rising(times, clock) && Recent(times, cutoff) == Recent(full, cutoff)
    ensures Pruned(Recent(times, cutoff), full, cutoff)
  {
    hide Recent;
    if |times| == 0 {
      NoneRecent(full, clock, cutoff);
      RecentOfNone(times, cutoff);
    } else {
      var t, f := times[..|times| - 1], full[..|full| - 1];
      var last := times[|times| - 1];
      assert times == t + [last] && full == f + [last];
      RecentPush(t, last, cutoff);
      RecentPush(f, last, cutoff);
      PrunedTrim(t, f, last, cutoff);
      if last > cutoff {
        PrunedPush(Recent(t, cutoff), f, cutoff, last);
      } else {
        NoneRecent(full, clock, cutoff);
      }
    }
  }

  /** The input without its leading entries at or before the cutoff. */
  function TrimLeading(times: seq<int>, cutoff: int): seq<int> {
    if |times| > 0 && times[0] <= cutoff then TrimLeading(times[1..], cutoff) else times
  }

  /** trimCutoff, on any list */
  method TrimCutoff(times: seq<int>, cutoff: int) returns (kept: seq<int>)
    ensures kept == TrimLeading(times, cutoff)
  {
    var i := 0;
    while i < |times| && times[i] <= cutoff
      invariant 0 <= i <= |times|
      invariant TrimLeading(times[i..], cutoff) == TrimLeading(times, cutoff)
    {
      assert times[i..][1..] == times[i + 1..];
      i := i + 1;
    }
    kept := times[i..];
  }

  lemma {:induction false} LeadingCount(times: seq<int>, cutoff: int) returns (i: nat)
    ensures i <= |times| && TrimLeading(times, cutoff) == times[i..]
    ensures forall k :: 0 <= k < i ==> times[k] <= cutoff
    ensures i < |times| ==> cutoff < times[i]
  {
    if |times| > 0 && times[0] <= cutoff {
      i := LeadingCount(times[1..], cutoff);
      i := i + 1;
      assert forall k :: 1 <= k < |times| ==> times[k] == times[1..][k - 1];
    } else {
      i := 0;
    }
  }

  /** On a list that never falls, trimming the front leaves exactly the recent entries. */
  lemma TrimLeadingRecent(times: seq<int>, clock: int, cutoff: int)
    requires Rising(times, clock)
    ensures TrimLeading(times, cutoff) == Recent(times, cutoff)
  {
    var i := LeadingCount(times, cutoff);
    DroppingIsRecent(times, clock, cutoff, i);
  }

  // ---------- the pruned limiter refines the reference ----------

  lemma {:induction false} RisingTimesOf(log: seq<Request>, clock: int, tenant: string)
    requires Rising(Times(log), clock)
    ensures Rising(TimesOf(log, tenant), clock)
  {
    if |log| > 0 {
      var front, last := log[..|log| - 1], log[|log| - 1];
      assert Times(log)[..|front|] == Times(front);
      RisingTimesOf(front, last.at, tenant);
      if last.tenant == tenant {
        assert TimesOf(log, tenant)[..|TimesOf(front, tenant)|] == TimesOf(front, tenant);
      } else {
        RisingLater(TimesOf(front, tenant), last.at, clock);
        assert TimesOf(log, tenant) == TimesOf(front, tenant);
      }
    }
  }

  function HistoryOf(tenants: map<string, seq<int>>, tenant: string): seq<int> {
    if tenant in tenants then tenants[tenant] else []
  }

  ghost predicate PrunedOf(tenants: map<string, seq<int>>, log: seq<Request>, tenant: string, cutoff: int) {
    Pruned(HistoryOf(tenants, tenant), TimesOf(log, tenant), cutoff)
  }

  /** Every tenant's stored history stands for its part of the log. */
  ghost predicate AllPruned(tenants: map<string, seq<int>>, log: seq<Request>, cutoff: int) {
    forall t :: PrunedOf(tenants, log, t, cutoff)
  }

  lemma AllPrunedAt(tenants: map<string, seq<int>>, log: seq<Request>, cutoff: int, name: string)
    requires AllPruned(tenants, log, cutoff)
    ensures Pruned(HistoryOf(tenants, name), TimesOf(log, name), cutoff)
  {
    assert PrunedOf(tenants, log, name, cutoff);
  }

  lemma AllPrunedPut(tenants: map<string, seq<int>>, log: seq<Request>, cutoff: int, name: string, history: seq<int>)
    requires AllPruned(tenants, log, cutoff) && Pruned(history, TimesOf(log, name), cutoff)
    ensures AllPruned(tenants[name := history], log, cutoff)
  {
    var after := tenants[name := history];
    forall t ensures PrunedOf(after, log, t, cutoff) {
      assert PrunedOf(tenants, log, t, cutoff);
    }
  }

  lemma AllPrunedPush(tenants: map<string, seq<int>>, log: seq<Request>, cutoff: int, name: string, history: seq<int>, now: int)
    requires AllPruned(tenants, log, cutoff) && Pruned(history, TimesOf(log, name), cutoff)
    ensures AllPruned(tenants[name := history + [now]], log + [Request(name, now)], cutoff)
  {
    var r := Request(name, now);
    var after, longer := tenants[name := history + [now]], log + [r];
    forall t ensures PrunedOf(after, longer, t, cutoff) {
      LogPush(log, r, t);
      assert PrunedOf(tenants, log, t, cutoff);
      if t == name {
        PrunedPush(history, TimesOf(log, name), cutoff, now);
      } else {
        assert TimesOf(log + [r], t) == TimesOf(log, t);
      }
    }
  }

  lemma AllPrunedLater(tenants: map<string, seq<int>>, log: seq<Request>, cutoff: int, later: int)
    requires AllPruned(tenants, log, cutoff) && cutoff <= later
    ensures AllPruned(tenants, log, later)
  {
    forall t ensures PrunedOf(tenants, log, t, later) {
      assert PrunedOf(tenants, log, t, cutoff);
      PrunedLater(HistoryOf(tenants, t), TimesOf(log, t), cutoff, later);
    }
  }

  lemma RisingPush(times: seq<int>, clock: int, now: int)
    requires Rising(times, clock) && clock <= now
    ensures Rising(times + [now], now)
  {
    RisingLater(times, clock, now);
    assert (times + [now])[..|times|] == times;
  }

  class SubmitLimiter {
    const perTenantMax: nat
    const globalMax: nat
    var tenants: map<string, seq<int>>
    var global: seq<int>
    ghost var log: seq<Request>
    ghost var clock: int

    predicate Limited() { perTenantMax != 0 || globalMax != 0 }

    ghost predicate Stands()
      reads this
    {
      && Rising(Times(log), clock)
      && Pruned(global, Times(log), clock - WINDOW)
      && AllPruned(tenants, log, clock - WINDOW)
    }

    ghost predicate Valid()
      reads this
    {
      Admitted(perTenantMax, globalMax, log) && (Limited() ==> Stands())
    }

    constructor (perTenant: int, globally: int, ghost now: int)
      ensures Valid() && log == [] && clock == now
      ensures perTenantMax == (if perTenant < 0 then 0 else perTenant)
      ensures globalMax == (if globally < 0 then 0 else globally)
    {
      perTenantMax := if perTenant < 0 then 0 else perTenant;
      globalMax := if globally < 0 then 0 else globally;
      tenants, global, log, clock := map[], [], [], now;
    }

    /** allow: the pruned lists decide exactly as the reference limiter does on its whole log. */
    method Allow(tenant: string, now: int) returns (ok: bool)
      requires Valid() && clock <= now
      modifies this
      ensures Valid() && clock == now
      ensures ok == Allows(perTenantMax, globalMax, old(log), tenant, now)
      ensures log == Logged(perTenantMax, globalMax, old(log), tenant, now)
    {
      LoggedAdmitted(perTenantMax, globalMax, log, tenant, now);
      if !Limited() {
        clock, log := now, log + [Request(TenantKey(tenant), now)];
        return true;
      }
      ok := AllowLimited(tenant, now);
    }

    method AllowLimited(tenant: string, now: int) returns (ok: bool)
      requires Stands() && clock <= now
      modifies this
      ensures Stands() && clock == now
      ensures ok == Allows(perTenantMax, globalMax, old(log), tenant, now)
      ensures log == Logged(perTenantMax, globalMax, old(log), tenant, now)
    {
      hide Rising, Recent, Times, TimesOf, Pruned, AllPruned, TrimLeading;
      var cutoff := now - WINDOW;
      var name := TenantKey(tenant);
      PrunedLater(global, Times(log), clock - WINDOW, cutoff);
      AllPrunedLater(tenants, log, clock - WINDOW, cutoff);
      RisingLater(Times(log), clock, now);
      clock := now;

      PrunedTrim(global, Times(log), now, cutoff);
      TrimLeadingRecent(global, now, cutoff);
      global := TrimCutoff(global, cutoff);
      if globalMax > 0 && |global| >= globalMax {
        return false;
      }
      RisingTimesOf(log, now, name);
      AllPrunedAt(tenants, log, cutoff, name);
      PrunedTrim(HistoryOf(tenants, name), TimesOf(log, name), now, cutoff);
      TrimLeadingRecent(HistoryOf(tenants, name), now, cutoff);
      var history := TrimCutoff(HistoryOf(tenants, name), cutoff);
      if perTenantMax > 0 && |history| >= perTenantMax {
        AllPrunedPut(tenants, log, cutoff, name, history);
        tenants := tenants[name := history];
        return false;
      }
      AllPrunedPush(tenants, log, cutoff, name, history, now);
      PrunedPush(global, Times(log), cutoff, now);
      RisingPush(Times(log), now, now);
      LogPush(log, Request(name, now), name);
      history := history + [now];
      tenants := tenants[name := history];
      global := global + [now];
      log := log + [Request(name, now)];
      return true;
    }
  }
}
