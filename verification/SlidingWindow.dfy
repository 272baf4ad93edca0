/** Sliding windows over a log of times: what a limiter that counts its whole log decides, and what that guarantees. */
module SlidingWindow {

  /** The times after the cutoff, in order. */
  function Recent(times: seq<int>, cutoff: int): (r: seq<int>)
    ensures |r| <= |times|
  {
    if |times| == 0 then []
    else
      var last := times[|times| - 1];
      Recent(times[..|times| - 1], cutoff) + if last > cutoff then [last] else []
  }

  /** A request at `now` is within the maximum if fewer earlier ones lie less than `window` back; 0 means no maximum. */
  predicate Within(window: nat, max: nat, times: seq<int>, now: int) {
    max > 0 ==> |Recent(times, now - window)| < max
  }

  /** Every entry was accepted while it was within the maximum. */
  predicate Spaced(window: nat, max: nat, times: seq<int>) {
    |times| > 0 ==>
      && Spaced(window, max, times[..|times| - 1])
      && Within(window, max, times[..|times| - 1], times[|times| - 1])
  }

  function CountIn(times: seq<int>, after: int, upTo: int): nat {
    if |times| == 0 then 0
    else
      CountIn(times[..|times| - 1], after, upTo) + if after < times[|times| - 1] <= upTo then 1 else 0
  }

  lemma {:induction false} CountedAreRecent(times: seq<int>, after: int, upTo: int, cutoff: int)
    requires cutoff <= after
    ensures CountIn(times, after, upTo) <= |Recent(times, cutoff)|
  {
    if |times| > 0 {
      CountedAreRecent(times[..|times| - 1], after, upTo, cutoff);
    }
  }

  /** No window of that length, wherever it starts, holds more than max accepted entries. */
  lemma {:induction false} WindowBound(window: nat, max: nat, times: seq<int>, start: int)
    requires Spaced(window, max, times)
    ensures max > 0 ==> CountIn(times, start, start + window) <= max
  {
    if |times| > 0 {
      var last := times[|times| - 1];
      var front := times[..|times| - 1];
      if start < last <= start + window {
        CountedAreRecent(front, start, start + window, last - window);
      } else {
        WindowBound(window, max, front, start);
      }
    }
  }

  /** What is recent, counted one by one. */
  lemma {:induction false} RecentCounts(times: seq<int>, cutoff: int)
    ensures |Recent(times, cutoff)| == |set i | 0 <= i < |times| && times[i] > cutoff|
  {
    if |times| > 0 {
      var n := |times| - 1;
      RecentCounts(times[..n], cutoff);
      var earlier := set i | 0 <= i < n && times[..n][i] > cutoff;
      assert (set i | 0 <= i < |times| && times[i] > cutoff) == earlier + if times[n] > cutoff then {n} else {};
    }
  }

  lemma SpacedPush(window: nat, max: nat, times: seq<int>, now: int)
    requires Spaced(window, max, times) && Within(window, max, times, now)
    ensures Spaced(window, max, times + [now])
  {
    assert (times + [now])[..|times|] == times;
  }

  lemma {:induction false} RecentOfAll(times: seq<int>, cutoff: int)
    requires forall i :: 0 <= i < |times| ==> times[i] > cutoff
    ensures Recent(times, cutoff) == times
  {
    if |times| > 0 {
      RecentOfAll(times[..|times| - 1], cutoff);
    }
  }

  lemma {:induction false} RecentOfNone(times: seq<int>, cutoff: int)
    requires forall i :: 0 <= i < |times| ==> times[i] <= cutoff
    ensures Recent(times, cutoff) == []
  {
    if |times| > 0 {
      RecentOfNone(times[..|times| - 1], cutoff);
    }
  }

  lemma {:induction false} RecentJoin(a: seq<int>, b: seq<int>, cutoff: int)
    ensures Recent(a + b, cutoff) == Recent(a, cutoff) + Recent(b, cutoff)
  {
    if |b| == 0 {
      assert a + b == a;
    } else {
      RecentJoin(a, b[..|b| - 1], cutoff);
      assert (a + b)[..|a + b| - 1] == a + b[..|b| - 1];
    }
  }

  /** Pruning at an earlier cutoff does not change the answer at a later one. */
  lemma {:induction false} RecentTwice(times: seq<int>, earlier: int, cutoff: int)
    requires earlier <= cutoff
    ensures Recent(Recent(times, earlier), cutoff) == Recent(times, cutoff)
  {
    if |times| > 0 {
      var last := times[|times| - 1];
      RecentTwice(times[..|times| - 1], earlier, cutoff);
      RecentJoin(Recent(times[..|times| - 1], earlier), if last > earlier then [last] else [], cutoff);
    }
  }
}
