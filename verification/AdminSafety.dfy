/** The limit on dead-letter requeues (internal/api/admin_safety.go): recent times in one array that is compacted in
    place, then appended to.  `log` is ghost: the times of all requests it ever let through. */
module AdminSafety {
  import opened SlidingWindow

  /** Times are whole seconds and the window is closed at both ends: [now - 60, now]. */
  const CLOSED_WINDOW := 61

  /** A request is within the limit if fewer than that many were let through in the last 60 seconds, both ends counted. */
  lemma LimitIff(limit: nat, log: seq<int>, now: int)
    requires limit > 0
    ensures Within(CLOSED_WINDOW, limit, log, now) <==> |set i | 0 <= i < |log| && log[i] >= now - 60| < limit
  {
    RecentCounts(log, now - CLOSED_WINDOW);
    assert (set i | 0 <= i < |log| && log[i] >= now - 60) == set i | 0 <= i < |log| && log[i] > now - CLOSED_WINDOW;
  }

  class AdminLimiter {
    const rateLimitPerMin: int
    var recent: array<int>
    var len: nat
    ghost var log: seq<int>
    ghost var clock: int
    ghost var cut: int

    ghost predicate Valid()
      reads this, recent
    {
      && len <= recent.Length
      && (rateLimitPerMin > 0 ==>
            && Spaced(CLOSED_WINDOW, rateLimitPerMin, log)
            && cut <= clock - CLOSED_WINDOW
            && recent[..len] == Recent(log, cut))
    }

    constructor (perMin: int, ghost now: int)
      ensures Valid() && rateLimitPerMin == perMin && log == [] && clock == now && fresh(recent)
    {
      rateLimitPerMin := perMin;
      recent := new int[0];
      len, log, clock, cut := 0, [], now, now - CLOSED_WINDOW;
    }

    /** The in-place compaction: entries at or after the cutoff move down over the ones dropped. */
    method Compact(cutoff: int)
      requires len <= recent.Length
      modifies recent, `len
      ensures len <= recent.Length
      ensures recent[..len] == Recent(old(recent[..len]), cutoff - 1)
    {
      var kept := 0;
      var n := len;
      ghost var was := recent[..n];
      for i := 0 to n
        invariant kept <= i && n <= recent.Length
        invariant recent[i..n] == was[i..]
        invariant recent[..kept] == Recent(was[..i], cutoff - 1)
      {
        assert was[..i + 1][..i] == was[..i];
        assert recent[i] == was[i..][0];
        ghost var rest := was[i + 1..];
        assert recent[i + 1..n] == rest by {
          assert recent[i + 1..n] == recent[i..n][1..];
        }
        if recent[i] >= cutoff {
          recent[kept] := recent[i];
          kept := kept + 1;
        }
      }
      assert was[..n] == was;
      len := kept;
    }

    /** append: into the spare room if there is some, else into a larger array. */
    method Append(x: int)
      requires len <= recent.Length
      modifies this, recent
      ensures len <= recent.Length && (recent == old(recent) || fresh(recent))
      ensures recent[..len] == old(recent[..len]) + [x]
      ensures log == old(log) && clock == old(clock) && cut == old(cut)
    {
      if len == recent.Length {
        var n := len;
        var larger := new int[2 * n + 1];
        for i := 0 to n
          modifies larger
          invariant larger[..i] == recent[..i]
        {
          larger[i] := recent[i];
        }
        recent := larger;
      }
      recent[len] := x;
      len := len + 1;
    }

    /** allowRequeue: decides as counting the whole log over the closed window would. */
    method AllowRequeue(now: int) returns (ok: bool)
      requires Valid() && clock <= now
      modifies this, recent
      ensures Valid() && clock == now && (recent == old(recent) || fresh(recent))
      ensures ok == (rateLimitPerMin <= 0 || Within(CLOSED_WINDOW, rateLimitPerMin, old(log), now))
      ensures log == if ok then old(log) + [now] else old(log)
    {
      clock := now;
      if rateLimitPerMin <= 0 {
        log := log + [now];
        return true;
      }
      Compact(now - 60);
      RecentTwice(log, cut, now - CLOSED_WINDOW);
      cut := now - CLOSED_WINDOW;
      if len >= rateLimitPerMin {
        return false;
      }
      SpacedPush(CLOSED_WINDOW, rateLimitPerMin, log, now);
      RecentJoin(log, [now], cut);
      RecentOfAll([now], cut);
      Append(now);
      log := log + [now];
      return true;
    }

    /** So no closed 60-second window holds more requeue requests than the limit. */
    lemma NoWindowExceeds(start: int)
      requires Valid() && rateLimitPerMin > 0
      ensures CountIn(log, start - 1, start + 60) <= rateLimitPerMin
    {
      WindowBound(CLOSED_WINDOW, rateLimitPerMin, log, start - 1);
    }
  }
}
