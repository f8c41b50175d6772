/** The sliding-window rate limiter of the CRM client. */
module RateLimiter {

  datatype Verdict = Granted | Sleep(ms: int)

  /** How many of the grants in `h` are later than `cut`: the reference the limiter is held to. */
  function Recent(h: seq<int>, cut: int): (n: nat)
    ensures n <= |h|
  {
    if h == [] then 0 else Recent(h[..|h| - 1], cut) + if h[|h| - 1] > cut then 1 else 0
  }

  predicate Sorted(h: seq<int>) {
    forall i, j :: 0 <= i < j < |h| ==> h[i] <= h[j]
  }

  /** In a sorted history the recent grants are a suffix. */
  lemma {:induction false} RecentIsSuffix(h: seq<int>, cut: int, n: nat)
    requires Sorted(h) && n <= |h|
    requires forall i :: 0 <= i < |h| - n ==> h[i] <= cut
    requires forall i :: |h| - n <= i < |h| ==> h[i] > cut
    ensures Recent(h, cut) == n
  {
    if h == [] {
    } else {
      RecentIsSuffix(h[..|h| - 1], cut, if n > 0 then n - 1 else 0);
    }
  }

  /** If the oldest of the last `max` grants is still recent, the window is full; if not, it isn't. */
  lemma {:induction false} RecentFull(h: seq<int>, cut: int, max: nat)
    requires Sorted(h) && max >= 1
    ensures Recent(h, cut) >= max <==> max <= |h| && h[|h| - max] > cut
  {
    if h == [] {
    } else {
      var prefix := h[..|h| - 1];
      if h[|h| - 1] <= cut {
        RecentIsSuffix(h, cut, 0);
      } else if max > 1 {
        RecentFull(prefix, cut, max - 1);
      }
    }
  }

  /** The window ending at `u` has room for one more call. */
  predicate Room(h: seq<int>, u: int, max: nat, windowMs: nat) {
    Recent(h, u - windowMs) < max
  }

  /** There is room from the moment the `max`-th newest grant leaves the window. */
  lemma RoomAt(h: seq<int>, max: nat, windowMs: nat)
    requires Sorted(h) && max >= 1
    ensures forall u :: Room(h, u, max, windowMs) <==> |h| < max || u >= h[|h| - max] + windowMs
  {
    forall u ensures Room(h, u, max, windowMs) <==> |h| < max || u >= h[|h| - max] + windowMs {
      RecentFull(h, u - windowMs, max);
    }
  }

  /** A sleep that is positive, long enough for a lone waiter, and no longer than needed. */
  ghost predicate ExactSleep(h: seq<int>, t: int, ms: int, max: nat, windowMs: nat) {
    && ms > 0
    && Room(h, t + ms, max, windowMs)
    && forall u :: t <= u < t + ms ==> !Room(h, u, max, windowMs)
  }

  lemma SleepIsExact(h: seq<int>, t: int, ms: int, max: nat, windowMs: nat)
    requires Sorted(h) && 1 <= max <= |h|
    requires ms == h[|h| - max] + windowMs - t && ms > 0
    ensures ExactSleep(h, t, ms, max, windowMs)
  {
    RoomAt(h, max, windowMs);
  }

  /** The pruned array is the tail of the full history, and grants are spaced out. */
  ghost predicate Consistent(calls: seq<int>, history: seq<int>, clock: int, max: nat, windowMs: nat) {
    && max >= 1 && windowMs >= 1
    && |calls| <= |history| && |calls| <= max
    && calls == history[|history| - |calls|..]
    && Sorted(history)
    && (forall i :: 0 <= i < |history| ==> history[i] <= clock)
    && (forall i :: 0 <= i < |history| - |calls| ==> history[i] <= clock - windowMs)
    && (forall i :: 0 <= i && i + max < |history| ==> history[i + max] >= history[i] + windowMs)
  }

  lemma TimePasses(calls: seq<int>, history: seq<int>, clock: int, t: int, max: nat, windowMs: nat)
    requires Consistent(calls, history, clock, max, windowMs) && t >= clock
    ensures Consistent(calls, history, t, max, windowMs)
  {
  }

  lemma GrantKeepsConsistent(calls: seq<int>, history: seq<int>, t: int, max: nat, windowMs: nat)
    requires Consistent(calls, history, t, max, windowMs) && |calls| < max
    ensures Consistent(calls + [t], history + [t], t, max, windowMs)
  {
    var h := history + [t];
    assert calls + [t] == h[|h| - |calls + [t]|..];
    if max < |h| {
      assert h[|h| - 1 - max] == history[|h| - 1 - max] <= t - windowMs;
    }
  }

  /** What is left after pruning decides whether there is room. */
  lemma PrunedDecides(calls: seq<int>, history: seq<int>, t: int, max: nat, windowMs: nat)
    requires Consistent(calls, history, t, max, windowMs)
    requires |calls| > 0 ==> calls[0] > t - windowMs
    ensures Room(history, t, max, windowMs) <==> |calls| < max
    ensures |calls| == max ==> history[|history| - max] == calls[0]
  {
    RecentIsSuffix(history, t - windowMs, |calls|);
  }

  class Limiter {
    const max: nat
    const windowMs: nat
    /** Times of the grants not known to be outside the window, oldest first. */
    var calls: seq<int>
    /** Every grant ever given, and the latest clock reading. Only the proof uses these. */
    ghost var history: seq<int>
    ghost var clock: int

    ghost predicate Valid()
      reads this
    {
      Consistent(calls, history, clock, max, windowMs)
    }

    constructor (max: nat, windowMs: nat, now: int)
      requires max >= 1 && windowMs >= 1
      ensures Valid() && history == [] && clock == now && this.max == max && this.windowMs == windowMs
    {
      this.max := max;
      this.windowMs := windowMs;
      calls := [];
      history := [];
      clock := now;
    }

    /** Forgets the calls that left the window. */
    method Prune(t: int)
      requires Valid() && t == clock
      modifies this`calls
      ensures Valid()
      ensures |calls| > 0 ==> calls[0] > t - windowMs
    {
      while |calls| > 0 && calls[0] <= t - windowMs
        invariant Valid()
        decreases |calls|
      {
        assert calls[0] == history[|history| - |calls|];
        calls := calls[1..];
      }
    }

    /**
     One turn of the acquire loop at clock reading `t`; turns of several callers may interleave.
     Granted exactly when the full history has room; otherwise the sleep is positive, long enough
     for a lone waiter and no longer than needed.
     */
    method Attempt(t: int) returns (verdict: Verdict)
      requires Valid() && t >= clock
      modifies this
      ensures Valid() && clock == t
      ensures verdict.Granted? <==> Room(old(history), t, max, windowMs)
      ensures history == if verdict.Granted? then old(history) + [t] else old(history)
      ensures verdict.Sleep? ==> ExactSleep(history, t, verdict.ms, max, windowMs)
    {
      TimePasses(calls, history, clock, t, max, windowMs);
      clock := t;
      Prune(t);
      PrunedDecides(calls, history, t, max, windowMs);
      if |calls| < max {
        GrantKeepsConsistent(calls, history, t, max, windowMs);
        calls := calls + [t];
        history := history + [t];
        return Granted;
      }
      verdict := Sleep(calls[0] + windowMs - t);
      SleepIsExact(history, t, verdict.ms, max, windowMs);
    }

    /** A caller nobody competes with: it sleeps at most once, however late the timer fires. */
    method AcquireAlone(t: int, late: nat) returns (grantedAt: int)
      requires Valid() && t >= clock
      modifies this
      ensures Valid() && history == old(history) + [grantedAt] && grantedAt == clock
      ensures grantedAt == t <==> Room(old(history), t, max, windowMs)
      ensures grantedAt > t ==>
        forall u :: t <= u < grantedAt - late ==> !Room(old(history), u, max, windowMs)
    {
      var now := t;
      var verdict := Attempt(now);
      while verdict.Sleep?
        invariant Valid() && clock == now
        invariant verdict.Sleep? ==>
          && now == t && history == old(history)
          && ExactSleep(history, t, verdict.ms, max, windowMs)
        invariant verdict.Granted? ==>
          && history == old(history) + [now] && now >= t
          && (now == t <==> Room(old(history), t, max, windowMs))
          && (now > t ==> forall u :: t <= u < now - late ==> !Room(old(history), u, max, windowMs))
        decreases if verdict.Sleep? then 1 else 0
      {
        RoomAt(history, max, windowMs);
        now := now + verdict.ms + late;
        verdict := Attempt(now);
      }
      return now;
    }
  }
}
