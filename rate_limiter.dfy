/**
 * `RateLimiter`: a sliding-window limit on the number of analyses per
 * session. The clock is a parameter: `now` stands for `time.time()` at
 * the call.
 */
module RateLimiter {
  import opened Strings

  /** `[t for t in ts if t > windowStart]`. */
  function Recent(ts: seq<real>, windowStart: real): (r: seq<real>)
    ensures |r| <= |ts|
  {
    if ts == [] then []
    else Recent(ts[..|ts| - 1], windowStart) + (if ts[|ts| - 1] > windowStart then [ts[|ts| - 1]] else [])
  }

  /** The pruned list holds exactly the timestamps inside the window, in
      their order. */
  lemma {:induction false} RecentSpec(ts: seq<real>, windowStart: real, t: real)
    ensures t in Recent(ts, windowStart) <==> t in ts && t > windowStart
    ensures forall k | 0 <= k < |Recent(ts, windowStart)| :: Recent(ts, windowStart)[k] > windowStart
  {
    if ts != [] {
      var init := ts[..|ts| - 1];
      RecentSpec(init, windowStart, t);
      assert ts == init + [ts[|ts| - 1]];
    }
  }

  /** Pruning twice at the same time prunes nothing more. */
  lemma {:induction false} RecentTwice(ts: seq<real>, windowStart: real)
    ensures Recent(Recent(ts, windowStart), windowStart) == Recent(ts, windowStart)
  {
    if ts != [] {
      var init := ts[..|ts| - 1];
      RecentTwice(init, windowStart);
      var last := if ts[|ts| - 1] > windowStart then [ts[|ts| - 1]] else [];
      RecentAppend(Recent(init, windowStart), last, windowStart);
    }
  }

  lemma {:induction false} RecentAppend(a: seq<real>, b: seq<real>, windowStart: real)
    requires |b| <= 1 && forall k | 0 <= k < |b| :: b[k] > windowStart
    ensures Recent(a + b, windowStart) == Recent(a, windowStart) + b
  {
    if b == [] {
      assert a + b == a;
    } else {
      assert (a + b)[..|a + b| - 1] == a;
    }
  }

  /** Python's `int(x)`: truncation toward zero. */
  function Truncate(x: real): (i: int)
    ensures x >= 0.0 ==> i as real <= x < i as real + 1.0
    ensures x < 0.0 ==> i as real - 1.0 < x <= i as real
  {
    if x >= 0.0 then x.Floor else -((-x).Floor)
  }

  /** `max(1, int(first + window - now) // 60)`: the whole minutes until
      the oldest request leaves the window, at least one. Dafny's `/` by
      the positive 60 rounds down as Python's `//` does. */
  function WaitMinutes(first: real, windowSeconds: int, now: real): (m: int)
    ensures m >= 1
    ensures Truncate(first + windowSeconds as real - now) >= 60 ==>
      (m * 60) as real <= first + windowSeconds as real - now < ((m + 1) * 60) as real
  {
    var remaining := Truncate(first + windowSeconds as real - now);
    if remaining / 60 > 1 then remaining / 60 else 1
  }

  const LimitPrefix := "Rate limit reached ("
  const LimitMiddle := " analyses per hour). Please try again in ~"
  const LimitSuffix := " minute(s)."

  /** The denial message, naming the limit and the wait. */
  function DenialMessage(maxRequests: int, minutes: int): string {
    LimitPrefix + IntToString(maxRequests) + LimitMiddle + IntToString(minutes) + LimitSuffix
  }

  /** What `check` returns, or that it raised `IndexError` (a limit of zero
      or less with no recent request, where it reads the first one). */
  datatype Verdict = Verdict(allowed: bool, message: string) | IndexFailure

  /** The verdict on the pruned list `recent`. */
  function Decide(maxRequests: int, windowSeconds: int, recent: seq<real>, now: real): (v: Verdict)
    ensures v == Verdict(true, "") <==> |recent| < maxRequests
    ensures v.IndexFailure? <==> |recent| >= maxRequests && recent == []
    ensures v.Verdict? && !v.allowed ==>
      recent != [] && v.message == DenialMessage(maxRequests, WaitMinutes(recent[0], windowSeconds, now))
  {
    if |recent| < maxRequests then Verdict(true, "")
    else if recent == [] then IndexFailure
    else Verdict(false, DenialMessage(maxRequests, WaitMinutes(recent[0], windowSeconds, now)))
  }

  class Limiter {
    const maxRequests: int
    const windowSeconds: int
    /** `_requests`: the timestamps of each session's allowed requests. */
    var requests: map<string, seq<real>>

    /** No session holds more timestamps than the limit allows. */
    ghost predicate Valid()
      reads this
    {
      forall sid | sid in requests :: |requests[sid]| <= if maxRequests > 0 then maxRequests else 0
    }

    constructor(maxRequests: int := 10, windowSeconds: int := 3600)
      ensures this.maxRequests == maxRequests && this.windowSeconds == windowSeconds
      ensures requests == map[] && Valid()
    {
      this.maxRequests := maxRequests;
      this.windowSeconds := windowSeconds;
      requests := map[];
    }

    /** The session's list; the `defaultdict` gives a missing one as empty. */
    function History(sessionId: string): seq<real>
      reads this
    {
      if sessionId in requests then requests[sessionId] else []
    }

    /** `check(session_id)`: prunes the session's list, then allows the
        request and records `now` when fewer than `maxRequests` remain, and
        denies it otherwise. Only the session's own entry changes. */
    method Check(sessionId: string, now: real) returns (v: Verdict)
      requires Valid()
      modifies this
      ensures var recent := Recent(old(History(sessionId)), now - windowSeconds as real);
        && v == Decide(maxRequests, windowSeconds, recent, now)
        && requests == old(requests)[sessionId := if v == Verdict(true, "") then recent + [now] else recent]
      ensures Valid()
    {
      var windowStart := now - windowSeconds as real;
      var recent := Recent(History(sessionId), windowStart);
      requests := requests[sessionId := recent];
      if |recent| >= maxRequests {
        if recent == [] {
          return IndexFailure;
        }
        var remaining := Truncate(recent[0] + windowSeconds as real - now);
        var minutes := if remaining / 60 > 1 then remaining / 60 else 1;
        return Verdict(false, DenialMessage(maxRequests, minutes));
      }
      requests := requests[sessionId := recent + [now]];
      v := Verdict(true, "");
    }

    /** `remaining(session_id)`: how many more requests the window allows,
        without changing anything. */
    function Remaining(sessionId: string, now: real): (n: int)
      reads this
      ensures n >= 0
      ensures maxRequests >= 0 ==> n <= maxRequests
      ensures n == 0 <==> |Recent(History(sessionId), now - windowSeconds as real)| >= maxRequests
      ensures n > 0 ==> n + |Recent(History(sessionId), now - windowSeconds as real)| == maxRequests
    {
      var recent := Recent(History(sessionId), now - windowSeconds as real);
      if maxRequests - |recent| > 0 then maxRequests - |recent| else 0
    }

    /** `remaining` predicts `check` at the same time: requests remain
        exactly when the next check is allowed. */
    lemma RemainingPredictsCheck(sessionId: string, now: real)
      ensures Remaining(sessionId, now) > 0 <==>
        Decide(maxRequests, windowSeconds, Recent(History(sessionId), now - windowSeconds as real), now) == Verdict(true, "")
    {
    }
  }

  /** A denied session waits at most the window, rounded down to minutes
      (and at least one minute), when its oldest request is not in the
      future. */
  lemma WaitWithinWindow(first: real, windowSeconds: int, now: real)
    requires now - windowSeconds as real < first <= now
    ensures WaitMinutes(first, windowSeconds, now) <= if windowSeconds / 60 > 1 then windowSeconds / 60 else 1
  {
    var x := first + windowSeconds as real - now;
    var r := Truncate(x);
    assert r <= windowSeconds;
    if r / 60 > 1 {
      assert r / 60 <= windowSeconds / 60;
    }
  }
}
