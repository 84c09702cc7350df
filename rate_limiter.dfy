/**
 * The rate limiter guarding calls to the language-model backend: two sliding
 * 60-second windows (token samples and request times), each held in a deque of
 * at most 60 entries, and two ceilings. Time is a whole number of seconds passed
 * in by the caller; instead of sleeping, a call returns the sleeps it would take.
 */
module RateLimit {
  import opened Wrappers

  const WindowSeconds: int := 60
  /** `deque(maxlen=60)`: the capacity of both windows, counted in entries. */
  const Capacity: nat := 60

  datatype Sample = Sample(time: int, tokens: int)

  /**
   * What one `wait_if_needed` call does: the sleep taken for the token ceiling
   * and the one taken for the request ceiling, each absent when not needed.
   * `EmptyWindowFault` is the `IndexError` the original raises when a ceiling is
   * already exceeded by an empty window (there is no oldest entry to wait for).
   */
  datatype Admission =
    | Admitted(tokenWait: Option<int>, requestWait: Option<int>)
    | EmptyWindowFault(tokenWait: Option<int>)

  function SampleTime(s: Sample): int { s.time }
  function RequestTime(t: int): int { t }

  /** The front-first eviction loop: drops leading entries stamped before `now - 60`. */
  function Evict<T>(s: seq<T>, stamp: T -> int, now: int): (r: seq<T>)
    ensures |r| <= |s| && r == s[|s| - |r|..]
    ensures r != [] ==> stamp(r[0]) >= now - WindowSeconds
    ensures forall i :: 0 <= i < |s| - |r| ==> stamp(s[i]) < now - WindowSeconds
  {
    if s != [] && stamp(s[0]) < now - WindowSeconds then Evict(s[1..], stamp, now) else s
  }

  /** `append` on a deque with `maxlen=60`: when full, the oldest entry is dropped. */
  function BoundedAppend<T>(s: seq<T>, x: T): (r: seq<T>)
    requires |s| <= Capacity
    ensures |r| <= Capacity && r != [] && r[|r| - 1] == x
    ensures |s| < Capacity ==> r == s + [x]
    ensures |s| == Capacity ==> r == s[1..] + [x]
  {
    if |s| == Capacity then s[1..] + [x] else s + [x]
  }

  function TokenSum(window: seq<Sample>): int {
    if window == [] then 0 else window[0].tokens + TokenSum(window[1..])
  }

  /** The sleep taken for a window whose oldest entry was stamped `oldest`: `60 - (now - oldest)` plus one second of margin. */
  function WaitFor(oldest: int, now: int): int {
    WindowSeconds - (now - oldest) + 1
  }

  /**
   * The two ceiling checks on already-evicted windows. Both are decided from the
   * counts taken before any sleep; the request check is not repeated after the
   * token sleep.
   */
  function Decide(tokens: seq<Sample>, requests: seq<int>, now: int, estimated: int,
                  maxTokens: int, maxRequests: int): (a: Admission)
    ensures a.Admitted? ==> (a.tokenWait.Some? <==> TokenSum(tokens) + estimated > maxTokens)
    ensures a.Admitted? ==> (a.requestWait.Some? <==> |requests| >= maxRequests)
  {
    var overTokens := TokenSum(tokens) + estimated > maxTokens;
    var overRequests := |requests| >= maxRequests;
    if overTokens && tokens == [] then EmptyWindowFault(None)
    else
      var tokenWait := if overTokens then Some(WaitFor(tokens[0].time, now)) else None;
      if overRequests && requests == [] then EmptyWindowFault(tokenWait)
      else Admitted(tokenWait, if overRequests then Some(WaitFor(requests[0], now)) else None)
  }

  /** A token sleep happens exactly when the window's tokens plus the estimate exceed the ceiling. */
  lemma TokenWaitIff(tokens: seq<Sample>, requests: seq<int>, now: int, estimated: int, maxTokens: int, maxRequests: int)
    requires tokens != []
    ensures var a := Decide(tokens, requests, now, estimated, maxTokens, maxRequests);
            (a.tokenWait.Some? <==> TokenSum(tokens) + estimated > maxTokens)
            && (a.tokenWait.Some? ==> a.tokenWait.value == WindowSeconds - (now - tokens[0].time) + 1)
  {
  }

  /** A request sleep happens exactly when the window already holds `maxRequests` requests. */
  lemma RequestWaitIff(tokens: seq<Sample>, requests: seq<int>, now: int, estimated: int, maxTokens: int, maxRequests: int)
    requires tokens != [] && requests != []
    ensures var a := Decide(tokens, requests, now, estimated, maxTokens, maxRequests);
            a.Admitted?
            && (a.requestWait.Some? <==> |requests| >= maxRequests)
            && (a.requestWait.Some? ==> a.requestWait.value == WindowSeconds - (now - requests[0]) + 1)
  {
  }

  /** The only failure is the empty-window `IndexError`; a call is otherwise never refused. */
  lemma FaultOnlyOnEmptyWindow(tokens: seq<Sample>, requests: seq<int>, now: int, estimated: int, maxTokens: int, maxRequests: int)
    ensures Decide(tokens, requests, now, estimated, maxTokens, maxRequests).EmptyWindowFault? <==>
            (tokens == [] && estimated > maxTokens) || (requests == [] && maxRequests <= 0)
  {
  }

  /**
   * Against evicted windows whose entries are not in the future, every sleep lasts
   * between 1 and 61 seconds.
   */
  lemma {:induction false} WaitsAreBounded(tokens: seq<Sample>, requests: seq<int>, now: int, estimated: int, maxTokens: int, maxRequests: int)
    requires tokens == Evict(tokens, SampleTime, now) && requests == Evict(requests, RequestTime, now)
    requires forall i :: 0 <= i < |tokens| ==> tokens[i].time <= now
    requires forall i :: 0 <= i < |requests| ==> requests[i] <= now
    ensures var a := Decide(tokens, requests, now, estimated, maxTokens, maxRequests);
            && (a.tokenWait.Some? ==> 1 <= a.tokenWait.value <= 61)
            && (a.Admitted? && a.requestWait.Some? ==> 1 <= a.requestWait.value <= 61)
  {
    if tokens != [] {
      assert SampleTime(tokens[0]) >= now - WindowSeconds;
    }
    if requests != [] {
      assert RequestTime(requests[0]) >= now - WindowSeconds;
    }
  }

  /**
   * The request window never holds more than 60 entries, so a request ceiling
   * above 60 per minute is never reached.
   */
  lemma RequestCeilingAboveCapacityNeverWaits(tokens: seq<Sample>, requests: seq<int>, now: int, estimated: int, maxTokens: int, maxRequests: int)
    requires |requests| <= Capacity < maxRequests
    ensures var a := Decide(tokens, requests, now, estimated, maxTokens, maxRequests);
            a.Admitted? ==> a.requestWait == None
  {
  }

  /** The `popleft` loop on the token window. */
  method EvictSamples(window: seq<Sample>, now: int) returns (r: seq<Sample>)
    ensures r == Evict(window, SampleTime, now)
  {
    r := window;
    while r != [] && r[0].time < now - WindowSeconds
      invariant Evict(r, SampleTime, now) == Evict(window, SampleTime, now)
      decreases |r|
    {
      assert SampleTime(r[0]) < now - WindowSeconds;
      r := r[1..];
    }
  }

  /** The `popleft` loop on the request window. */
  method EvictRequests(window: seq<int>, now: int) returns (r: seq<int>)
    ensures r == Evict(window, RequestTime, now)
  {
    r := window;
    while r != [] && r[0] < now - WindowSeconds
      invariant Evict(r, RequestTime, now) == Evict(window, RequestTime, now)
      decreases |r|
    {
      assert RequestTime(r[0]) < now - WindowSeconds;
      r := r[1..];
    }
  }

  class RateLimiter {
    const maxTokens: int
    const maxRequests: int
    var tokenUsage: seq<Sample>
    var requestTimes: seq<int>

    ghost predicate Valid()
      reads this
    {
      |tokenUsage| <= Capacity && |requestTimes| <= Capacity
    }

    constructor (maxTokensPerMinute: int := 900000, maxRequestsPerMinute: int := 15)
      ensures Valid()
      ensures maxTokens == maxTokensPerMinute && maxRequests == maxRequestsPerMinute
      ensures tokenUsage == [] && requestTimes == []
    {
      maxTokens := maxTokensPerMinute;
      maxRequests := maxRequestsPerMinute;
      tokenUsage := [];
      requestTimes := [];
    }

    /**
     * `wait_if_needed(estimated_tokens)` at time `now`: evict both windows, decide
     * the sleeps from the evicted windows, then record `(now, estimated)` and `now`
     * (the time read before sleeping).
     */
    method WaitIfNeeded(now: int, estimated: int := 5000) returns (outcome: Admission)
      requires Valid()
      modifies this
      ensures Valid()
      ensures var tokens := Evict(old(tokenUsage), SampleTime, now);
              var requests := Evict(old(requestTimes), RequestTime, now);
              && outcome == Decide(tokens, requests, now, estimated, maxTokens, maxRequests)
              && (outcome.Admitted? ==> tokenUsage == BoundedAppend(tokens, Sample(now, estimated))
                                        && requestTimes == BoundedAppend(requests, now))
              && (outcome.EmptyWindowFault? ==> tokenUsage == tokens && requestTimes == requests)
    {
      var tokens := EvictSamples(tokenUsage, now);
      var requests := EvictRequests(requestTimes, now);
      outcome := Decide(tokens, requests, now, estimated, maxTokens, maxRequests);
      if outcome.Admitted? {
        tokenUsage := BoundedAppend(tokens, Sample(now, estimated));
        requestTimes := BoundedAppend(requests, now);
      } else {
        tokenUsage, requestTimes := tokens, requests;
      }
    }
  }
}
