/**
 * checkRateLimit of the training-plan endpoint: a sliding one-minute window of
 * request timestamps per client key, at most 20 requests per window. The
 * store is the module-level map of the serverless function; the clock
 * (Date.now) is a parameter.
 */
module RateLimit {

  const RateLimitWindow: int := 60 * 1000
  const RateLimitMaxRequests: nat := 20

  /** A falsy address is bucketed under 'unknown'. */
  function ClientKey(ip: string): (key: string)
    ensures key != []
    ensures ip != [] ==> key == ip
  {
    if ip == [] then "unknown" else ip
  }

  /** The stored list of a key; a key never seen counts as an empty list. */
  function Stored(requests: map<string, seq<int>>, key: string): seq<int>
  {
    if key in requests then requests[key] else []
  }

  /** `list.filter(time => now - time < RATE_LIMIT_WINDOW)`: the timestamps still inside the window, in order. */
  function InWindow(ts: seq<int>, now: int): (r: seq<int>)
    ensures |r| <= |ts|
    ensures forall t :: t in r <==> t in ts && now - t < RateLimitWindow
  {
    if ts == [] then []
    else
      var last := ts[|ts| - 1];
      InWindow(ts[..|ts| - 1], now) + (if now - last < RateLimitWindow then [last] else [])
  }

  /** A list whose timestamps are all inside the window is kept whole. */
  lemma {:induction false} InWindowKeepsRecent(ts: seq<int>, now: int)
    requires forall i :: 0 <= i < |ts| ==> now - ts[i] < RateLimitWindow
    ensures InWindow(ts, now) == ts
  {
    if ts != [] {
      InWindowKeepsRecent(ts[..|ts| - 1], now);
      assert ts[..|ts| - 1] + [ts[|ts| - 1]] == ts;
    }
  }

  /** Filtering twice with the same clock changes nothing more. */
  lemma InWindowIdempotent(ts: seq<int>, now: int)
    ensures InWindow(InWindow(ts, now), now) == InWindow(ts, now)
  {
    var r := InWindow(ts, now);
    forall i | 0 <= i < |r| ensures now - r[i] < RateLimitWindow {
      assert r[i] in r;
    }
    InWindowKeepsRecent(r, now);
  }

  /** Every stored list holds at most the allowed number of requests. */
  ghost predicate Bounded(requests: map<string, seq<int>>)
  {
    forall k :: k in requests ==> |requests[k]| <= RateLimitMaxRequests
  }

  /**
   * One call of checkRateLimit on the whole store: the verdict and the store
   * afterwards. Refused exactly when 20 or more stored timestamps of the key
   * lie inside the window; then the store is left as it was, even unpruned.
   * Accepted, the key's list becomes its in-window timestamps followed by
   * `now`. No other key is ever touched.
   */
  function RateLimitStep(requests: map<string, seq<int>>, ip: string, now: int)
    : (r: (bool, map<string, seq<int>>))
    ensures var key := ClientKey(ip);
            r.0 <==> |InWindow(Stored(requests, key), now)| < RateLimitMaxRequests
    ensures !r.0 ==> r.1 == requests
    ensures var key := ClientKey(ip);
            r.0 ==> key in r.1 && r.1[key] == InWindow(Stored(requests, key), now) + [now]
    ensures var key := ClientKey(ip);
            r.0 ==> |r.1[key]| <= RateLimitMaxRequests && r.1[key][|r.1[key]| - 1] == now
    ensures forall k :: k != ClientKey(ip) ==> (k in r.1 <==> k in requests) && (k in requests ==> r.1[k] == requests[k])
  {
    var key := ClientKey(ip);
    var kept := InWindow(Stored(requests, key), now);
    if |kept| >= RateLimitMaxRequests then (false, requests)
    else (true, requests[key := kept + [now]])
  }

  /** No call lets any key exceed 20 stored timestamps. */
  lemma RateLimitStepBounded(requests: map<string, seq<int>>, ip: string, now: int)
    requires Bounded(requests)
    ensures Bounded(RateLimitStep(requests, ip, now).1)
  {
  }

  /** Once a key holds 20 in-window requests, every further call inside the window is refused. */
  lemma {:induction false} SaturatedKeyRefused(requests: map<string, seq<int>>, ip: string, now: int)
    requires var s := Stored(requests, ClientKey(ip));
             |s| >= RateLimitMaxRequests && forall i :: 0 <= i < |s| ==> now - s[i] < RateLimitWindow
    ensures !RateLimitStep(requests, ip, now).0
  {
    InWindowKeepsRecent(Stored(requests, ClientKey(ip)), now);
  }

  /** The in-memory store of the serverless instance. */
  class RateLimiter {
    var requests: map<string, seq<int>>

    /** A cold start: no key has a history. */
    constructor()
      ensures requests == map[]
    {
      requests := map[];
    }

    /** checkRateLimit(ip) at time `now`. */
    method CheckRateLimit(ip: string, now: int) returns (allowed: bool)
      modifies this
      ensures (allowed, requests) == RateLimitStep(old(requests), ip, now)
    {
      var key := if ip == [] then "unknown" else ip;
      ghost var before := requests;
      if key !in requests {
        requests := requests[key := []];
      }
      var stored := requests[key];
      assert stored == Stored(before, ClientKey(ip));
      var kept: seq<int> := [];
      var i := 0;
      while i < |stored|
        invariant 0 <= i <= |stored|
        invariant kept == InWindow(stored[..i], now)
      {
        assert stored[..i + 1][..i] == stored[..i];
        if now - stored[i] < RateLimitWindow {
          kept := kept + [stored[i]];
        }
        i := i + 1;
      }
      assert stored[..|stored|] == stored;
      if |kept| >= RateLimitMaxRequests {
        return false;
      }
      kept := kept + [now];
      requests := requests[key := kept];
      assert requests == before[key := kept];
      return true;
    }
  }
}
