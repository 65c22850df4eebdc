/** The fixed-window limiter: one counter per key, expiring a window after its first hit.  Times and the windows of
    the specification are in milliseconds, as Redis keeps them; the code asks for whole seconds. */
module RateLimit {
  import opened Basics

  /** A live counter and the time it expires at; Redis keeps a key without an expiry forever. */
  datatype Counter = Counter(n: nat, expiry: Option<int>)

  /** The counter as Redis shows it at `now`. */
  function Current(c: Option<Counter>, now: int): Option<Counter> {
    if c.Some? && c.value.expiry.Some? && c.value.expiry.value <= now then None else c
  }

  function AfterHit(c: Option<Counter>, window: int, now: int): Counter {
    match Current(c, now)
    case None => Counter(1, Some(now + window))
    case Some(live) => Counter(live.n + 1, live.expiry)
  }

  /** The answer of TTL, the remaining time rounded to whole seconds. */
  function Ttl(remaining: int): int {
    (remaining + 500) / 1000
  }

  /** Every counter there is has been hit and will expire. */
  predicate Expires(c: Option<Counter>) {
    c.Some? ==> c.value.n >= 1 && c.value.expiry.Some?
  }

  class Limiter {
    var counter: Option<Counter>

    constructor ()
      ensures counter == None
    {
      counter := None;
    }

    /** `_HIT_LUA`: count, and set the expiry with the first hit of a window. */
    method Hit(windowSeconds: int, now: int) returns (count: nat, ttl: int)
      requires Expires(counter) && windowSeconds >= 1
      modifies this
      ensures counter == Some(AfterHit(old(counter), 1000 * windowSeconds, now)) && Expires(counter)
      ensures if old(counter).Some? && old(counter).value.expiry.value > now
              then count == old(counter).value.n + 1 && counter.value.expiry == old(counter).value.expiry
              else count == 1 && counter.value.expiry == Some(now + 1000 * windowSeconds)
      ensures count == counter.value.n && counter.value.expiry.value > now && ttl == Ttl(counter.value.expiry.value - now)
    {
      counter := Current(counter, now);
      var n := if counter.Some? then counter.value.n + 1 else 1;
      if n == 1 {
        counter := Some(Counter(n, Some(now + 1000 * windowSeconds)));
      } else {
        counter := Some(Counter(n, counter.value.expiry));
      }
      return n, Ttl(counter.value.expiry.value - now);
    }

    /** `enforce_rate_limit`: `None` lets the request through, otherwise the seconds to wait.  The wait ends at most half
        a second before the counter does, and reaches its end exactly if the remaining time was not rounded down. */
    method Enforce(limit: nat, windowSeconds: int, now: int) returns (retryAfter: Option<int>)
      requires Expires(counter) && windowSeconds >= 1
      modifies this
      ensures counter == Some(AfterHit(old(counter), 1000 * windowSeconds, now)) && Expires(counter)
      ensures retryAfter.None? <==> counter.value.n <= limit
      ensures retryAfter.Some? ==>
        var remaining := counter.value.expiry.value - now;
        && retryAfter.value >= 1 && Current(counter, now + 1000 * retryAfter.value + 499).None?
        && (Current(counter, now + 1000 * retryAfter.value).None? <==> remaining < 500 || !(1 <= remaining % 1000 < 500))
        && (remaining >= 500 ==> 1000 * retryAfter.value <= remaining + 500)
        && (remaining < 500 ==> retryAfter.value == windowSeconds)
    {
      var count, ttl := Hit(windowSeconds, now);
      if count > limit {
        return Some(if ttl > 0 then ttl else windowSeconds);
      }
      return None;
    }

    /** A whole trace of requests for one key, and how many of them get through in a given stretch of time. */
    method EnforceAll(limit: nat, windowSeconds: int, times: seq<int>, from: int) returns (granted: nat)
      requires counter == None && windowSeconds >= 1 && Ascending(times)
      modifies this
      ensures Expires(counter)
      ensures granted == GrantedIn(None, limit, 1000 * windowSeconds, times, from)
      ensures granted <= if limit == 0 then 0 else 2 * limit - 1
    {
      granted := 0;
      ghost var window := 1000 * windowSeconds;
      for n := 0 to |times|
        invariant Expires(counter)
        invariant GrantedIn(None, limit, window, times, from) == granted + GrantedIn(counter, limit, window, times[n..], from)
      {
        ghost var rest := times[n..];
        assert rest[1..] == times[n + 1..];
        var retryAfter := Enforce(limit, windowSeconds, times[n]);
        if retryAfter.None? && from <= times[n] < from + 1000 * windowSeconds {
          granted := granted + 1;
        }
      }
      NeverTwiceTheLimit(None, limit, window, times, from);
    }
  }

  predicate Ascending(times: seq<int>) {
    forall i, j :: 0 <= i < j < |times| ==> times[i] <= times[j]
  }

  /** Requests let through in `[from, from + window)`. */
  function GrantedIn(c: Option<Counter>, limit: nat, window: int, times: seq<int>, from: int): nat
    decreases times
  {
    if times == [] then 0
    else
      var after := AfterHit(c, window, times[0]);
      (if after.n <= limit && from <= times[0] < from + window then 1 else 0)
      + GrantedIn(Some(after), limit, window, times[1..], from)
  }

  /** What can still be let through in the stretch, by where the running window ends. */
  function Room(c: Option<Counter>, limit: nat, window: int, now: int, from: int): int
    requires Expires(c)
  {
    if now >= from + window then 0
    else if c.None? || c.value.expiry.value <= from then MaxInt(0, 2 * limit - 1)
    else if c.value.expiry.value < from + window then MaxInt(0, limit - c.value.n) + limit
    else MaxInt(0, limit - c.value.n)
  }

  lemma {:induction false} RoomSuffices(c: Option<Counter>, limit: nat, window: int, times: seq<int>, now: int, from: int)
    requires Expires(c) && window >= 1 && Ascending(times) && (times != [] ==> now <= times[0])
    ensures GrantedIn(c, limit, window, times, from) <= Room(c, limit, window, now, from)
    decreases times
  {
    if times != [] {
      RoomSuffices(Some(AfterHit(c, window, times[0])), limit, window, times[1..], times[0], from);
    }
  }

  /** Any stretch of one window length sees fewer than twice the limit of granted requests. */
  lemma NeverTwiceTheLimit(c: Option<Counter>, limit: nat, window: int, times: seq<int>, from: int)
    requires Expires(c) && window >= 1 && Ascending(times)
    ensures GrantedIn(c, limit, window, times, from) <= if limit == 0 then 0 else 2 * limit - 1
  {
    RoomSuffices(c, limit, window, times, if times == [] then 0 else times[0], from);
  }

  function Burst(k: nat, t: int): seq<int> {
    seq(k, _ => t)
  }

  /** Hits of one moment within a live window count up together. */
  lemma {:induction false} BurstCounts(n: nat, e: int, limit: nat, window: int, k: nat, t: int, rest: seq<int>, from: int)
    requires t < e && from <= t < from + window && n + k <= limit
    ensures GrantedIn(Some(Counter(n, Some(e))), limit, window, Burst(k, t) + rest, from)
         == k + GrantedIn(Some(Counter(n + k, Some(e))), limit, window, rest, from)
    decreases k
  {
    if k == 0 {
      assert Burst(0, t) + rest == rest;
    } else {
      var times := Burst(k, t) + rest;
      assert times[0] == t && times[1..] == Burst(k - 1, t) + rest;
      BurstCounts(n + 1, e, limit, window, k - 1, t, rest, from);
    }
  }

  /** The bound is sharp: one early request, then a burst just before and a burst just after the boundary. */
  lemma BoundIsReached(limit: nat, window: int) returns (times: seq<int>)
    requires limit >= 1 && window >= 2
    ensures Ascending(times) && GrantedIn(None, limit, window, times, 1) == 2 * limit - 1
  {
    var late := Burst(limit, window);
    var early := Burst(limit - 1, window - 1);
    times := [0] + (early + late);
    assert times[1..] == early + late;
    BurstCounts(1, window, limit, window, limit - 1, window - 1, late, 1);
    assert late[0] == window && late[1..] == Burst(limit - 1, window);
    assert Burst(limit - 1, window) + [] == Burst(limit - 1, window);
    BurstCounts(1, 2 * window, limit, window, limit - 1, window, [], 1);
  }
}
