/** Rate limiting for scraping (scraper/rate_limiter.py): a sliding window of
    request timestamps per limiter, a global limiter plus one per store, and a
    token bucket. The clock is the parameter `now` (seconds); the asyncio lock
    and sleeps are sequentialised. */
module RateLimiter {
  import opened Common

  // ---------------------------------------------------------------
  // The sliding window, as values
  // ---------------------------------------------------------------

  /** The timestamps later than `cutoff`, in their original order. */
  function Recent(requests: seq<real>, cutoff: real): (r: seq<real>)
    ensures |r| <= |requests|
    ensures forall i :: 0 <= i < |r| ==> r[i] > cutoff && r[i] in requests
    ensures forall i :: 0 <= i < |requests| && requests[i] > cutoff ==> requests[i] in r
    ensures (forall i :: 0 <= i < |requests| ==> requests[i] > cutoff) ==> r == requests
  {
    if requests == [] then []
    else
      var rest := Recent(requests[1..], cutoff);
      assert forall i :: 1 <= i < |requests| ==> requests[i] == requests[1..][i - 1];
      if requests[0] > cutoff then [requests[0]] + rest else rest
  }

  /** The earliest timestamp. */
  function Oldest(requests: seq<real>): (m: real)
    requires requests != []
    ensures m in requests
    ensures forall i :: 0 <= i < |requests| ==> m <= requests[i]
  {
    if |requests| == 1 then requests[0]
    else
      var rest := Oldest(requests[1..]);
      assert forall i :: 1 <= i < |requests| ==> requests[i] == requests[1..][i - 1];
      if requests[0] <= rest then requests[0] else rest
  }

  function MaxReal(a: real, b: real): (r: real)
    ensures r >= a && r >= b && (r == a || r == b)
  {
    if a >= b then a else b
  }

  /** wait_time on an already cleaned window: 0 under the limit, else the time
      until the oldest request leaves the window; None where `min` of an empty
      list raises ValueError (a limit of 0 or less with no requests). */
  function WaitFor(requests: seq<real>, limit: int, window: int, now: real): (w: Option<real>)
    ensures |requests| < limit ==> w == Some(0.0)
    ensures w.None? <==> |requests| >= limit && requests == []
    ensures w.Some? ==> w.value >= 0.0
    ensures w.Some? && w.value > 0.0
            ==> |requests| >= limit && exists i :: 0 <= i < |requests| && w.value == requests[i] + window as real - now
  {
    if |requests| < limit then Some(0.0)
    else if requests == [] then None
    else Some(MaxReal(0.0, Oldest(requests) + window as real - now))
  }

  /** A window that already holds `limit` requests younger than the window
      refuses the next request, and tells the caller to wait. */
  lemma FullWindowRefuses(requests: seq<real>, limit: int, window: int, now: real)
    requires limit >= 1 && |requests| >= limit
    requires forall i :: 0 <= i < |requests| ==> now - (window as real) < requests[i] < now
    ensures !(|Recent(requests, now - window as real)| < limit)
    ensures WaitFor(Recent(requests, now - window as real), limit, window, now).Some?
    ensures WaitFor(Recent(requests, now - window as real), limit, window, now).value > 0.0
  {
    var kept := Recent(requests, now - window as real);
    assert kept == requests;
    var o := Oldest(requests);
    assert o + window as real - now > 0.0;
  }

  // ---------------------------------------------------------------
  // RateLimitState
  // ---------------------------------------------------------------

  class RateLimitState {
    var requests: seq<real>
    var limit: int
    var windowSeconds: int

    constructor(limit: int, windowSeconds: int)
      ensures this.requests == [] && this.limit == limit && this.windowSeconds == windowSeconds
    {
      this.requests := [];
      this.limit := limit;
      this.windowSeconds := windowSeconds;
    }

    function Cutoff(now: real): real
      reads this
    {
      now - windowSeconds as real
    }

    /** clean_old_requests: keeps exactly the timestamps inside the window. */
    method CleanOldRequests(now: real)
      modifies this
      ensures requests == Recent(old(requests), old(Cutoff(now)))
      ensures forall i :: 0 <= i < |requests| ==> requests[i] > now - windowSeconds as real
      ensures limit == old(limit) && windowSeconds == old(windowSeconds)
    {
      requests := Recent(requests, Cutoff(now));
    }

    /** can_request: cleans, then compares the count with the limit. */
    method CanRequest(now: real) returns (allowed: bool)
      modifies this
      ensures requests == Recent(old(requests), old(Cutoff(now)))
      ensures allowed <==> |requests| < limit
      ensures limit == old(limit) && windowSeconds == old(windowSeconds)
    {
      CleanOldRequests(now);
      allowed := |requests| < limit;
    }

    /** record_request: appends the current time. */
    method RecordRequest(now: real)
      modifies this
      ensures requests == old(requests) + [now]
      ensures limit == old(limit) && windowSeconds == old(windowSeconds)
    {
      requests := requests + [now];
    }

    /** wait_time: cleans, then WaitFor; None stands for the ValueError. */
    method WaitTime(now: real) returns (w: Option<real>)
      modifies this
      ensures requests == Recent(old(requests), old(Cutoff(now)))
      ensures w == WaitFor(requests, limit, windowSeconds, now)
      ensures limit == old(limit) && windowSeconds == old(windowSeconds)
    {
      CleanOldRequests(now);
      if |requests| < limit {
        return Some(0.0);
      }
      if requests == [] {
        return None;
      }
      var oldest := Oldest(requests);
      w := Some(MaxReal(0.0, oldest + windowSeconds as real - now));
    }
  }

  // ---------------------------------------------------------------
  // RateLimiter
  // ---------------------------------------------------------------

  /** The longest wait acquire accepts before raising RateLimitError. */
  const MaxAcquireWait: real := 30.0

  /** The outcome of acquire: success after waiting, RateLimitError with its
      retry_after, or the ValueError of an empty window with no capacity. */
  datatype Acquired = Granted(waited: real) | LimitExceeded(retryAfter: int) | NoCapacity

  class RateLimiter {
    const global: RateLimitState
    const windowSeconds: int
    var stores: map<string, RateLimitState>

    /** The global state and the per-store states are distinct objects. */
    ghost predicate Valid()
      reads this
    {
      global !in stores.Values
      && forall d1, d2 :: d1 in stores && d2 in stores && d1 != d2 ==> stores[d1] != stores[d2]
    }

    constructor(globalLimit: int, windowSeconds: int)
      ensures Valid() && stores == map[]
      ensures global.limit == globalLimit && global.windowSeconds == windowSeconds && global.requests == []
      ensures this.windowSeconds == windowSeconds
    {
      global := new RateLimitState(globalLimit, windowSeconds);
      this.windowSeconds := windowSeconds;
      stores := map[];
    }

    /** set_store_limit: a new domain gets a fresh state whose window is 60
        seconds whatever the limiter's own window; a known domain only has
        its limit changed. */
    method SetStoreLimit(domain: string, limit: int)
      requires Valid()
      modifies this, stores.Values
      ensures Valid()
      ensures domain in stores && stores[domain].limit == limit
      ensures domain !in old(stores) ==> fresh(stores[domain]) && stores[domain].requests == [] && stores[domain].windowSeconds == 60
      ensures domain in old(stores) ==> (stores == old(stores)
              && stores[domain].requests == old(stores[domain].requests)
              && stores[domain].windowSeconds == old(stores[domain].windowSeconds))
      ensures forall d :: d in old(stores) && d != domain ==> d in stores && stores[d] == old(stores[d])
      ensures forall s :: s in old(stores.Values) && s != stores[domain] ==> unchanged(s)
      ensures forall s :: s in stores.Values ==> s in old(stores.Values) || fresh(s)
    {
      if domain !in stores {
        var s := new RateLimitState(limit, 60);
        stores := stores[domain := s];
      } else {
        stores[domain].limit := limit;
      }
    }

    /** The defaultdict lookup `self._stores[domain]`: a missing domain gets
        a fresh state with limit 10 and the limiter's window. */
    method StoreFor(domain: string) returns (s: RateLimitState)
      requires Valid()
      modifies this
      ensures Valid()
      ensures domain in stores && s == stores[domain]
      ensures domain in old(stores) ==> stores == old(stores)
      ensures domain !in old(stores) ==> (fresh(s) && stores == old(stores)[domain := s]
              && s.requests == [] && s.limit == 10 && s.windowSeconds == windowSeconds)
    {
      if domain in stores {
        s := stores[domain];
      } else {
        s := new RateLimitState(10, windowSeconds);
        stores := stores[domain := s];
      }
    }

    /** acquire, sequentialised: both windows are cleaned; a combined wait over
        30 seconds raises RateLimitError and records nothing; otherwise the
        sleep ends at now + wait and that instant is recorded exactly once in
        the global window and once in the store's. */
    method Acquire(domain: string, now: real) returns (out: Acquired)
      requires Valid()
      modifies this, global, stores.Values
      ensures Valid()
      ensures global.limit == old(global.limit) && global.windowSeconds == old(global.windowSeconds)
      ensures out.NoCapacity? ==> (WaitFor(Recent(old(global.requests), old(global.Cutoff(now))), global.limit, global.windowSeconds, now).None?
              || (domain in stores && stores[domain].requests == []))
      ensures !out.NoCapacity? ==> domain in stores
      ensures out.Granted? ==> 0.0 <= out.waited <= MaxAcquireWait
      ensures out.Granted? ==> global.requests == Recent(old(global.requests), old(global.Cutoff(now))) + [now + out.waited]
      ensures out.LimitExceeded? ==> global.requests == Recent(old(global.requests), old(global.Cutoff(now)))
      ensures out.LimitExceeded? ==> out.retryAfter >= 30
      ensures out.Granted? && domain in old(stores)
              ==> stores == old(stores) && stores[domain].requests == Recent(old(stores[domain].requests), old(stores[domain].Cutoff(now))) + [now + out.waited]
      ensures out.Granted? && domain !in old(stores)
              ==> fresh(stores[domain]) && stores[domain].requests == [now + out.waited]
      ensures out.LimitExceeded? && domain in old(stores)
              ==> stores[domain].requests == Recent(old(stores[domain].requests), old(stores[domain].Cutoff(now)))
      ensures forall d :: d in old(stores) && d != domain ==> d in stores && stores[d] == old(stores[d]) && unchanged(stores[d])
      ensures stores == old(stores) || (domain !in old(stores) && domain in stores && stores == old(stores)[domain := stores[domain]] && fresh(stores[domain]))
    {
      var globalWait := global.WaitTime(now);
      if globalWait.None? {
        out := NoCapacity;
      } else {
        out := AcquireStore(domain, now, globalWait.value);
      }
    }

    /** acquire once the global wait is known: the store's wait, the
        30-second check on the larger wait, and the two records. */
    method AcquireStore(domain: string, now: real, globalWait: real) returns (out: Acquired)
      requires Valid() && globalWait >= 0.0
      modifies this, global, stores.Values
      ensures Valid()
      ensures global.limit == old(global.limit) && global.windowSeconds == old(global.windowSeconds)
      ensures out.NoCapacity? ==> domain in stores && stores[domain].requests == []
      ensures !out.NoCapacity? ==> domain in stores
      ensures out.Granted? ==> globalWait <= out.waited <= MaxAcquireWait
      ensures out.Granted? ==> global.requests == old(global.requests) + [now + out.waited]
      ensures !out.Granted? ==> global.requests == old(global.requests)
      ensures out.LimitExceeded? ==> out.retryAfter >= 30
      ensures out.Granted? && domain in old(stores)
              ==> stores == old(stores) && stores[domain].requests == Recent(old(stores[domain].requests), old(stores[domain].Cutoff(now))) + [now + out.waited]
      ensures out.Granted? && domain !in old(stores)
              ==> fresh(stores[domain]) && stores[domain].requests == [now + out.waited]
      ensures out.LimitExceeded? && domain in old(stores)
              ==> stores[domain].requests == Recent(old(stores[domain].requests), old(stores[domain].Cutoff(now)))
      ensures forall d :: d in old(stores) && d != domain ==> d in stores && stores[d] == old(stores[d]) && unchanged(stores[d])
      ensures stores == old(stores) || (domain !in old(stores) && domain in stores && stores == old(stores)[domain := stores[domain]] && fresh(stores[domain]))
    {
      var s := StoreFor(domain);
      out := AcquireFrom(s, now, globalWait);
    }

    /** The store part of acquire on the store's own state `s`: its wait,
        the 30-second check on the larger wait, and the two records. */
    method AcquireFrom(s: RateLimitState, now: real, globalWait: real) returns (out: Acquired)
      requires s != global && globalWait >= 0.0
      modifies global, s
      ensures global.limit == old(global.limit) && global.windowSeconds == old(global.windowSeconds)
      ensures out.NoCapacity? ==> s.requests == []
      ensures out.Granted? ==> globalWait <= out.waited <= MaxAcquireWait
      ensures out.Granted? ==> global.requests == old(global.requests) + [now + out.waited]
      ensures !out.Granted? ==> global.requests == old(global.requests)
      ensures out.LimitExceeded? ==> out.retryAfter >= 30
      ensures !out.NoCapacity? ==> s.requests == Recent(old(s.requests), old(s.Cutoff(now)))
                                                 + (if out.Granted? then [now + out.waited] else [])
      ensures s.limit == old(s.limit) && s.windowSeconds == old(s.windowSeconds)
    {
      var storeWait := s.WaitTime(now);
      if storeWait.None? {
        out := NoCapacity;
      } else {
        var wait := MaxReal(globalWait, storeWait.value);
        if wait > 0.0 && wait > MaxAcquireWait {
          out := LimitExceeded(wait.Floor);
        } else {
          global.RecordRequest(now + wait);
          s.RecordRequest(now + wait);
          out := Granted(wait);
        }
      }
    }

    /** check: the global permission and then, only if that holds, the store's
        (the short-circuit leaves an unknown store uncreated). */
    method Check(domain: string, now: real) returns (allowed: bool)
      requires Valid()
      modifies this, global, stores.Values
      ensures Valid()
      ensures global.requests == Recent(old(global.requests), old(global.Cutoff(now)))
      ensures allowed <==> |global.requests| < global.limit && domain in stores && |stores[domain].requests| < stores[domain].limit
      ensures !(|global.requests| < global.limit) ==> stores == old(stores)
      ensures domain in old(stores) && |global.requests| < global.limit
              ==> domain in stores && stores[domain].requests == Recent(old(stores[domain].requests), old(stores[domain].Cutoff(now)))
      ensures forall d :: d in old(stores) && d != domain ==> d in stores && stores[d] == old(stores[d]) && unchanged(stores[d])
    {
      allowed := global.CanRequest(now);
      if allowed {
        var s := StoreFor(domain);
        allowed := s.CanRequest(now);
      }
    }

    /** get_wait_time: the larger of the two waits. */
    method GetWaitTime(domain: string, now: real) returns (w: Option<real>)
      requires Valid()
      modifies this, global, stores.Values
      ensures Valid()
      ensures global.requests == Recent(old(global.requests), old(global.Cutoff(now)))
      ensures w.None? <==> (WaitFor(global.requests, global.limit, global.windowSeconds, now).None?
              || (domain in stores && WaitFor(stores[domain].requests, stores[domain].limit, stores[domain].windowSeconds, now).None?))
      ensures w.Some? ==> (domain in stores
              && w.value == MaxReal(WaitFor(global.requests, global.limit, global.windowSeconds, now).value,
                                    WaitFor(stores[domain].requests, stores[domain].limit, stores[domain].windowSeconds, now).value))
      ensures forall d :: d in old(stores) && d != domain ==> d in stores && stores[d] == old(stores[d]) && unchanged(stores[d])
    {
      var g := global.WaitTime(now);
      if g.None? {
        return None;
      }
      var s := StoreFor(domain);
      var sw := s.WaitTime(now);
      if sw.None? {
        return None;
      }
      w := Some(MaxReal(g.value, sw.value));
    }
  }

  // ---------------------------------------------------------------
  // TokenBucket
  // ---------------------------------------------------------------

  /** The level after refilling for `elapsed` seconds, capped at capacity. */
  function Refilled(tokens: real, capacity: int, rate: real, elapsed: real): (t: real)
    ensures t <= capacity as real
    ensures tokens <= capacity as real && elapsed >= 0.0 && rate >= 0.0 ==> t >= tokens
  {
    var more := tokens + elapsed * rate;
    assert elapsed >= 0.0 && rate >= 0.0 ==> elapsed * rate >= 0.0 by {
      if elapsed >= 0.0 && rate >= 0.0 { MulNonNegative(elapsed, rate); }
    }
    if more < capacity as real then more else capacity as real
  }

  lemma MulNonNegative(a: real, b: real)
    requires a >= 0.0 && b >= 0.0
    ensures a * b >= 0.0
  {
  }

  class TokenBucket {
    const rate: real
    const capacity: int
    var tokens: real
    var lastUpdate: real

    constructor(rate: real, capacity: int, now: real)
      ensures this.rate == rate && this.capacity == capacity
      ensures tokens == capacity as real && lastUpdate == now
    {
      this.rate := rate;
      this.capacity := capacity;
      tokens := capacity as real;
      lastUpdate := now;
    }

    /** _add_tokens: refill for the time since the last update. */
    method AddTokens(now: real)
      modifies this
      ensures tokens == Refilled(old(tokens), capacity, rate, now - old(lastUpdate))
      ensures tokens <= capacity as real
      ensures lastUpdate == now
    {
      tokens := Refilled(tokens, capacity, rate, now - lastUpdate);
      lastUpdate := now;
    }

    /** try_acquire: refills, then takes `n` tokens iff that many are there;
        a successful take never leaves the bucket negative. */
    method TryAcquire(n: int, now: real) returns (acquired: bool)
      modifies this
      ensures acquired <==> Refilled(old(tokens), capacity, rate, now - old(lastUpdate)) >= n as real
      ensures acquired ==> tokens == Refilled(old(tokens), capacity, rate, now - old(lastUpdate)) - n as real && tokens >= 0.0
      ensures !acquired ==> tokens == Refilled(old(tokens), capacity, rate, now - old(lastUpdate))
      ensures lastUpdate == now
    {
      AddTokens(now);
      if tokens >= n as real {
        tokens := tokens - n as real;
        return true;
      }
      return false;
    }
  }

  /** From a level within [0, capacity], a refill over a forward clock and a
      successful take of a non-negative count keep the level within bounds. */
  lemma TokenLevelStaysInBounds(tokens: real, capacity: int, rate: real, elapsed: real, n: int)
    requires 0.0 <= tokens <= capacity as real && elapsed >= 0.0 && rate >= 0.0 && n >= 0
    requires Refilled(tokens, capacity, rate, elapsed) >= n as real
    ensures 0.0 <= Refilled(tokens, capacity, rate, elapsed) - n as real <= capacity as real
  {
  }
}
