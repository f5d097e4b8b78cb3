/** robots.txt handling (scraper/robots.py): the robots.txt location of a
    URL (RFC 9309, section 2.3: "/robots.txt" at the top of the origin), a
    per-origin cache with a time to live, and the allow / crawl-delay answers.
    Fetching and parsing robots.txt are parameters: a fetch gives the parsed
    rules, or None when it failed. */
module Robots {
  import opened Common
  import Security

  /** What RobotFileParser answers for the handler's user agent. */
  datatype RobotsRules = RobotsRules(canFetch: string -> bool, crawlDelay: Option<real>)

  /** CachedRobots. */
  datatype CachedRobots = CachedRobots(rules: RobotsRules, crawlDelay: Option<real>, fetchedAt: real, ttl: int)

  /** RobotsResult. */
  datatype RobotsResult = RobotsResult(allowed: bool, crawlDelay: Option<real>, reason: string)

  const DefaultCacheTtl: int := 3600

  /** _get_cache_key: scheme://netloc. */
  function CacheKey(url: string): (k: string)
    ensures k == Security.UrlParse(url).scheme + "://" + Security.UrlParse(url).netloc
  {
    var p := Security.UrlParse(url);
    p.scheme + "://" + p.netloc
  }

  /** _get_robots_url: the origin followed by "/robots.txt". */
  function RobotsUrl(url: string): (r: string)
    ensures r == CacheKey(url) + "/robots.txt"
  {
    var p := Security.UrlParse(url);
    p.scheme + "://" + p.netloc + "/robots.txt"
  }

  /** Two URLs of one origin share the cache entry and the robots.txt file. */
  lemma SameOriginSameRobots(u1: string, u2: string)
    requires Security.UrlParse(u1).scheme == Security.UrlParse(u2).scheme
    requires Security.UrlParse(u1).netloc == Security.UrlParse(u2).netloc
    ensures CacheKey(u1) == CacheKey(u2) && RobotsUrl(u1) == RobotsUrl(u2)
  {
  }

  /** `if delay: crawl_delay = float(delay)`: a zero delay counts as none. */
  function DelayOf(rules: RobotsRules): (d: Option<real>)
    ensures d.Some? ==> d.value != 0.0 && d == rules.crawlDelay
    ensures rules.crawlDelay.Some? && rules.crawlDelay.value != 0.0 ==> d == rules.crawlDelay
  {
    if rules.crawlDelay.Some? && rules.crawlDelay.value != 0.0 then rules.crawlDelay else None
  }

  function Verdict(allowed: bool, delay: Option<real>): RobotsResult
  {
    RobotsResult(allowed, delay, if allowed then "robots.txt allows" else "robots.txt disallows")
  }

  class RobotsHandler {
    const cacheTtl: int
    var cache: map<string, CachedRobots>

    constructor(cacheTtl: int)
      ensures this.cacheTtl == cacheTtl && cache == map[]
    {
      this.cacheTtl := cacheTtl;
      cache := map[];
    }

    /** _is_cached: present and younger than its time to live. */
    predicate IsCached(key: string, now: real)
      reads this
    {
      key in cache && now - cache[key].fetchedAt < cache[key].ttl as real
    }

    /** check. Without respect for robots.txt: allowed, nothing cached. A
        fresh cache entry answers by itself. Otherwise the fetch decides: a
        failed fetch allows and caches nothing; a successful one is cached
        under the origin with the handler's time to live. */
    method Check(url: string, respectRobots: bool, now: real, fetched: Option<RobotsRules>) returns (r: RobotsResult)
      modifies this
      ensures !respectRobots ==> r == RobotsResult(true, None, "Robots.txt checking disabled") && cache == old(cache)
      ensures respectRobots && old(IsCached(CacheKey(url), now)) ==>
                var c := old(cache)[CacheKey(url)];
                r == Verdict(c.rules.canFetch(url), c.crawlDelay) && cache == old(cache)
      ensures respectRobots && !old(IsCached(CacheKey(url), now)) && fetched.None? ==>
                r == RobotsResult(true, None, "No robots.txt or fetch failed - proceeding") && cache == old(cache)
      ensures respectRobots && !old(IsCached(CacheKey(url), now)) && fetched.Some? ==>
                && cache == old(cache)[CacheKey(url) := CachedRobots(fetched.value, DelayOf(fetched.value), now, cacheTtl)]
                && r == Verdict(fetched.value.canFetch(url), DelayOf(fetched.value))
      ensures !r.allowed ==> respectRobots
    {
      if !respectRobots {
        return RobotsResult(true, None, "Robots.txt checking disabled");
      }
      var key := CacheKey(url);
      if IsCached(key, now) {
        var c := cache[key];
        return Verdict(c.rules.canFetch(url), c.crawlDelay);
      }
      if fetched.None? {
        return RobotsResult(true, None, "No robots.txt or fetch failed - proceeding");
      }
      var rules := fetched.value;
      var delay := DelayOf(rules);
      cache := cache[key := CachedRobots(rules, delay, now, cacheTtl)];
      r := Verdict(rules.canFetch(url), delay);
    }

    /** clear_cache: with a (non-empty) domain, exactly the keys containing it
        are dropped; without one, everything is. */
    method ClearCache(domain: string)
      modifies this
      ensures domain == [] ==> cache == map[]
      ensures domain != [] ==> cache.Keys == set k | k in old(cache) && !Contains(k, domain)
      ensures forall k :: k in cache ==> k in old(cache) && cache[k] == old(cache)[k]
    {
      if domain != [] {
        var doomed := set k | k in cache && Contains(k, domain);
        cache := map k | k in cache && k !in doomed :: cache[k];
      } else {
        cache := map[];
      }
    }

    /** get_crawl_delay: the cached delay of the URL's origin, stale or not. */
    function GetCrawlDelay(url: string): (d: Option<real>)
      reads this
      ensures CacheKey(url) !in cache ==> d.None?
      ensures CacheKey(url) in cache ==> d == cache[CacheKey(url)].crawlDelay
    {
      var key := CacheKey(url);
      if key in cache then cache[key].crawlDelay else None
    }
  }

  /** A check that fetched and cached rules is answered from the cache by an
      immediate second check of the same URL, with the same verdict. */
  method CachedAnswerRepeats(h: RobotsHandler, url: string, now: real, rules: RobotsRules, other: Option<RobotsRules>)
    returns (first: RobotsResult, second: RobotsResult)
    requires h.cacheTtl > 0 && !h.IsCached(CacheKey(url), now)
    modifies h
    ensures first == second
  {
    first := h.Check(url, true, now, Some(rules));
    second := h.Check(url, true, now, other);
  }
}
