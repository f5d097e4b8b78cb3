/** The retry policy of scraper/retry.py: the category table, the per-category
    retry budget and back-off delays, error categorisation, and the retry loop
    of RetryHandler.execute. Randomness (the jitter draw) and the calls being
    retried are parameters. */
module Retry {
  import opened Common
  import opened Errors

  datatype ErrorCategory =
    | Network | Timeout | ServerError | RateLimited | Forbidden | NotFound | Blocked | ParseErr

  /** The enum's string value, the key of the delay table. */
  function CategoryValue(c: ErrorCategory): string
  {
    match c
    case Network => "network_error"
    case Timeout => "timeout"
    case ServerError => "server_error"
    case RateLimited => "rate_limited"
    case Forbidden => "forbidden"
    case NotFound => "not_found"
    case Blocked => "blocked"
    case ParseErr => "parse_error"
  }

  datatype RetryConfig = RetryConfig(maxRetries: int, delays: map<string, seq<real>>, jitter: real)

  /** RETRY_DELAYS. */
  const RetryDelays: map<string, seq<real>> := map[
    "network_error" := [2.0, 4.0, 8.0],
    "timeout" := [2.0, 4.0, 8.0],
    "server_error" := [2.0, 4.0, 8.0],
    "rate_limited" := [5.0, 10.0, 20.0],
    "forbidden" := [5.0]]

  const MaxRetries: int := 3

  const DefaultConfig: RetryConfig := RetryConfig(MaxRetries, RetryDelays, 0.2)

  /** Every list in the delay table is non-empty (an empty one makes get_delay
      index out of range). */
  predicate DelaysWellFormed(config: RetryConfig)
  {
    forall k :: k in config.delays ==> |config.delays[k]| > 0
  }

  /** The delay list of a category: its table entry, or [2, 4, 8] when absent. */
  function DelayList(config: RetryConfig, c: ErrorCategory): (l: seq<real>)
    requires DelaysWellFormed(config)
    ensures |l| > 0
    ensures CategoryValue(c) !in config.delays ==> l == [2.0, 4.0, 8.0]
  {
    var key := CategoryValue(c);
    if key in config.delays then config.delays[key] else [2.0, 4.0, 8.0]
  }

  /** The un-jittered delay: the attempt-th entry, the last one once attempts run past it. */
  function BaseDelay(config: RetryConfig, c: ErrorCategory, attempt: nat): (d: real)
    requires DelaysWellFormed(config)
    ensures d in DelayList(config, c)
    ensures attempt < |DelayList(config, c)| ==> d == DelayList(config, c)[attempt]
    ensures attempt >= |DelayList(config, c)| ==> d == DelayList(config, c)[|DelayList(config, c)| - 1]
  {
    var l := DelayList(config, c);
    l[Min(attempt, |l| - 1)]
  }

  /** get_delay; `draw` in [-1, 1] is the random draw, scaled by the jitter range. */
  function GetDelay(config: RetryConfig, c: ErrorCategory, attempt: nat, draw: real): (d: real)
    requires DelaysWellFormed(config)
    requires -1.0 <= draw <= 1.0
    ensures WithinJitter(BaseDelay(config, c, attempt), config.jitter, d)
  {
    var base := BaseDelay(config, c, attempt);
    JitterBounds(base, config.jitter, draw);
    Jittered(base, config.jitter, draw)
  }

  /** base + uniform(-base·jitter, base·jitter), the draw rescaled to [-1, 1]. */
  function Jittered(base: real, jitter: real, draw: real): real
  {
    base + (base * jitter) * draw
  }

  /** d lies within base ± base·jitter. */
  predicate WithinJitter(base: real, jitter: real, d: real)
  {
    var range := base * jitter;
    (range >= 0.0 ==> base - range <= d <= base + range)
    && (range < 0.0 ==> base + range <= d <= base - range)
  }

  lemma JitterBounds(base: real, jitter: real, draw: real)
    requires -1.0 <= draw <= 1.0
    ensures WithinJitter(base, jitter, Jittered(base, jitter, draw))
  {
    var range := base * jitter;
    var m := if range >= 0.0 then range else -range;
    MulNonNeg(m, 1.0 - draw);
    MulNonNeg(m, 1.0 + draw);
    assert m * (1.0 - draw) == m - m * draw;
    assert m * (1.0 + draw) == m + m * draw;
  }

  lemma MulNonNeg(x: real, y: real)
    requires x >= 0.0 && y >= 0.0
    ensures x * y >= 0.0
  {
  }

  /** How many retries a category gets: the budget should_retry encodes. */
  function RetryLimit(config: RetryConfig, c: ErrorCategory): (n: nat)
    ensures n <= Max(config.maxRetries, 2)
  {
    match c
    case NotFound => 0
    case Forbidden => 1
    case Blocked => 2
    case ParseErr => 2
    case _ => if config.maxRetries > 0 then config.maxRetries else 0
  }

  function ShouldRetry(config: RetryConfig, c: ErrorCategory, attempt: int): (r: bool)
    ensures c == NotFound ==> !r
    ensures attempt >= 0 ==> (r <==> attempt < RetryLimit(config, c))
    ensures r ==> attempt < Max(config.maxRetries, 2)
  {
    if c == NotFound then false
    else if c == Forbidden then attempt < 1
    else if c == Blocked then attempt < 2
    else if c == ParseErr then attempt < 2
    else attempt < config.maxRetries
  }

  /** categorize_error. */
  function CategorizeError(e: Error): (r: ErrorCategory)
    ensures e.kind == TimeoutError ==> r == Timeout
    ensures e.kind == NetworkError ==> r == Network
    ensures e.kind == NotFoundError ==> r == NotFound
    ensures e.kind == BlockedError ==> (r == RateLimited || r == Forbidden || r == Blocked)
    ensures r == Blocked ==> e.kind == BlockedError
    ensures r == ParseErr <==> IsScraperError(e) && e.kind !in {TimeoutError, NetworkError, NotFoundError, BlockedError}
    ensures r == ServerError ==> !IsScraperError(e)
  {
    match e.kind
    case TimeoutError => Timeout
    case NetworkError => Network
    case NotFoundError => NotFound
    case BlockedError =>
      if Contains(e.message, "429") || Contains(LowerStr(e.message), "rate") then RateLimited
      else if Contains(e.message, "403") then Forbidden
      else Blocked
    case OtherError => CategorizeByText(LowerStr(e.message))
    case _ => ParseErr
  }

  /** A blocked error whose message mentions 429 or, in any case, "rate" is
      rate limiting. */
  lemma RateLimitedCategory(e: Error)
    requires e.kind == BlockedError && (Contains(e.message, "429") || Contains(LowerStr(e.message), "rate"))
    ensures CategorizeError(e) == RateLimited
  {
  }

  /** The substring tests for exceptions outside the ScraperError family. */
  function CategorizeByText(text: string): (r: ErrorCategory)
    ensures r in {Timeout, Network, NotFound, Forbidden, RateLimited, ServerError}
    ensures Contains(text, "timeout") ==> r == Timeout
    ensures r == ServerError ==> Contains(text, "50") && !Contains(text, "429")
  {
    if Contains(text, "timeout") then Timeout
    else if Contains(text, "connection") || Contains(text, "network") then Network
    else if Contains(text, "404") then NotFound
    else if Contains(text, "403") then Forbidden
    else if Contains(text, "429") then RateLimited
    else if Contains(text, "50") then ServerError
    else Network
  }

  // ---------------------------------------------------------------
  // _build_message
  // ---------------------------------------------------------------

  function ErrorText(e: Option<Error>): string
  {
    match e
    case None => "None"
    case Some(x) => x.message
  }

  /** The message table; three entries mention the attempt count. */
  function CategoryMessage(c: ErrorCategory, attempts: nat): string
  {
    var n := NatToString(attempts);
    match c
    case Network => "Network error after " + n + " attempts. Please check your connection."
    case Timeout => "Request timed out after " + n + " attempts. The website may be slow."
    case ServerError => "Server error after " + n + " attempts. The website may be having issues."
    case RateLimited => "Rate limited by the website. Please wait before trying again."
    case Forbidden => "Access denied by the website. This product may require login."
    case NotFound => "Product page not found (404). The URL may be incorrect."
    case Blocked => "Blocked by the website. CAPTCHA or login may be required."
    case ParseErr => "Failed to extract product data. The page format may have changed."
  }

  /** _build_message: every category is truthy, so a category always
      selects its table entry. */
  function BuildMessage(category: Option<ErrorCategory>, attempts: nat, error: Option<Error>): string
  {
    match category
    case Some(c) => CategoryMessage(c, attempts)
    case None => "Error after " + NatToString(attempts) + " attempts: " + ErrorText(error)
  }

  /** The message names the attempt count when there is no category or the
      category is a network, timeout or server error, and names the error
      itself when there is no category. */
  lemma MessageMentions(category: Option<ErrorCategory>, attempts: nat, error: Option<Error>)
    ensures category.None? ==> Contains(BuildMessage(category, attempts, error), NatToString(attempts))
                               && Contains(BuildMessage(category, attempts, error), ErrorText(error))
    ensures category.Some? && category.value in {Network, Timeout, ServerError}
            ==> Contains(BuildMessage(category, attempts, error), NatToString(attempts))
  {
    var n := NatToString(attempts);
    var r := BuildMessage(category, attempts, error);
    match category
    case Some(c) =>
      if c == Network {
        ContainsMiddle("Network error after ", n, " attempts. Please check your connection.");
      } else if c == Timeout {
        ContainsMiddle("Request timed out after ", n, " attempts. The website may be slow.");
      } else if c == ServerError {
        ContainsMiddle("Server error after ", n, " attempts. The website may be having issues.");
      }
    case None =>
      var t := ErrorText(error);
      ContainsMiddle("Error after ", n, " attempts: " + t);
      assert r == "Error after " + n + (" attempts: " + t);
      ContainsMiddle("Error after " + n + " attempts: ", t, "");
      assert r == "Error after " + n + " attempts: " + t + "";
  }

  /** The five fixed messages do not depend on the attempt count or the error. */
  lemma FixedMessages(c: ErrorCategory, a1: nat, a2: nat, e1: Option<Error>, e2: Option<Error>)
    requires c in {RateLimited, Forbidden, NotFound, Blocked, ParseErr}
    ensures BuildMessage(Some(c), a1, e1) == BuildMessage(Some(c), a2, e2)
  {
  }

  // ---------------------------------------------------------------
  // RetryHandler.execute
  // ---------------------------------------------------------------

  /** What one call of the retried function does. */
  datatype Outcome<T> = Ok(value: T) | Fail(error: Error)

  datatype RetryResult<T> = RetryResult(success: bool, result: Option<T>, error: Option<Error>,
                                        attempts: nat, category: Option<ErrorCategory>, message: string)

  /** What _notify_retry passes to every registered callback. */
  datatype Notice = Notice(attempt: nat, category: ErrorCategory, delay: real)

  /** Calls are numbered from 0; a call may only be retried while attempt < this bound. */
  function AttemptBound(config: RetryConfig): nat
  {
    Max(config.maxRetries, 2)
  }

  /** Call k failed and should_retry allowed another call. */
  predicate RetriedAt<T>(config: RetryConfig, f: nat -> Outcome<T>, k: nat)
  {
    f(k).Fail? && ShouldRetry(config, CategorizeError(f(k).error), k)
  }

  /** The result execute reports when call k fails and is not retried. */
  function GiveUp<T>(e: Error, k: nat): (r: RetryResult<T>)
    ensures !r.success && r.attempts == k + 1 && r.error == Some(e) && r.category == Some(CategorizeError(e))
  {
    var c := CategorizeError(e);
    RetryResult(false, None, Some(e), k + 1, Some(c), BuildMessage(Some(c), k + 1, Some(e)))
  }

  /** The retry loop as a recursion from call number a: the reference the
      handler's loop is proved against. */
  function RetryRun<T>(config: RetryConfig, f: nat -> Outcome<T>, a: nat): (r: RetryResult<T>)
    requires a <= AttemptBound(config)
    ensures a < r.attempts <= AttemptBound(config) + 1
    ensures r.success <==> f(r.attempts - 1).Ok?
    ensures r.success ==> r == RetryResult(true, Some(f(r.attempts - 1).value), None, r.attempts, None, "")
    ensures !r.success ==> !RetriedAt(config, f, r.attempts - 1) && r == GiveUp(f(r.attempts - 1).error, r.attempts - 1)
    ensures forall k :: a <= k < r.attempts - 1 ==> RetriedAt(config, f, k)
  {
    var n := LastCall(config, f, a);
    Finish(f, n)
  }

  /** What execute returns once call n is the last: its value, or the give-up result. */
  function Finish<T>(f: nat -> Outcome<T>, n: nat): (r: RetryResult<T>)
    ensures r.attempts == n + 1
    ensures r.success <==> f(n).Ok?
    ensures r.success ==> r == RetryResult(true, Some(f(n).value), None, n + 1, None, "")
    ensures !r.success ==> r == GiveUp(f(n).error, n)
  {
    if f(n).Ok? then RetryResult(true, Some(f(n).value), None, n + 1, None, "") else GiveUp(f(n).error, n)
  }

  /** The call the loop stops at, counting from call a: the first that
      succeeds or that should_retry does not allow to be retried. */
  function LastCall<T>(config: RetryConfig, f: nat -> Outcome<T>, a: nat): (n: nat)
    requires a <= AttemptBound(config)
    ensures a <= n <= AttemptBound(config)
    ensures f(n).Ok? || !RetriedAt(config, f, n)
    ensures forall k :: a <= k < n ==> RetriedAt(config, f, k)
    decreases AttemptBound(config) - a
  {
    if f(a).Ok? || !RetriedAt(config, f, a) then a else LastCall(config, f, a + 1)
  }

  /** A call that succeeds at once is made once. */
  lemma FirstCallSucceeds<T>(config: RetryConfig, f: nat -> Outcome<T>)
    requires f(0).Ok?
    ensures RetryRun(config, f, 0).attempts == 1 && RetryRun(config, f, 0).success
  {
  }

  /** A NOT_FOUND failure on the first call ends the loop after one call. */
  lemma NotFoundIsFinal<T>(config: RetryConfig, f: nat -> Outcome<T>)
    requires f(0).Fail? && f(0).error.kind == NotFoundError
    ensures RetryRun(config, f, 0) == RetryRun(config, f, 0).(attempts := 1)
    ensures !RetryRun(config, f, 0).success && RetryRun(config, f, 0).category == Some(NotFound)
  {
    assert !RetriedAt(config, f, 0);
  }

  /** The event _notify_retry sends after failed call k. */
  function NoticeAfter<T>(config: RetryConfig, f: nat -> Outcome<T>, draws: nat -> real, k: nat): Notice
    requires DelaysWellFormed(config) && f(k).Fail? && -1.0 <= draws(k) <= 1.0
  {
    var c := CategorizeError(f(k).error);
    Notice(k + 1, c, GetDelay(config, c, k, draws(k)))
  }

  /** One more retry extends the notices by the notice of that call. */
  lemma NoticesGrow<T>(config: RetryConfig, f: nat -> Outcome<T>, draws: nat -> real, notices: seq<Notice>, a: nat,
                       n: Notice)
    requires DelaysWellFormed(config) && forall k :: -1.0 <= draws(k) <= 1.0
    requires |notices| == a
    requires forall k :: 0 <= k < a ==> RetriedAt(config, f, k) && notices[k] == NoticeAfter(config, f, draws, k)
    requires RetriedAt(config, f, a) && n == NoticeAfter(config, f, draws, a)
    ensures forall k :: 0 <= k <= a ==> RetriedAt(config, f, k) && (notices + [n])[k] == NoticeAfter(config, f, draws, k)
  {
  }

  class RetryHandler {
    const config: RetryConfig
    /** The registered callbacks, named by the caller. */
    var callbacks: seq<string>

    constructor (config: RetryConfig)
      ensures this.config == config && callbacks == []
    {
      this.config := config;
      callbacks := [];
    }

    /** on_retry. */
    method OnRetry(callback: string)
      modifies this
      ensures callbacks == old(callbacks) + [callback]
    {
      callbacks := callbacks + [callback];
    }

    /** execute: call f(0), f(1), ... until one succeeds or should_retry says
        stop; `draws` are the jitter draws; the notices are the retry events
        handed to the callbacks, in order. */
    method Execute<T>(f: nat -> Outcome<T>, draws: nat -> real) returns (res: RetryResult<T>, notices: seq<Notice>)
      requires DelaysWellFormed(config)
      requires forall k :: -1.0 <= draws(k) <= 1.0
      ensures res == RetryRun(config, f, 0)
      ensures res.attempts <= AttemptBound(config) + 1
      ensures |notices| == res.attempts - 1
      ensures forall k :: 0 <= k < |notices| ==> RetriedAt(config, f, k) && notices[k] == NoticeAfter(config, f, draws, k)
    {
      var attempt: nat := 0;
      notices := [];
      while true
        invariant attempt <= AttemptBound(config)
        invariant LastCall(config, f, attempt) == LastCall(config, f, 0)
        invariant |notices| == attempt
        invariant forall k :: 0 <= k < attempt ==> RetriedAt(config, f, k) && notices[k] == NoticeAfter(config, f, draws, k)
        decreases AttemptBound(config) - attempt
      {
        match f(attempt)
        case Ok(v) =>
          res := RetryResult(true, Some(v), None, attempt + 1, None, "");
          return;
        case Fail(e) =>
          var c := CategorizeError(e);
          if !ShouldRetry(config, c, attempt) {
            res := GiveUp(e, attempt);
            return;
          }
          var delay := GetDelay(config, c, attempt, draws(attempt));
          NoticesGrow(config, f, draws, notices, attempt, Notice(attempt + 1, c, delay));
          notices := notices + [Notice(attempt + 1, c, delay)];
          attempt := attempt + 1;
      }
    }
  }
}
