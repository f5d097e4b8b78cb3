/** The scraper engine (scraper/engine.py): the extraction waterfall, the
    mapping of block results and exceptions to error types, one scrape
    attempt, the scrape pipeline around it (URL check, robots.txt, rate
    limit, retries) and batch scraping. The browser is a parameter: a crawl
    gives success, the HTML, the status code and the parsers' views of the
    page. */
module Engine {
  import opened Common
  import opened JsonValue
  import opened Strategies
  import opened Errors
  import opened B = BlockDetection
  import M = Models
  import Security
  import StoresSeed
  import Retry
  import Robots
  import RateLimiter
  import UserAgent

  /** ScrapeResult. */
  datatype ScrapeResult = ScrapeResult(
    success: bool,
    product: Option<ProductData>,
    url: string,
    domain: string,
    strategyUsed: Option<StrategyKind>,
    responseTimeMs: int,
    errorType: Option<M.ScrapeErrorType>,
    errorMessage: Option<string>,
    attempts: nat,
    statusCode: Option<int>)

  /** A failed ScrapeResult with the dataclass defaults elsewhere. */
  function Failure(url: string, domain: string, t: M.ScrapeErrorType, message: string, ms: int): ScrapeResult
  {
    ScrapeResult(false, None, url, domain, None, ms, Some(t), Some(message), 1, None)
  }

  /** What a successful result carries: a product with a name and a price,
      and the strategy that produced it. */
  predicate Succeeded(r: ScrapeResult)
  {
    r.success && r.product.Some? && HasNameAndPrice(r.product.value)
    && r.strategyUsed == r.product.value.strategyUsed && r.errorType.None?
  }

  // ---------------------------------------------------------------
  // Error mapping
  // ---------------------------------------------------------------

  /** _block_to_exception: not-found pages raise NotFoundError, empty and
      maintenance pages NetworkError, every other type (age gates included,
      which the table does not list) BlockedError. */
  function BlockToException(b: B.BlockResult): (e: Error)
    ensures b.blockType == Some(B.NotFound) <==> e.kind == NotFoundError
    ensures b.blockType in {Some(B.EmptyResponse), Some(B.Maintenance)} <==> e.kind == NetworkError
    ensures e.kind == BlockedError <==> b.blockType !in {Some(B.NotFound), Some(B.EmptyResponse), Some(B.Maintenance)}
  {
    match b.blockType
    case Some(Captcha) => Error(BlockedError, "CAPTCHA challenge required")
    case Some(LoginRequired) => Error(BlockedError, "Login required")
    case Some(RateLimited) => Error(BlockedError, "Rate limited by website")
    case Some(GeoBlocked) => Error(BlockedError, "Content geo-blocked")
    case Some(BotDetection) => Error(BlockedError, "Bot detection triggered")
    case Some(AccessDenied) => Error(BlockedError, "Access denied")
    case Some(NotFound) => Error(NotFoundError, "Page not found")
    case Some(EmptyResponse) => Error(NetworkError, "Empty response")
    case Some(Maintenance) => Error(NetworkError, "Site under maintenance")
    case _ => Error(BlockedError, "Blocked: " + b.details)
  }

  /** _categorize_error: the six scraper exception classes by isinstance,
      everything else (price-validation and structure-change errors, plain
      scraper errors, errors from outside the scraper) a network error. */
  function CategorizeError(e: Error): (t: M.ScrapeErrorType)
    ensures e.kind == TimeoutError <==> t == M.Timeout
    ensures e.kind == BlockedError <==> t == M.Blocked
    ensures e.kind == NotFoundError <==> t == M.NotFound
    ensures e.kind == ParseError <==> t == M.ParseFailure
    ensures e.kind == RobotsBlockedError <==> t == M.RobotsBlocked
    ensures t == M.NetworkFailure <==> e.kind !in {TimeoutError, BlockedError, NotFoundError, ParseError, RobotsBlockedError}
    ensures t != M.PriceValidation && t != M.StructureChange
  {
    match e.kind
    case TimeoutError => M.Timeout
    case NetworkError => M.NetworkFailure
    case BlockedError => M.Blocked
    case NotFoundError => M.NotFound
    case ParseError => M.ParseFailure
    case RobotsBlockedError => M.RobotsBlocked
    case _ => M.NetworkFailure
  }

  /** An exception one attempt raises is categorised as a network, block,
      not-found or parse failure. */
  lemma AttemptErrorCategory(e: Error)
    requires e.kind in AttemptErrors
    ensures CategorizeError(e) in {M.NetworkFailure, M.Blocked, M.NotFound, M.ParseFailure}
  {
  }

  /** The error type a blocked page ends with on the single-URL path. */
  lemma BlockedPageCategory(b: B.BlockResult)
    ensures b.blockType == Some(B.NotFound) ==> CategorizeError(BlockToException(b)) == M.NotFound
    ensures b.blockType in {Some(B.EmptyResponse), Some(B.Maintenance)}
            ==> CategorizeError(BlockToException(b)) == M.NetworkFailure
    ensures b.blockType == Some(B.AgeGate) ==> CategorizeError(BlockToException(b)) == M.Blocked
  {
  }

  // ---------------------------------------------------------------
  // The waterfall
  // ---------------------------------------------------------------

  /** The parsers' views of one HTML document: its ld+json script texts,
      json.loads, select_one, whether lxml parsed it, and XPath evaluation. */
  datatype Page = Page(
    scripts: seq<Option<string>>,
    parse: string -> Option<Json>,
    select: string -> Option<Element>,
    parsed: bool,
    evaluate: string -> Option<string>)

  /** A strategy's answer the waterfall accepts: a product with a name and
      a price. */
  predicate Usable(o: Option<ProductData>)
  {
    o.Some? && HasNameAndPrice(o.value)
  }

  /** The JSON-LD strategy's result has a name and a price. */
  predicate JsonLdUsable(page: Page, h: Html)
  {
    Usable(JsonLdExtract(page.scripts, page.parse, h))
  }

  /** What one strategy of the waterfall answers on the page: the LLM one
      is skipped (None) without a client. A strategy that raises answers
      None. */
  function StrategyResult(kind: StrategyKind, page: Page, selectors: Json, hasLlm: bool, h: Html): (r: Option<ProductData>)
    ensures r.Some? ==> r.value.strategyUsed == Some(kind)
  {
    match kind
    case JsonLd => JsonLdExtract(page.scripts, page.parse, h)
    case CssSelector => CssResult(selectors, page.select, h)
    case XPath => XPathResult(selectors, page.parsed, page.evaluate, h)
    case Llm => if hasLlm then LlmExtract(hasLlm) else None
  }

  /** The answers of the strategies of StrategyOrder, in that order. */
  function Answers(page: Page, selectors: Json, hasLlm: bool, h: Html): (a: seq<Option<ProductData>>)
    ensures |a| == |StrategyOrder|
    ensures forall k :: 0 <= k < |a| ==> a[k] == StrategyResult(StrategyOrder[k], page, selectors, hasLlm, h)
  {
    seq(|StrategyOrder|, k requires 0 <= k < |StrategyOrder| => StrategyResult(StrategyOrder[k], page, selectors, hasLlm, h))
  }

  /** The first answer with a name and a price, None when there is none. */
  function FirstUsableOf(answers: seq<Option<ProductData>>): Option<ProductData>
  {
    if answers == [] then None
    else if Usable(answers[0]) then answers[0]
    else FirstUsableOf(answers[1..])
  }

  /** _extract_with_strategies as a value: the first strategy of
      StrategyOrder whose answer has a name and a price. */
  function Waterfall(page: Page, selectors: Json, hasLlm: bool, h: Html): Option<ProductData>
  {
    FirstUsableOf(Answers(page, selectors, hasLlm, h))
  }

  /** The k-th answer is the first with a name and a price. */
  predicate FirstUsableAt(answers: seq<Option<ProductData>>, k: int)
  {
    0 <= k < |answers| && Usable(answers[k]) && forall j :: 0 <= j < k ==> !Usable(answers[j])
  }

  /** FirstUsableOf answers None exactly when no answer is usable, and
      otherwise the first usable one. */
  lemma {:induction false} FirstUsableOfPicks(answers: seq<Option<ProductData>>)
    ensures FirstUsableOf(answers).None? <==> forall k :: 0 <= k < |answers| ==> !Usable(answers[k])
    ensures forall k :: FirstUsableAt(answers, k) ==> FirstUsableOf(answers) == answers[k]
    ensures FirstUsableOf(answers).Some? ==> exists k :: FirstUsableAt(answers, k) && FirstUsableOf(answers) == answers[k]
    decreases |answers|
  {
    if answers != [] && !Usable(answers[0]) {
      var rest := answers[1..];
      FirstUsableOfPicks(rest);
      assert forall k :: 1 <= k < |answers| ==> answers[k] == rest[k - 1];
      forall k | FirstUsableAt(answers, k) ensures FirstUsableOf(answers) == answers[k] {
        assert FirstUsableAt(rest, k - 1);
      }
      if FirstUsableOf(rest).Some? {
        var k :| FirstUsableAt(rest, k) && FirstUsableOf(rest) == rest[k];
        assert FirstUsableAt(answers, k + 1);
      }
    } else if answers != [] {
      assert FirstUsableAt(answers, 0);
    }
  }

  /** The waterfall's answer is the first strategy's answer that has a name
      and a price, in the order JSON-LD, CSS, XPath, LLM; None exactly when
      no strategy has one. */
  lemma WaterfallPicksFirst(page: Page, selectors: Json, hasLlm: bool, h: Html)
    ensures Waterfall(page, selectors, hasLlm, h).None?
            <==> forall k :: 0 <= k < |StrategyOrder| ==> !Usable(StrategyResult(StrategyOrder[k], page, selectors, hasLlm, h))
    ensures forall k :: FirstUsableAt(Answers(page, selectors, hasLlm, h), k)
                        ==> Waterfall(page, selectors, hasLlm, h) == StrategyResult(StrategyOrder[k], page, selectors, hasLlm, h)
    ensures Waterfall(page, selectors, hasLlm, h).Some?
            ==> exists k :: FirstUsableAt(Answers(page, selectors, hasLlm, h), k)
                            && Waterfall(page, selectors, hasLlm, h) == StrategyResult(StrategyOrder[k], page, selectors, hasLlm, h)
  {
    FirstUsableOfPicks(Answers(page, selectors, hasLlm, h));
  }

  /** The waterfall spelled out: JSON-LD, then CSS, then XPath; the LLM
      strategy never answers. */
  lemma WaterfallCascade(page: Page, selectors: Json, hasLlm: bool, h: Html)
    ensures var j := JsonLdExtract(page.scripts, page.parse, h);
            var c := CssResult(selectors, page.select, h);
            var x := XPathResult(selectors, page.parsed, page.evaluate, h);
            Waterfall(page, selectors, hasLlm, h)
            == if Usable(j) then j else if Usable(c) then c else if Usable(x) then x else None
  {
    var a := Answers(page, selectors, hasLlm, h);
    assert StrategyOrder[3] == Llm;
    FirstOfFour(a);
    assert a[0] == StrategyResult(JsonLd, page, selectors, hasLlm, h);
    assert a[1] == StrategyResult(CssSelector, page, selectors, hasLlm, h);
    assert a[2] == StrategyResult(XPath, page, selectors, hasLlm, h);
  }

  lemma FirstOfFour(a: seq<Option<ProductData>>)
    requires |a| == 4 && !Usable(a[3])
    ensures FirstUsableOf(a) == if Usable(a[0]) then a[0] else if Usable(a[1]) then a[1] else if Usable(a[2]) then a[2] else None
  {
    var b := a[1..];
    var c := b[1..];
    var d := c[1..];
    assert b[0] == a[1] && c[0] == a[2] && d == [a[3]];
    assert FirstUsableOf(d) == None by {
      assert d[1..] == [];
    }
    assert FirstUsableOf(c) == if Usable(c[0]) then c[0] else FirstUsableOf(d);
    assert FirstUsableOf(b) == if Usable(b[0]) then b[0] else FirstUsableOf(c);
    assert FirstUsableOf(a) == if Usable(a[0]) then a[0] else FirstUsableOf(b);
  }

  /** What the waterfall's answer looks like: it has a name and a price and
      names one of the three working strategies; a usable JSON-LD answer
      always wins; CSS answers only when JSON-LD did not, XPath only when
      neither JSON-LD nor CSS did; without selectors only JSON-LD can
      answer. */
  lemma WaterfallAnswer(page: Page, selectors: Json, hasLlm: bool, h: Html)
    ensures var r := Waterfall(page, selectors, hasLlm, h);
            r.Some? ==> HasNameAndPrice(r.value) && r.value.strategyUsed.Some?
                        && r.value.strategyUsed.value in {JsonLd, CssSelector, XPath}
    ensures JsonLdUsable(page, h) ==> Waterfall(page, selectors, hasLlm, h) == JsonLdExtract(page.scripts, page.parse, h)
    ensures var r := Waterfall(page, selectors, hasLlm, h);
            r.Some? && r.value.strategyUsed == Some(CssSelector)
            ==> !JsonLdUsable(page, h) && r == CssResult(selectors, page.select, h)
    ensures var r := Waterfall(page, selectors, hasLlm, h);
            r.Some? && r.value.strategyUsed == Some(XPath)
            ==> !JsonLdUsable(page, h) && !Usable(CssResult(selectors, page.select, h))
                && r == XPathResult(selectors, page.parsed, page.evaluate, h)
    ensures !Truthy(selectors) ==> (Waterfall(page, selectors, hasLlm, h).Some? <==> JsonLdUsable(page, h))
  {
    WaterfallCascade(page, selectors, hasLlm, h);
  }

  /** _extract_with_strategies: the strategies in order, the LLM one skipped
      without a client; the first result with a name and a price wins. */
  method Extract(page: Page, selectors: Json, hasLlm: bool, h: Html) returns (r: Option<ProductData>)
    ensures r == Waterfall(page, selectors, hasLlm, h)
  {
    ghost var answers := Answers(page, selectors, hasLlm, h);
    var i := 0;
    while i < |StrategyOrder|
      invariant 0 <= i <= |StrategyOrder|
      invariant FirstUsableOf(answers[i..]) == Waterfall(page, selectors, hasLlm, h)
      decreases |StrategyOrder| - i
    {
      var res: Option<ProductData> := None;
      match StrategyOrder[i] {
        case JsonLd =>
          res := JsonLdExtract(page.scripts, page.parse, h);
        case CssSelector =>
          res := CssExtract(selectors, page.select, h);
        case XPath =>
          res := XPathExtract(selectors, page.parsed, page.evaluate, h);
        case Llm =>
          if hasLlm {
            res := LlmExtract(hasLlm);
          }
      }
      assert res == answers[i];
      assert answers[i..][1..] == answers[i + 1..];
      if res.Some? && HasNameAndPrice(res.value) {
        return res;
      }
      i := i + 1;
    }
    return None;
  }

  // ---------------------------------------------------------------
  // One attempt
  // ---------------------------------------------------------------

  /** What the crawler returns for one URL. */
  datatype Crawl = Crawl(success: bool, html: string, statusCode: Option<int>, errorMessage: string, page: Page)

  /** `status_code or 200`. */
  function StatusOf(c: Crawl): int
  {
    if c.statusCode.Some? && c.statusCode.value != 0 then c.statusCode.value else 200
  }

  /** detect_block, as written, on the crawled page (no response headers are
      passed): every 503 page with a real body counts as under maintenance. */
  function BlockOf(c: Crawl): B.BlockResult
  {
    B.DetectBlockAsWritten(c.html, StatusOf(c), map[])
  }

  /** A maintenance block is raised as NetworkError("Site under
      maintenance"), which _categorize_error files as a network error. */
  lemma MaintenanceException(b: B.BlockResult)
    requires b.blockType == Some(B.Maintenance)
    ensures BlockToException(b) == Error(NetworkError, "Site under maintenance")
    ensures CategorizeError(BlockToException(b)) == M.NetworkFailure
  {
  }

  /** What the engine makes of a 503 page with a real body, whatever it
      says: _do_scrape raises NetworkError("Site under maintenance"), which
      _categorize_error files as a network error, and scrape_batch records
      "Blocked: Site under maintenance". */
  lemma ServedMaintenance(c: Crawl)
    requires StatusOf(c) == 503 && !B.ShortBody(c.html)
    ensures BlockOf(c).isBlocked && BlockOf(c).blockType == Some(B.Maintenance)
    ensures BlockOf(c).details == "Site under maintenance"
    ensures BlockToException(BlockOf(c)) == Error(NetworkError, "Site under maintenance")
    ensures CategorizeError(BlockToException(BlockOf(c))) == M.NetworkFailure
  {
    MaintenanceException(BlockOf(c));
  }

  /** A page of one hundred zeros served with 503 names no maintenance, yet
      the engine treats it as a site under maintenance. */
  lemma ZerosServedMaintenance(page: Page)
    ensures var c := Crawl(true, seq(100, _ => '0'), Some(503), "", page);
            BlockOf(c).blockType == Some(B.Maintenance)
            && BlockToException(BlockOf(c)) == Error(NetworkError, "Site under maintenance")
  {
    var c := Crawl(true, seq(100, _ => '0'), Some(503), "", page);
    assert LStrip(c.html) == c.html;
    assert RStrip(c.html) == c.html;
    ServedMaintenance(c);
  }

  /** _do_scrape after the crawl: a failed crawl raises NetworkError, a
      blocked page the exception _block_to_exception gives, a page where no
      strategy finds a name and a price ParseError; otherwise a successful
      result carrying the waterfall's product. `selectors` are the store's
      (get_store_selectors of the domain, looked up by the caller). */
  method DoScrape(url: string, domain: string, crawl: Crawl, selectors: Json, hasLlm: bool, h: Html)
    returns (o: Retry.Outcome<ScrapeResult>)
    ensures !crawl.success ==> o == Retry.Fail(Error(NetworkError, "Crawl failed: " + crawl.errorMessage))
    ensures crawl.success && BlockOf(crawl).isBlocked ==> o == Retry.Fail(BlockToException(BlockOf(crawl)))
    ensures o.Ok? ==> crawl.success && !BlockOf(crawl).isBlocked && Succeeded(o.value)
    ensures o.Ok? ==> o.value.url == url && o.value.domain == domain && o.value.statusCode == crawl.statusCode && o.value.attempts == 1
    ensures crawl.success && !BlockOf(crawl).isBlocked && o.Fail?
            ==> o.error == Error(ParseError, "Failed to extract product data from page")
    ensures crawl.success && !BlockOf(crawl).isBlocked
            ==> (o.Ok? <==> Waterfall(crawl.page, selectors, hasLlm, h).Some?)
    ensures o.Ok? ==> o.value.product == Waterfall(crawl.page, selectors, hasLlm, h)
    ensures crawl.success && StatusOf(crawl) == 503 && !B.ShortBody(crawl.html)
            ==> o == Retry.Fail(Error(NetworkError, "Site under maintenance"))
  {
    if !crawl.success {
      return Retry.Fail(Error(NetworkError, "Crawl failed: " + crawl.errorMessage));
    }
    if StatusOf(crawl) == 503 && !B.ShortBody(crawl.html) {
      ServedMaintenance(crawl);
    }
    o := Unblocked(url, domain, crawl, BlockOf(crawl), selectors, hasLlm, h);
  }

  /** _do_scrape once the crawl succeeded and detect_block answered `block`. */
  method Unblocked(url: string, domain: string, crawl: Crawl, block: B.BlockResult, selectors: Json, hasLlm: bool, h: Html)
    returns (o: Retry.Outcome<ScrapeResult>)
    ensures block.isBlocked ==> o == Retry.Fail(BlockToException(block))
    ensures o.Ok? ==> !block.isBlocked && Succeeded(o.value)
    ensures o.Ok? ==> o.value.url == url && o.value.domain == domain && o.value.statusCode == crawl.statusCode && o.value.attempts == 1
    ensures !block.isBlocked && o.Fail? ==> o.error == Error(ParseError, "Failed to extract product data from page")
    ensures !block.isBlocked ==> (o.Ok? <==> Waterfall(crawl.page, selectors, hasLlm, h).Some?)
    ensures o.Ok? ==> o.value.product == Waterfall(crawl.page, selectors, hasLlm, h)
  {
    if block.isBlocked {
      return Retry.Fail(BlockToException(block));
    }
    o := ExtractPage(url, domain, crawl, selectors, hasLlm, h);
  }

  /** _do_scrape's extraction with the store's selectors: the waterfall's
      product is the result; a page where no strategy finds a name and a
      price is a ParseError. */
  method ExtractPage(url: string, domain: string, crawl: Crawl, selectors: Json, hasLlm: bool, h: Html)
    returns (o: Retry.Outcome<ScrapeResult>)
    ensures o.Ok? ==> Succeeded(o.value)
    ensures o.Ok? ==> o.value.url == url && o.value.domain == domain && o.value.statusCode == crawl.statusCode && o.value.attempts == 1
    ensures o.Fail? ==> o.error == Error(ParseError, "Failed to extract product data from page")
    ensures o.Ok? <==> Waterfall(crawl.page, selectors, hasLlm, h).Some?
    ensures o.Ok? ==> o.value.product == Waterfall(crawl.page, selectors, hasLlm, h)
  {
    var product := Extract(crawl.page, selectors, hasLlm, h);
    WaterfallAnswer(crawl.page, selectors, hasLlm, h);
    if product.Some? && HasNameAndPrice(product.value) {
      return Retry.Ok(ScrapeResult(true, product, url, domain, product.value.strategyUsed, 0, None, None, 1, crawl.statusCode));
    }
    return Retry.Fail(Error(ParseError, "Failed to extract product data from page"));
  }

  // ---------------------------------------------------------------
  // The scrape pipeline
  // ---------------------------------------------------------------

  datatype ScraperConfig = ScraperConfig(respectRobots: bool, enableRetries: bool)

  /** The URL check scrape starts with: with SSRF validation the resolving
      check, otherwise the plain one. */
  datatype UrlCheck = Accepted(url: string) | Refused(reason: Security.SsrfResult)

  function CheckUrl(url: string, validateSsrf: bool, dns: string -> Option<seq<Security.ParsedIp>>): (c: UrlCheck)
    ensures c.Accepted? ==> Security.ValidateUrl(url) == Security.Valid(c.url)
    ensures Security.ValidateUrl(url).Invalid? ==> c.Refused?
  {
    if validateSsrf then
      match Security.ResolveAndValidateUrl(url, dns)
      case SafeUrl(u) => Accepted(u)
      case other => Refused(other)
    else
      match Security.ValidateUrl(url)
      case Valid(u) => Accepted(u)
      case Invalid(e) => Refused(Security.Rejected(e))
  }

  /** Everything outside the engine one scrape depends on: the resolver,
      the text of a URL error, the robots.txt fetch, the time, the crawl of
      a single attempt, the outcomes of the retried attempts, the jitter
      draws and the elapsed milliseconds. */
  datatype Env = Env(
    dns: string -> Option<seq<Security.ParsedIp>>,
    describe: Security.SsrfResult -> string,
    robotsFetch: Option<Robots.RobotsRules>,
    now: real,
    crawl: Crawl,
    attempts: nat -> Retry.Outcome<ScrapeResult>,
    draws: nat -> real,
    elapsedMs: int)

  /** The conditions under which an environment's retried attempts behave
      as DoScrape promises: a success carries a product, a failure is one of
      the exceptions an attempt raises. */
  ghost predicate EnvOk(env: Env)
  {
    (forall k :: -1.0 <= env.draws(k) <= 1.0)
    && (forall k :: env.attempts(k).Ok? ==> Succeeded(env.attempts(k).value))
    && (forall k :: env.attempts(k).Fail? ==> env.attempts(k).error.kind in AttemptErrors)
  }

  /** The exception kinds one attempt raises. */
  const AttemptErrors: set<ErrorKind> := {NetworkError, BlockedError, NotFoundError, ParseError}

  /** The retry handler's verdict over an environment's attempts keeps
      what each attempt promises. */
  lemma RetryKeepsAttempts(config: Retry.RetryConfig, env: Env)
    requires EnvOk(env)
    ensures var run := Retry.RetryRun(config, env.attempts, 0);
            && (run.success ==> run.result.Some? && Succeeded(run.result.value))
            && (!run.success ==> run.error.Some? && run.error.value.kind in AttemptErrors)
  {
    var run := Retry.RetryRun(config, env.attempts, 0);
    var k := run.attempts - 1;
    if run.success {
      assert env.attempts(k).Ok?;
    } else {
      assert env.attempts(k).Fail?;
    }
  }

  class ScraperEngine {
    const config: ScraperConfig
    const rateLimiter: RateLimiter.RateLimiter
    const robots: Robots.RobotsHandler
    const ua: UserAgent.UserAgentManager
    const retry: Retry.RetryHandler
    const hasLlm: bool
    const html: Html

    ghost predicate Valid()
      reads this, rateLimiter, ua
    {
      rateLimiter.Valid() && ua.Valid() && Retry.DelaysWellFormed(retry.config)
    }

    constructor(config: ScraperConfig, rateLimiter: RateLimiter.RateLimiter, robots: Robots.RobotsHandler,
                ua: UserAgent.UserAgentManager, retry: Retry.RetryHandler, hasLlm: bool, html: Html)
      requires rateLimiter.Valid() && ua.Valid() && Retry.DelaysWellFormed(retry.config)
      ensures Valid()
      ensures this.config == config && this.rateLimiter == rateLimiter && this.robots == robots
      ensures this.ua == ua && this.retry == retry && this.hasLlm == hasLlm && this.html == html
    {
      this.config := config;
      this.rateLimiter := rateLimiter;
      this.robots := robots;
      this.ua := ua;
      this.retry := retry;
      this.hasLlm := hasLlm;
      this.html := html;
    }

    /** The retry handler's run over the environment's attempts. */
    method RunAttempts(env: Env) returns (res: Retry.RetryResult<ScrapeResult>)
      requires Valid() && EnvOk(env)
      ensures res == Retry.RetryRun(retry.config, env.attempts, 0)
      ensures res.success ==> res.result.Some? && Succeeded(res.result.value)
      ensures !res.success ==> res.error.Some? && res.error.value.kind in AttemptErrors
    {
      var notices;
      res, notices := retry.Execute(env.attempts, env.draws);
      RetryKeepsAttempts(retry.config, env);
    }

    /** _scrape_with_retry: the retry handler runs the attempts; success
        reports the agent's success and carries the attempt count, failure
        reports the agent's failure and is categorised. */
    method ScrapeWithRetry(url: string, domain: string, env: Env) returns (r: ScrapeResult)
      requires Valid() && EnvOk(env)
      modifies ua
      ensures Valid()
      ensures var run := Retry.RetryRun(retry.config, env.attempts, 0);
              && (run.success ==> r == run.result.value.(attempts := run.attempts) && Succeeded(r))
              && (!run.success ==> r == ScrapeResult(false, None, url, domain, None, 0, Some(CategorizeError(run.error.value)),
                                                     Some(run.message), run.attempts, None))
      ensures !r.success ==> r.errorType.Some? && r.errorType.value in {M.NetworkFailure, M.Blocked, M.NotFound, M.ParseFailure}
      ensures domain in ua.domainState
      ensures r.success ==> ua.domainState[domain].lastSuccessIndex.Some?
      ensures !r.success ==> ua.domainState[domain].lastSuccessIndex == old(ua.StateOf(domain)).lastSuccessIndex
    {
      var res := RunAttempts(env);
      if res.success {
        ua.ReportSuccess(domain);
        return res.result.value.(attempts := res.attempts);
      }
      AttemptErrorCategory(res.error.value);
      var t := CategorizeError(res.error.value);
      var _ := ua.ReportFailure(domain);
      r := ScrapeResult(false, None, url, domain, None, 0, Some(t), Some(res.message), res.attempts, None);
    }

    /** The rate-limit step of scrape: a seeded store's limit is applied,
        then a slot is acquired. */
    method Admit(domain: string, now: real) returns (out: RateLimiter.Acquired)
      requires Valid()
      modifies rateLimiter, rateLimiter.global, rateLimiter.stores.Values
      ensures Valid()
      ensures out.LimitExceeded? ==> out.retryAfter >= 30
      ensures forall s :: s in rateLimiter.stores.Values ==> s in old(rateLimiter.stores.Values) || fresh(s)
    {
      var storeConfig := StoresSeed.GetStoreConfig(domain);
      out := AdmitWith(domain, storeConfig, now);
    }

    /** Admit once the store's seed entry, if any, is known. */
    method AdmitWith(domain: string, storeConfig: Option<StoresSeed.StoreEntry>, now: real) returns (out: RateLimiter.Acquired)
      requires Valid()
      modifies rateLimiter, rateLimiter.global, rateLimiter.stores.Values
      ensures Valid()
      ensures out.LimitExceeded? ==> out.retryAfter >= 30
      ensures forall s :: s in rateLimiter.stores.Values ==> s in old(rateLimiter.stores.Values) || fresh(s)
    {
      if storeConfig.Some? {
        rateLimiter.SetStoreLimit(domain, storeConfig.value.rateLimitRpm);
      }
      out := rateLimiter.Acquire(domain, now);
    }

    /** The attempts of scrape: retried, or a single one whose exception is
        categorised. */
    method Attempts(url: string, domain: string, env: Env) returns (r: ScrapeResult)
      requires Valid() && EnvOk(env)
      modifies ua
      ensures Valid()
      ensures r.success ==> Succeeded(r)
      ensures !r.success ==> r.url == url && r.domain == domain
      ensures !r.success ==> r.errorType.Some? && r.errorType.value in {M.NetworkFailure, M.Blocked, M.NotFound, M.ParseFailure}
      ensures !config.enableRetries ==> r.url == url && r.domain == domain && r.attempts == 1
      ensures !config.enableRetries && r.success ==> env.crawl.success && !BlockOf(env.crawl).isBlocked
      ensures !config.enableRetries && env.crawl.success && BlockOf(env.crawl).isBlocked
              ==> r.errorType == Some(CategorizeError(BlockToException(BlockOf(env.crawl))))
    {
      if config.enableRetries {
        r := ScrapeWithRetry(url, domain, env);
      } else {
        r := SingleAttempt(url, domain, env.crawl, StoresSeed.GetStoreSelectors(domain));
      }
    }

    /** Without retries: one _do_scrape with the store's selectors, whose
        exception is categorised into a failed result. */
    method SingleAttempt(url: string, domain: string, crawl: Crawl, selectors: Json) returns (r: ScrapeResult)
      ensures r.success ==> Succeeded(r) && crawl.success && !BlockOf(crawl).isBlocked
      ensures r.url == url && r.domain == domain && r.attempts == 1
      ensures !r.success ==> r.errorType.Some? && r.errorType.value in {M.NetworkFailure, M.Blocked, M.NotFound, M.ParseFailure}
      ensures crawl.success && BlockOf(crawl).isBlocked
              ==> r.errorType == Some(CategorizeError(BlockToException(BlockOf(crawl))))
    {
      var o := DoScrape(url, domain, crawl, selectors, hasLlm, html);
      if o.Fail? {
        assert o.error.kind in AttemptErrors;
        AttemptErrorCategory(o.error);
        return Failure(url, domain, CategorizeError(o.error), o.error.message, 0);
      }
      r := o.value;
    }

    /** scrape: validate the URL (a refusal ends the scrape as a network
        error), consult robots.txt, apply the store's rate limit and acquire
        a slot (a refusal is a network error too), then run the attempts.
        Every exception becomes a failed result. */
    method Scrape(url: string, validateSsrf: bool, env: Env) returns (r: ScrapeResult)
      requires Valid() && EnvOk(env)
      modifies rateLimiter, rateLimiter.global, rateLimiter.stores.Values, robots, ua
      ensures Valid()
      ensures r.responseTimeMs == env.elapsedMs
      ensures r.success ==> Succeeded(r)
      ensures CheckUrl(url, validateSsrf, env.dns).Refused? ==> (
                && r == Failure(url, "", M.NetworkFailure, env.describe(CheckUrl(url, validateSsrf, env.dns).reason), env.elapsedMs)
                && rateLimiter.stores == old(rateLimiter.stores) && robots.cache == old(robots.cache))
      ensures CheckUrl(url, validateSsrf, env.dns).Accepted? && (!r.success || !config.enableRetries) ==> (
                && r.url == CheckUrl(url, validateSsrf, env.dns).url
                && r.domain == Security.ExtractDomain(CheckUrl(url, validateSsrf, env.dns).url))
      ensures r.errorType == Some(M.RobotsBlocked) ==> config.respectRobots
      ensures r.success ==> CheckUrl(url, validateSsrf, env.dns).Accepted?
      ensures forall s :: s in rateLimiter.stores.Values ==> s in old(rateLimiter.stores.Values) || fresh(s)
    {
      var checked := CheckUrl(url, validateSsrf, env.dns);
      if checked.Refused? {
        return Failure(url, "", M.NetworkFailure, env.describe(checked.reason), env.elapsedMs);
      }
      r := ScrapeChecked(checked.url, env);
    }

    /** scrape once the URL is accepted: robots.txt when the engine respects
        it (a disallowed URL is a RobotsBlocked failure), then the rate limit
        and the attempts. */
    method ScrapeChecked(u: string, env: Env) returns (r: ScrapeResult)
      requires Valid() && EnvOk(env)
      modifies rateLimiter, rateLimiter.global, rateLimiter.stores.Values, robots, ua
      ensures Valid()
      ensures r.responseTimeMs == env.elapsedMs
      ensures r.success ==> Succeeded(r)
      ensures !r.success || !config.enableRetries ==> r.url == u && r.domain == Security.ExtractDomain(u)
      ensures r.errorType == Some(M.RobotsBlocked) ==> config.respectRobots
      ensures forall s :: s in rateLimiter.stores.Values ==> s in old(rateLimiter.stores.Values) || fresh(s)
    {
      var domain := Security.ExtractDomain(u);
      if config.respectRobots {
        var verdict := robots.Check(u, true, env.now, env.robotsFetch);
        if !verdict.allowed {
          return Failure(u, domain, M.RobotsBlocked, "Blocked by robots.txt: " + verdict.reason, env.elapsedMs);
        }
      }
      r := Admitted(u, domain, env);
    }

    /** scrape after the robots.txt check: the rate limit (RateLimitError and
        the ValueError of an empty window are categorised as network errors),
        then the attempts. */
    method Admitted(url: string, domain: string, env: Env) returns (r: ScrapeResult)
      requires Valid() && EnvOk(env)
      modifies rateLimiter, rateLimiter.global, rateLimiter.stores.Values, ua
      ensures Valid()
      ensures r.responseTimeMs == env.elapsedMs
      ensures r.success ==> Succeeded(r)
      ensures !r.success || !config.enableRetries ==> r.url == url && r.domain == domain
      ensures r.errorType != Some(M.RobotsBlocked)
      ensures forall s :: s in rateLimiter.stores.Values ==> s in old(rateLimiter.stores.Values) || fresh(s)
    {
      var acquired := Admit(domain, env.now);
      if acquired.LimitExceeded? {
        var message := "Rate limit exceeded: Rate limit exceeded for " + domain
                       + " (retry after " + NatToString(acquired.retryAfter) + "s)";
        return Failure(url, domain, M.NetworkFailure, message, env.elapsedMs);
      }
      if acquired.NoCapacity? {
        return Failure(url, domain, M.NetworkFailure, "min() arg is an empty sequence", env.elapsedMs);
      }
      r := Attempts(url, domain, env);
      r := r.(responseTimeMs := env.elapsedMs);
    }

    /** scrape_batch: [] for no URLs; one or two URLs are scraped one by one;
        larger batches take the crawler's results in input order. */
    method ScrapeBatch(urls: seq<string>, validateSsrf: bool, envs: seq<Env>, crawls: seq<Option<Crawl>>, elapsed: seq<int>)
      returns (results: seq<ScrapeResult>)
      requires Valid()
      requires |envs| == |urls| && |crawls| == |urls| && |elapsed| == |urls|
      requires forall i :: 0 <= i < |envs| ==> EnvOk(envs[i])
      modifies rateLimiter, rateLimiter.global, rateLimiter.stores.Values, robots, ua
      ensures Valid()
      ensures |results| == |urls|
      ensures forall i :: 0 <= i < |results| ==> (results[i].success ==> Succeeded(results[i]))
      ensures |urls| > 2 ==> forall i :: 0 <= i < |results| ==> BatchEntry(urls[i], crawls[i], elapsed[i], results[i])
    {
      if |urls| == 0 {
        return [];
      }
      if |urls| <= 2 {
        results := ScrapeEach(urls, validateSsrf, envs);
      } else {
        results := ProcessCrawls(urls, crawls, elapsed);
      }
    }

    /** The small-batch path: scrape on every URL in turn. */
    method ScrapeEach(urls: seq<string>, validateSsrf: bool, envs: seq<Env>) returns (results: seq<ScrapeResult>)
      requires Valid()
      requires |envs| == |urls|
      requires forall i :: 0 <= i < |envs| ==> EnvOk(envs[i])
      modifies rateLimiter, rateLimiter.global, rateLimiter.stores.Values, robots, ua
      ensures Valid()
      ensures |results| == |urls|
      ensures forall i :: 0 <= i < |results| ==> (results[i].success ==> Succeeded(results[i]))
    {
      results := [];
      var i := 0;
      while i < |urls|
        invariant 0 <= i <= |urls|
        invariant Valid()
        invariant |results| == i
        invariant forall k :: 0 <= k < i ==> (results[k].success ==> Succeeded(results[k]))
        invariant forall s :: s in rateLimiter.stores.Values ==> s in old(rateLimiter.stores.Values) || fresh(s)
      {
        results := ScrapeAppend(results, urls[i], validateSsrf, envs[i]);
        i := i + 1;
      }
    }

    /** One step of the small-batch path: the scrape of one URL appended. */
    method ScrapeAppend(results: seq<ScrapeResult>, url: string, validateSsrf: bool, env: Env) returns (more: seq<ScrapeResult>)
      requires Valid() && EnvOk(env)
      requires forall k :: 0 <= k < |results| ==> (results[k].success ==> Succeeded(results[k]))
      modifies rateLimiter, rateLimiter.global, rateLimiter.stores.Values, robots, ua
      ensures Valid()
      ensures |more| == |results| + 1 && more[..|results|] == results
      ensures forall k :: 0 <= k < |more| ==> (more[k].success ==> Succeeded(more[k]))
      ensures forall s :: s in rateLimiter.stores.Values ==> s in old(rateLimiter.stores.Values) || fresh(s)
    {
      var one := Scrape(url, validateSsrf, env);
      more := results + [one];
    }

    /** The large-batch path: one entry per URL and crawl, in input order. */
    method ProcessCrawls(urls: seq<string>, crawls: seq<Option<Crawl>>, elapsed: seq<int>) returns (results: seq<ScrapeResult>)
      requires |crawls| == |urls| && |elapsed| == |urls|
      ensures |results| == |urls|
      ensures forall i :: 0 <= i < |results| ==> (results[i].success ==> Succeeded(results[i]))
      ensures forall i :: 0 <= i < |results| ==> BatchEntry(urls[i], crawls[i], elapsed[i], results[i])
    {
      results := [];
      for i := 0 to |urls|
        invariant |results| == i
        invariant forall k :: 0 <= k < i ==> (results[k].success ==> Succeeded(results[k]))
        invariant forall k :: 0 <= k < i ==> BatchEntry(urls[k], crawls[k], elapsed[k], results[k])
      {
        var one := ProcessCrawled(urls[i], crawls[i], elapsed[i]);
        results := results + [one];
      }
    }

    /** One entry of a large batch. */
    method ProcessCrawled(url: string, crawl: Option<Crawl>, ms: int) returns (r: ScrapeResult)
      ensures BatchEntry(url, crawl, ms, r)
      ensures r.success ==> Succeeded(r)
    {
      var domain := if crawl.Some? then Security.ExtractDomain(url) else "";
      if crawl.None? || !crawl.value.success {
        var message := if crawl.Some? then crawl.value.errorMessage else "Crawl failed";
        return Failure(url, domain, M.NetworkFailure, message, ms);
      }
      r := CrawledPage(url, domain, crawl.value, BlockOf(crawl.value), ms);
    }

    /** One entry of a large batch whose crawl succeeded and whose page
        detect_block judged `block`. */
    method CrawledPage(url: string, domain: string, crawl: Crawl, block: B.BlockResult, ms: int) returns (r: ScrapeResult)
      ensures r.url == url && r.responseTimeMs == ms && r.domain == domain
      ensures block.isBlocked ==> r == Failure(url, domain, M.Blocked, "Blocked: " + block.details, ms)
      ensures r.success ==> !block.isBlocked && Succeeded(r)
      ensures !r.success && !block.isBlocked ==> r.errorType == Some(M.ParseFailure)
      ensures !block.isBlocked ==> (r.success <==> Waterfall(crawl.page, StoresSeed.GetStoreSelectors(domain), hasLlm, html).Some?)
      ensures r.success ==> r.product == Waterfall(crawl.page, StoresSeed.GetStoreSelectors(domain), hasLlm, html)
    {
      if block.isBlocked {
        return Failure(url, domain, M.Blocked, "Blocked: " + block.details, ms);
      }
      r := ExtractCrawled(url, domain, crawl, StoresSeed.GetStoreSelectors(domain), ms);
    }

    /** The extraction of a large batch's entry with the store's selectors:
        the waterfall's product, or PARSE_FAILURE where there is none. */
    method ExtractCrawled(url: string, domain: string, crawl: Crawl, selectors: Json, ms: int) returns (r: ScrapeResult)
      ensures r.url == url && r.responseTimeMs == ms && r.domain == domain
      ensures r.success ==> Succeeded(r)
      ensures !r.success ==> r.errorType == Some(M.ParseFailure)
      ensures r.success <==> Waterfall(crawl.page, selectors, hasLlm, html).Some?
      ensures r.success ==> r.product == Waterfall(crawl.page, selectors, hasLlm, html)
    {
      var product := Extract(crawl.page, selectors, hasLlm, html);
      WaterfallAnswer(crawl.page, selectors, hasLlm, html);
      if product.Some? && HasNameAndPrice(product.value) {
        return ScrapeResult(true, product, url, domain, product.value.strategyUsed, ms, None, None, 1, crawl.statusCode);
      }
      return Failure(url, domain, M.ParseFailure, "Failed to extract product data", ms);
    }
  }

  /** The shape of a large batch's entry for its URL and crawl. */
  predicate BatchEntry(url: string, crawl: Option<Crawl>, ms: int, r: ScrapeResult)
  {
    && r.url == url
    && r.responseTimeMs == ms
    && r.domain == (if crawl.Some? then Security.ExtractDomain(url) else "")
    && (crawl.None? ==> r == Failure(url, "", M.NetworkFailure, "Crawl failed", ms))
    && (crawl.Some? && !crawl.value.success ==> r.errorType == Some(M.NetworkFailure) && r.errorMessage == Some(crawl.value.errorMessage))
    && (crawl.Some? && crawl.value.success && BlockOf(crawl.value).isBlocked
        ==> r.errorType == Some(M.Blocked) && r.errorMessage == Some("Blocked: " + BlockOf(crawl.value).details))
    && (r.success ==> crawl.Some? && crawl.value.success && !BlockOf(crawl.value).isBlocked)
    && (!r.success && crawl.Some? && crawl.value.success && !BlockOf(crawl.value).isBlocked
        ==> r.errorType == Some(M.ParseFailure))
  }
}
