/** Block detection for scraped pages (scraper/block_detection.py): an ordered,
    short-circuiting classifier over the HTTP status code (429 Too Many Requests
    of RFC 6585 section 4, 403 Forbidden and 404 Not Found of RFC 9110 sections
    15.5.4 and 15.5.5, 503 Service Unavailable of RFC 9110 section 15.6.4) and
    families of case-insensitive regular expressions over the page text. */
module BlockDetection {
  import opened Common

  // ---------------------------------------------------------------
  // The regular expressions of the pattern families
  // ---------------------------------------------------------------

  /** The pattern families use literal characters and the wildcards `.`,
      `.?`, `.*` and `.+`; Python's `.` matches any character but a newline. */
  datatype Tok = Ch(c: char) | AnyOne | AnyOpt | AnyStar | AnyPlus

  predicate Wild(c: char) { c != '\n' }

  /** Reads a pattern string as tokens. */
  function Compile(p: string): (ts: seq<Tok>)
    ensures |ts| <= |p|
    ensures p != [] && p[0] != '.' ==> ts != [] && ts[0] == Ch(p[0])
    ensures p == [] <==> ts == []
  {
    if p == [] then []
    else if p[0] == '.' && |p| >= 2 && p[1] == '?' then [AnyOpt] + Compile(p[2..])
    else if p[0] == '.' && |p| >= 2 && p[1] == '*' then [AnyStar] + Compile(p[2..])
    else if p[0] == '.' && |p| >= 2 && p[1] == '+' then [AnyPlus] + Compile(p[2..])
    else if p[0] == '.' then [AnyOne] + Compile(p[1..])
    else [Ch(p[0])] + Compile(p[1..])
  }

  /** The tokens match some prefix of `s` (backtracking, as `re` does). */
  predicate MatchHere(ts: seq<Tok>, s: string)
    decreases |ts|, |s|
  {
    if ts == [] then true
    else match ts[0]
      case Ch(c) => s != [] && s[0] == c && MatchHere(ts[1..], s[1..])
      case AnyOne => s != [] && Wild(s[0]) && MatchHere(ts[1..], s[1..])
      case AnyOpt => MatchHere(ts[1..], s) || (s != [] && Wild(s[0]) && MatchHere(ts[1..], s[1..]))
      case AnyStar => MatchHere(ts[1..], s) || (s != [] && Wild(s[0]) && MatchHere(ts, s[1..]))
      case AnyPlus => s != [] && Wild(s[0]) && MatchHere([AnyStar] + ts[1..], s[1..])
  }

  /** re.search: a match starting at some position of `s`. */
  predicate Search(ts: seq<Tok>, s: string)
    decreases |s|
  {
    MatchHere(ts, s) || (s != [] && Search(ts, s[1..]))
  }

  /** A pattern whose first token is a character absent from the text matches
      nowhere in it. */
  lemma {:induction false} SearchNeedsFirstChar(ts: seq<Tok>, s: string)
    requires ts != [] && ts[0].Ch? && ts[0].c !in s
    ensures !Search(ts, s)
    decreases |s|
  {
    if s != [] {
      assert s[0] != ts[0].c;
      assert forall x :: x in s[1..] ==> x in s;
      SearchNeedsFirstChar(ts, s[1..]);
    }
  }

  /** re.search(pattern, text, re.IGNORECASE), with case folded to ASCII
      lower case on the text (every pattern is written in lower case). */
  predicate PatternHit(p: string, text: string)
  {
    Search(Compile(p), LowerStr(text))
  }

  predicate HitsAny(text: string, patterns: seq<string>)
  {
    exists i :: 0 <= i < |patterns| && PatternHit(patterns[i], text)
  }

  /** The patterns of the family that occur in the text, in family order. */
  function MatchedPatterns(text: string, patterns: seq<string>): (m: seq<string>)
    ensures |m| <= |patterns|
    ensures forall p :: p in m ==> p in patterns && PatternHit(p, text)
    ensures forall i :: 0 <= i < |patterns| && PatternHit(patterns[i], text) ==> patterns[i] in m
    ensures m == [] <==> !HitsAny(text, patterns)
  {
    if patterns == [] then []
    else
      var rest := MatchedPatterns(text, patterns[1..]);
      assert forall i :: 1 <= i < |patterns| ==> patterns[i] == patterns[1..][i - 1];
      if PatternHit(patterns[0], text) then [patterns[0]] + rest else rest
  }

  /** _matches_patterns: the pair (any pattern matched, the matched patterns). */
  function MatchesPatterns(text: string, patterns: seq<string>): (r: (bool, seq<string>))
    ensures r.0 <==> HitsAny(text, patterns)
    ensures r.0 <==> r.1 != []
    ensures forall p :: p in r.1 ==> p in patterns && PatternHit(p, text)
  {
    var m := MatchedPatterns(text, patterns);
    (m != [], m)
  }

  // ---------------------------------------------------------------
  // Pattern families
  // ---------------------------------------------------------------

  const CaptchaPatterns: seq<string> := [
    "captcha", "recaptcha", "hcaptcha", "challenge-form", "g-recaptcha",
    "cf-turnstile", "verify.+human", "robot.+check", "prove.+human",
    "security.+check", "are you a robot", "i am not a robot",
    "complete.+captcha", "datadome", "px-captcha", "distil"]

  const LoginPatterns: seq<string> := [
    "sign.?in", "log.?in", "please.+sign.?in", "please.+log.?in",
    "authentication.+required", "access.+denied.*login", "members.+only",
    "password", "create.+account", "register.+to.+continue"]

  const RateLimitPatterns: seq<string> := [
    "rate.?limit", "too.+many.+requests", "slow.+down", "try.+again.+later",
    "request.+limit", "temporarily.+unavailable", "service.+unavailable",
    "retry.+later"]

  const BotDetectionPatterns: seq<string> := [
    "automated.+access", "bot.+detected", "suspicious.+activity",
    "unusual.+traffic", "blocked.+suspicious", "access.+denied",
    "pardon.+interruption", "attention.+required", "checking.+browser",
    "ddos.+protection", "cloudflare", "akamai", "incapsula", "imperva", "sucuri"]

  const GeoBlockPatterns: seq<string> := [
    "not.+available.+in.+your.+region", "not.+available.+in.+your.+country",
    "geo.?restricted", "region.+blocked", "available.+only.+in",
    "sorry.+this.+content.+is.+not.+available"]

  const MaintenancePatterns: seq<string> := [
    "under.+maintenance", "scheduled.+maintenance", "temporarily.+down",
    "we.+will.+be.+back", "site.+under.+construction", "coming.+soon"]

  const AgeGatePatterns: seq<string> := [
    "age.+verification", "confirm.+your.+age", "must.+be.+18", "must.+be.+21",
    "adult.+content", "age.+restricted"]

  /** Every pattern of every family starts with a lower-case letter. */
  predicate StartsWithLetter(patterns: seq<string>)
  {
    forall i :: 0 <= i < |patterns| ==> patterns[i] != [] && IsLower(patterns[i][0])
  }

  // ---------------------------------------------------------------
  // Results
  // ---------------------------------------------------------------

  datatype BlockType =
    | Captcha | LoginRequired | RateLimited | GeoBlocked | BotDetection
    | EmptyResponse | AccessDenied | AgeGate | Maintenance | NotFound

  datatype BlockResult = BlockResult(
    isBlocked: bool,
    blockType: Option<BlockType>,
    confidence: real,
    details: string,
    indicators: Option<seq<string>>)

  const NotBlocked := BlockResult(false, None, 0.0, "", None)

  /** The detectors of one pattern family (_detect_captcha, _detect_bot_block,
      _detect_rate_limit, _detect_geo_block, _detect_age_gate). */
  function DetectFamily(text: string, patterns: seq<string>, t: BlockType, confidence: real, details: string): (r: BlockResult)
    ensures r.isBlocked <==> HitsAny(text, patterns)
    ensures r.isBlocked ==> r.blockType == Some(t) && r.confidence == confidence
    ensures r.isBlocked ==> r.indicators.Some? && r.indicators.value != []
                            && forall p :: p in r.indicators.value ==> p in patterns && PatternHit(p, text)
    ensures !r.isBlocked ==> r == NotBlocked
  {
    var (hit, matched) := MatchesPatterns(text, patterns);
    if hit then BlockResult(true, Some(t), confidence, details, Some(matched)) else NotBlocked
  }

  function DetectCaptcha(text: string): (r: BlockResult)
    ensures r.isBlocked <==> HitsAny(text, CaptchaPatterns)
    ensures r.isBlocked ==> r.blockType == Some(Captcha) && r.confidence == 0.9
  {
    DetectFamily(text, CaptchaPatterns, Captcha, 0.9, "CAPTCHA challenge detected")
  }

  function DetectBotBlock(text: string): (r: BlockResult)
    ensures r.isBlocked <==> HitsAny(text, BotDetectionPatterns)
    ensures r.isBlocked ==> r.blockType == Some(BotDetection) && r.confidence == 0.85
  {
    DetectFamily(text, BotDetectionPatterns, BotDetection, 0.85, "Bot detection triggered")
  }

  function DetectRateLimit(text: string): (r: BlockResult)
    ensures r.isBlocked <==> HitsAny(text, RateLimitPatterns)
    ensures r.isBlocked ==> r.blockType == Some(RateLimited) && r.confidence == 0.9
  {
    DetectFamily(text, RateLimitPatterns, RateLimited, 0.9, "Rate limiting detected")
  }

  function DetectGeoBlock(text: string): (r: BlockResult)
    ensures r.isBlocked <==> HitsAny(text, GeoBlockPatterns)
    ensures r.isBlocked ==> r.blockType == Some(GeoBlocked) && r.confidence == 0.85
  {
    DetectFamily(text, GeoBlockPatterns, GeoBlocked, 0.85, "Content not available in your region")
  }

  function DetectAgeGate(text: string): (r: BlockResult)
    ensures r.isBlocked <==> HitsAny(text, AgeGatePatterns)
    ensures r.isBlocked ==> r.blockType == Some(AgeGate) && r.confidence == 0.85
  {
    DetectFamily(text, AgeGatePatterns, AgeGate, 0.85, "Age verification required")
  }

  /** The two phrases that make a login page a block. */
  predicate LoginWall(text: string)
  {
    Contains(text, "sign in to continue") || Contains(text, "log in to continue")
  }

  /** _detect_login_required: login patterns alone only report indicators;
      the page is blocked only behind an explicit login wall. */
  function DetectLoginRequired(text: string): (r: BlockResult)
    ensures r.isBlocked <==> HitsAny(text, LoginPatterns) && LoginWall(text)
    ensures r.isBlocked ==> r.blockType == Some(LoginRequired) && r.confidence == 0.9
    ensures !r.isBlocked ==> r.blockType == None
    ensures r.indicators.Some? <==> HitsAny(text, LoginPatterns)
  {
    var (hit, matched) := MatchesPatterns(text, LoginPatterns);
    if hit then
      if LoginWall(text) then BlockResult(true, Some(LoginRequired), 0.9, "Login required to view content", Some(matched))
      else BlockResult(false, None, 0.0, "", Some(matched))
    else NotBlocked
  }

  // ---------------------------------------------------------------
  // 403 pages
  // ---------------------------------------------------------------

  const WafHeaders: seq<string> := ["cf-ray", "x-sucuri-id", "x-akamai-request-id", "x-cdn"]

  /** Some WAF/CDN header name, lower-cased, is a key of the response headers. */
  predicate WafDetected(headers: map<string, string>)
  {
    exists i :: 0 <= i < |WafHeaders| && LowerStr(WafHeaders[i]) in headers
  }

  /** _detect_403_block: a 403 is always a block; the WAF headers are tested
      before the CAPTCHA patterns. */
  function Detect403Block(html: string, headers: map<string, string>): (r: BlockResult)
    ensures r.isBlocked
    ensures WafDetected(headers) ==> r.blockType == Some(BotDetection) && r.confidence == 0.9
    ensures !WafDetected(headers) && HitsAny(LowerStr(html), CaptchaPatterns)
            ==> r.blockType == Some(Captcha) && r.confidence == 0.95
    ensures !WafDetected(headers) && !HitsAny(LowerStr(html), CaptchaPatterns)
            ==> r.blockType == Some(AccessDenied) && r.confidence == 0.8
    ensures r.indicators.Some? && r.indicators.value != [] && r.indicators.value[0] == "http_403"
  {
    var htmlLower := LowerStr(html);
    if WafDetected(headers) then
      BlockResult(true, Some(BotDetection), 0.9, "WAF/CDN blocking detected", Some(["http_403", "waf_header"]))
    else
      var (hit, matched) := MatchesPatterns(htmlLower, CaptchaPatterns);
      if hit then BlockResult(true, Some(Captcha), 0.95, "CAPTCHA challenge required", Some(["http_403"] + matched))
      else BlockResult(true, Some(AccessDenied), 0.8, "Access denied (403)", Some(["http_403"]))
  }

  // ---------------------------------------------------------------
  // detect_block
  // ---------------------------------------------------------------

  /** `not html or len(html.strip()) < 100`. */
  predicate ShortBody(html: string)
  {
    html == [] || |Strip(html)| < 100
  }

  /** Some content detector fires on the lower-cased page. */
  predicate ContentHit(text: string)
  {
    HitsAny(text, CaptchaPatterns) || HitsAny(text, BotDetectionPatterns)
    || (HitsAny(text, LoginPatterns) && LoginWall(text))
    || HitsAny(text, RateLimitPatterns) || HitsAny(text, GeoBlockPatterns)
    || HitsAny(text, AgeGatePatterns)
  }

  /** The content detectors in order; the first that blocks wins. */
  function DetectContent(text: string): (r: BlockResult)
    ensures r.isBlocked <==> ContentHit(text)
    ensures !r.isBlocked ==> r == NotBlocked
    ensures r.blockType == Some(Captcha) ==> HitsAny(text, CaptchaPatterns)
    ensures r.blockType == Some(BotDetection) ==> !HitsAny(text, CaptchaPatterns) && HitsAny(text, BotDetectionPatterns)
    ensures r.blockType == Some(LoginRequired)
            ==> !HitsAny(text, CaptchaPatterns) && !HitsAny(text, BotDetectionPatterns) && LoginWall(text)
    ensures r.blockType == Some(RateLimited)
            ==> !HitsAny(text, CaptchaPatterns) && !HitsAny(text, BotDetectionPatterns)
                && !(HitsAny(text, LoginPatterns) && LoginWall(text)) && HitsAny(text, RateLimitPatterns)
    ensures r.blockType == Some(GeoBlocked)
            ==> !HitsAny(text, CaptchaPatterns) && !HitsAny(text, BotDetectionPatterns)
                && !(HitsAny(text, LoginPatterns) && LoginWall(text)) && !HitsAny(text, RateLimitPatterns)
                && HitsAny(text, GeoBlockPatterns)
    ensures r.blockType == Some(AgeGate)
            ==> !HitsAny(text, CaptchaPatterns) && !HitsAny(text, BotDetectionPatterns)
                && !(HitsAny(text, LoginPatterns) && LoginWall(text)) && !HitsAny(text, RateLimitPatterns)
                && !HitsAny(text, GeoBlockPatterns) && HitsAny(text, AgeGatePatterns)
    ensures r.blockType.Some? ==> r.blockType.value in {Captcha, BotDetection, LoginRequired, RateLimited, GeoBlocked, AgeGate}
  {
    var captcha := DetectCaptcha(text);
    if captcha.isBlocked then captcha
    else var bot := DetectBotBlock(text);
    if bot.isBlocked then bot
    else var login := DetectLoginRequired(text);
    if login.isBlocked then login
    else var rate := DetectRateLimit(text);
    if rate.isBlocked then rate
    else var geo := DetectGeoBlock(text);
    if geo.isBlocked then geo
    else DetectAgeGate(text)
  }

  /** detect_block with the test of the 503 branch passed in, so that the
      code as written and the corrected test share every other step. */
  function DetectBlockWith(html: string, status: int, headers: map<string, string>, maintenanceTest: bool): (r: BlockResult)
    ensures status == 429 ==> r.isBlocked && r.blockType == Some(RateLimited) && r.confidence == 1.0
    ensures status == 404 ==> r.isBlocked && r.blockType == Some(NotFound) && r.confidence == 1.0
    ensures status != 429 && status != 404 && ShortBody(html)
            ==> r.isBlocked && r.blockType == Some(EmptyResponse) && r.confidence == 0.9
    ensures status == 403 && !ShortBody(html)
            ==> r.isBlocked && r.blockType.Some? && r.blockType.value in {BotDetection, Captcha, AccessDenied}
    ensures status == 503 && !ShortBody(html) && maintenanceTest
            ==> r.isBlocked && r.blockType == Some(Maintenance)
    ensures r.isBlocked <==> status == 429 || status == 404 || ShortBody(html) || status == 403
                             || (status == 503 && maintenanceTest) || ContentHit(LowerStr(html))
    ensures !r.isBlocked ==> r == NotBlocked
    ensures r.blockType == Some(Maintenance) ==> status == 503 && maintenanceTest
    ensures r.blockType == Some(EmptyResponse) ==> ShortBody(html)
  {
    if status == 429 then
      BlockResult(true, Some(RateLimited), 1.0, "Rate limited by server (429)", Some(["http_429"]))
    else if status == 404 then
      BlockResult(true, Some(NotFound), 1.0, "Page not found (404)", Some(["http_404"]))
    else if ShortBody(html) then
      BlockResult(true, Some(EmptyResponse), 0.9, "Empty or minimal response received", Some(["empty_response"]))
    else
      DetectServed(html, status, headers, maintenanceTest)
  }

  /** The branches of detect_block for a page that is neither refused
      outright (429, 404) nor empty: 403, the 503 test, then the content. */
  function DetectServed(html: string, status: int, headers: map<string, string>, maintenanceTest: bool): (r: BlockResult)
    ensures status == 403 ==> r.isBlocked && r.blockType.Some? && r.blockType.value in {BotDetection, Captcha, AccessDenied}
    ensures status == 503 && maintenanceTest ==> r.isBlocked && r.blockType == Some(Maintenance)
    ensures r.isBlocked <==> status == 403 || (status == 503 && maintenanceTest) || ContentHit(LowerStr(html))
    ensures !r.isBlocked ==> r == NotBlocked
    ensures r.blockType == Some(Maintenance) ==> status == 503 && maintenanceTest
    ensures r.blockType != Some(EmptyResponse)
  {
    if status == 403 then
      Detect403Block(html, headers)
    else if status == 503 && maintenanceTest then
      BlockResult(true, Some(Maintenance), 0.9, "Site under maintenance", Some(["http_503", "maintenance_pattern"]))
    else
      DetectContent(LowerStr(html))
  }

  /** Python truthiness of a tuple: a non-empty tuple is true whatever it holds. */
  predicate PairTruthy(pair: (bool, seq<string>))
  {
    true
  }

  /** detect_block as written: the 503 branch tests the (bool, list) pair
      returned by _matches_patterns, which is always truthy. */
  function DetectBlockAsWritten(html: string, status: int, headers: map<string, string>): (r: BlockResult)
    ensures status == 503 && !ShortBody(html)
            ==> r.isBlocked && r.blockType == Some(Maintenance) && r.details == "Site under maintenance"
    ensures r.blockType == Some(Maintenance) ==> status == 503
    ensures r.isBlocked <==> status == 429 || status == 404 || ShortBody(html) || status == 403
                             || status == 503 || ContentHit(LowerStr(html))
    ensures !r.isBlocked ==> r == NotBlocked
  {
    DetectBlockWith(html, status, headers, PairTruthy(MatchesPatterns(html, MaintenancePatterns)))
  }

  /** detect_block with the 503 branch testing the boolean of the pair: a 503
      page is MAINTENANCE only when a maintenance pattern occurs in it. */
  function DetectBlock(html: string, status: int, headers: map<string, string>): (r: BlockResult)
    ensures status == 503 && !ShortBody(html) && HitsAny(html, MaintenancePatterns)
            ==> r.blockType == Some(Maintenance)
    ensures r.blockType == Some(Maintenance) ==> status == 503 && HitsAny(html, MaintenancePatterns)
    ensures r.isBlocked <==> status == 429 || status == 404 || ShortBody(html) || status == 403
                             || (status == 503 && HitsAny(html, MaintenancePatterns)) || ContentHit(LowerStr(html))
    ensures !r.isBlocked ==> r == NotBlocked
  {
    DetectBlockWith(html, status, headers, MatchesPatterns(html, MaintenancePatterns).0)
  }

  /** No pattern of a family whose patterns all start with a letter occurs in
      a text without letters. */
  lemma NoHitWithoutLetters(text: string, patterns: seq<string>)
    requires StartsWithLetter(patterns)
    requires forall i :: 0 <= i < |text| ==> IsDigit(text[i])
    ensures !HitsAny(text, patterns)
  {
    var low := LowerStr(text);
    forall i | 0 <= i < |patterns|
      ensures !PatternHit(patterns[i], text)
    {
      var p := patterns[i];
      assert forall j :: 0 <= j < |low| ==> low[j] == text[j];
      assert p[0] !in low;
      SearchNeedsFirstChar(Compile(p), low);
    }
  }

  /** Every pattern family starts each pattern with a letter. */
  lemma FamiliesStartWithLetters()
    ensures StartsWithLetter(CaptchaPatterns) && StartsWithLetter(BotDetectionPatterns)
    ensures StartsWithLetter(LoginPatterns) && StartsWithLetter(RateLimitPatterns)
    ensures StartsWithLetter(GeoBlockPatterns) && StartsWithLetter(AgeGatePatterns)
    ensures StartsWithLetter(MaintenancePatterns)
  {
  }

  /** A long 503 page of digits only: the code as written reports MAINTENANCE,
      the corrected test finds no block at all. */
  lemma Digits503(html: string, headers: map<string, string>)
    requires !ShortBody(html)
    requires forall i :: 0 <= i < |html| ==> IsDigit(html[i])
    ensures DetectBlockAsWritten(html, 503, headers).blockType == Some(Maintenance)
    ensures DetectBlock(html, 503, headers) == NotBlocked
  {
    FamiliesStartWithLetters();
    LowerOfDigits(html);
    NoHitWithoutLetters(html, MaintenancePatterns);
    NoContentInDigits(LowerStr(html));
    Unblocked503(html, headers);
  }

  /** A long 503 page without maintenance or content patterns is not blocked. */
  lemma Unblocked503(html: string, headers: map<string, string>)
    requires !ShortBody(html)
    requires !HitsAny(html, MaintenancePatterns) && !ContentHit(LowerStr(html))
    ensures !DetectBlock(html, 503, headers).isBlocked
  {
  }

  /** Lower-casing leaves digits alone. */
  lemma LowerOfDigits(html: string)
    requires forall i :: 0 <= i < |html| ==> IsDigit(html[i])
    ensures forall i :: 0 <= i < |html| ==> IsDigit(LowerStr(html)[i])
  {
    var low := LowerStr(html);
    forall i | 0 <= i < |html|
      ensures IsDigit(low[i])
    {
      assert !IsUpper(html[i]);
    }
  }

  /** Text made of digits has no content pattern of any family. */
  lemma NoContentInDigits(low: string)
    requires forall i :: 0 <= i < |low| ==> IsDigit(low[i])
    ensures !ContentHit(low)
  {
    FamiliesStartWithLetters();
    NoHitWithoutLetters(low, CaptchaPatterns);
    NoHitWithoutLetters(low, BotDetectionPatterns);
    NoHitWithoutLetters(low, LoginPatterns);
    NoHitWithoutLetters(low, RateLimitPatterns);
    NoHitWithoutLetters(low, GeoBlockPatterns);
    NoHitWithoutLetters(low, AgeGatePatterns);
  }

  /** The page of one hundred zeros is such a page. */
  lemma Maintenance503Finding()
    ensures DetectBlockAsWritten(seq(100, _ => '0'), 503, map[]).blockType == Some(Maintenance)
    ensures DetectBlock(seq(100, _ => '0'), 503, map[]) == NotBlocked
  {
    var html: string := seq(100, _ => '0');
    assert LStrip(html) == html;
    assert RStrip(html) == html;
    Digits503(html, map[]);
  }

  // ---------------------------------------------------------------
  // Evasion strategies
  // ---------------------------------------------------------------

  /** The strategy's "action": "fail", "wait", "rotate" or "retry". */
  datatype Action = Fail | Wait | Rotate | Retry

  datatype Evasion = Evasion(
    action: Action,
    message: string,
    retryable: bool,
    waitSeconds: Option<nat>,
    rotateUserAgent: bool,
    clearCookies: bool,
    addDelay: Option<nat>,
    maxRetries: Option<nat>)

  /** The strategy table, with the default entry for a missing block type. */
  function EvasionFor(t: Option<BlockType>): (e: Evasion)
    ensures e.retryable <==> e.action != Fail
    ensures e.waitSeconds.Some? <==> e.action == Wait
  {
    match t
    case Some(Captcha) => Evasion(Fail, "CAPTCHA detected. Manual intervention required.", false, None, false, false, None, None)
    case Some(LoginRequired) => Evasion(Fail, "Login required. Cannot scrape protected content.", false, None, false, false, None, None)
    case Some(RateLimited) => Evasion(Wait, "Rate limited. Waiting before retry.", true, Some(60), false, false, None, None)
    case Some(GeoBlocked) => Evasion(Fail, "Content not available in your region.", false, None, false, false, None, None)
    case Some(BotDetection) => Evasion(Rotate, "Bot detection triggered. Rotating identity.", true, None, true, true, Some(5), None)
    case Some(EmptyResponse) => Evasion(Retry, "Empty response. Retrying with delay.", true, None, false, false, Some(2), None)
    case Some(AccessDenied) => Evasion(Rotate, "Access denied. Rotating user agent.", true, None, true, false, None, Some(2))
    case Some(AgeGate) => Evasion(Fail, "Age verification required. Cannot proceed automatically.", false, None, false, false, None, None)
    case Some(Maintenance) => Evasion(Wait, "Site under maintenance.", true, Some(300), false, false, None, None)
    case Some(NotFound) => Evasion(Fail, "Page not found (404).", false, None, false, false, None, None)
    case None => Evasion(Retry, "Unknown block type", true, None, false, false, None, None)
  }

  /** The block types the scraper gives up on. */
  predicate Final(t: BlockType)
  {
    t in {Captcha, LoginRequired, GeoBlocked, AgeGate, NotFound}
  }

  /** get_evasion_strategy: nothing (the empty dict) for an unblocked result. */
  function GetEvasionStrategy(r: BlockResult): (e: Option<Evasion>)
    ensures e.None? <==> !r.isBlocked
    ensures e.Some? ==> (e.value.retryable <==> !(r.blockType.Some? && Final(r.blockType.value)))
    ensures e.Some? && r.blockType in {Some(RateLimited), Some(Maintenance)}
            ==> e.value.action == Wait && e.value.waitSeconds.Some? && e.value.waitSeconds.value >= 60
  {
    if !r.isBlocked then None else Some(EvasionFor(r.blockType))
  }

  /** Every block that detect_block reports has a strategy, and a status 429 or
      a 503 maintenance page is waited out rather than given up. */
  lemma DetectedBlocksHaveStrategy(html: string, status: int, headers: map<string, string>)
    requires status == 429 || (status == 503 && !ShortBody(html) && HitsAny(html, MaintenancePatterns))
    ensures GetEvasionStrategy(DetectBlock(html, status, headers)).Some?
    ensures GetEvasionStrategy(DetectBlock(html, status, headers)).value.action == Wait
  {
  }
}
