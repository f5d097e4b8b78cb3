/** URL validation, the store whitelist, the private-address test and price
    normalisation of core/security.py. scraper/validators.py and
    scraper/sanitization.py carry character-for-character copies of several of
    these functions; those modules reuse the definitions here. */
module Security {
  import opened Common

  // ---------------------------------------------------------------
  // urllib.parse.urlparse, the part the validators read
  // ---------------------------------------------------------------

  datatype ParsedUrl = ParsedUrl(scheme: string, netloc: string, path: string,
                                 params: string, query: string, fragment: string)

  predicate IsSchemeChar(c: char)
  {
    IsAlnum(c) || c == '+' || c == '-' || c == '.'
  }

  /** WHATWG "C0 control or space", removed from the front of a URL. */
  predicate IsC0OrSpace(c: char)
  {
    c <= ' '
  }

  predicate IsUnsafeUrlChar(c: char)
  {
    c == '\t' || c == '\r' || c == '\n'
  }

  function LStripC0(s: string): (r: string)
    ensures r == [] || !IsC0OrSpace(r[0])
  {
    if s != [] && IsC0OrSpace(s[0]) then LStripC0(s[1..]) else s
  }

  /** The schemes for which urlparse splits ";params" off the last path segment. */
  const UsesParams: set<string> :=
    {"", "ftp", "hdl", "prospero", "http", "imap", "https", "shttp", "rtsp",
     "rtsps", "rtspu", "sip", "sips", "mms", "sftp", "tel"}

  /** End of the network location: the first '/', '?' or '#' at or after 2. */
  function NetlocEnd(url: string, i: nat): (e: nat)
    requires 2 <= i <= |url|
    ensures i <= e <= |url|
    ensures forall k :: i <= k < e ==> url[k] != '/' && url[k] != '?' && url[k] != '#'
    decreases |url| - i
  {
    if i == |url| || url[i] == '/' || url[i] == '?' || url[i] == '#' then i
    else NetlocEnd(url, i + 1)
  }

  /** urlparse's _splitparams: the ';' searched after the last '/'. */
  function SplitParams(path: string): (r: (string, string))
  {
    var from := match LastIndexOf(path, '/') case Some(j) => j case None => 0;
    var tail := path[from..];
    if ';' !in tail then (path, "")
    else
      var i := from + IndexOf(tail, ';').value;
      (path[..i], path[i + 1..])
  }

  /** urllib.parse.urlparse with allow_fragments=True, without the bracket checks. */
  function UrlParse(raw: string): (p: ParsedUrl)
  {
    var url0 := Filter(LStripC0(raw), c => !IsUnsafeUrlChar(c));
    var colon := IndexOf(url0, ':');
    var hasScheme := colon.Some? && colon.value > 0 && IsAlpha(url0[0])
                     && forall k :: 0 <= k < colon.value ==> IsSchemeChar(url0[k]);
    var scheme := if hasScheme then LowerStr(url0[..colon.value]) else "";
    var url1 := if hasScheme then url0[colon.value + 1..] else url0;
    var netEnd := if |url1| >= 2 && url1[..2] == "//" then NetlocEnd(url1, 2) else 0;
    var netloc := if netEnd >= 2 then url1[2..netEnd] else "";
    var url2 := url1[netEnd..];
    var fragment := if '#' in url2 then After(url2, '#') else "";
    var url3 := Before(url2, '#');
    var query := if '?' in url3 then After(url3, '?') else "";
    var url4 := Before(url3, '?');
    var pp := if scheme in UsesParams && ';' in url4 then SplitParams(url4) else (url4, "");
    ParsedUrl(scheme, netloc, pp.0, pp.1, query, fragment)
  }

  // ---------------------------------------------------------------
  // Host names
  // ---------------------------------------------------------------

  predicate IsLowerAlnum(c: char) { IsLower(c) || IsDigit(c) }

  /** One label of ^[a-z0-9]([a-z0-9-]*[a-z0-9])?: alphanumeric at both ends, '-' inside. */
  predicate ValidLabel(l: string)
  {
    l != [] && IsLowerAlnum(l[0]) && IsLowerAlnum(l[|l| - 1])
    && forall k :: 0 <= k < |l| ==> IsLowerAlnum(l[k]) || l[k] == '-'
  }

  /** The host-name pattern of validate_url: dot-separated valid labels. */
  predicate ValidHostname(d: string)
  {
    var labels := SplitOn(d, '.');
    forall k :: 0 <= k < |labels| ==> ValidLabel(labels[k])
  }

  /** netloc.lower() with any ":port" (everything from the first ':') removed. */
  function HostOf(netloc: string): (h: string)
    ensures ':' !in h && forall k :: 0 <= k < |h| ==> !IsUpper(h[k])
    ensures h <= LowerStr(netloc)
    ensures ':' !in netloc ==> h == LowerStr(netloc)
  {
    Before(LowerStr(netloc), ':')
  }

  // ---------------------------------------------------------------
  // validate_url, extract_domain, whitelist
  // ---------------------------------------------------------------

  datatype UrlError =
    | EmptyUrl
    | ParseFailure
    | DnsFailure(host: string)
    | BadScheme(scheme: string)
    | NoDomain
    | BadDomain(domain: string)
    | UnsupportedStore(store: string)

  datatype UrlResult = Valid(url: string) | Invalid(error: UrlError)

  /** The normalised form: scheme://netloc + path, "?query" when non-empty, no fragment. */
  function Normalized(p: ParsedUrl): string
  {
    p.scheme + "://" + p.netloc + p.path + (if p.query != [] then "?" + p.query else "")
  }

  function ValidateUrl(url: string): (r: UrlResult)
    ensures url == [] ==> r == Invalid(EmptyUrl)
    ensures r.Valid? ==>
      var p := UrlParse(Strip(url));
      && (p.scheme == "http" || p.scheme == "https")
      && p.netloc != []
      && ValidHostname(HostOf(p.netloc))
      && r.url == Normalized(p)
    ensures r.Invalid? ==> !r.error.UnsupportedStore?
  {
    if url == [] then Invalid(EmptyUrl)
    else
      var p := UrlParse(Strip(url));
      if '[' in p.netloc || ']' in p.netloc then Invalid(ParseFailure)
      else if p.scheme != "http" && p.scheme != "https" then Invalid(BadScheme(p.scheme))
      else if p.netloc == [] then Invalid(NoDomain)
      else if !ValidHostname(HostOf(p.netloc)) then Invalid(BadDomain(HostOf(p.netloc)))
      else Valid(Normalized(p))
  }

  /** Lower-cased host without port and without one leading "www.". */
  function ExtractDomain(url: string): (d: string)
    ensures ':' !in d && forall k :: 0 <= k < |d| ==> !IsUpper(d[k])
  {
    StripWww(HostOf(UrlParse(url).netloc))
  }

  /** One leading "www." removed, and only one. */
  function StripWww(host: string): (d: string)
    ensures "www." <= host <==> host == "www." + d
    ensures !("www." <= host) ==> d == host
    ensures |d| <= |host| && d == host[|host| - |d|..]
  {
    if "www." <= host then host[4..] else host
  }

  /** The sixteen whitelisted store domains, in category order. */
  const P0Stores: seq<string> := [
    "amazon.ca", "walmart.ca", "costco.ca", "canadiantire.ca",
    "bestbuy.ca", "thesource.ca", "memoryexpress.com", "canadacomputers.com", "newegg.ca",
    "loblaws.ca", "nofrills.ca", "realcanadiansuperstore.ca", "metro.ca", "sobeys.com",
    "shoppersdrugmart.ca",
    "homedepot.ca"
  ]

  /** An omitted whitelist (None) means the P0 stores; an empty list stays empty. */
  function WhitelistOrDefault(whitelist: Option<seq<string>>): seq<string>
  {
    match whitelist
    case None => P0Stores
    case Some(w) => w
  }

  predicate IsWhitelistedStore(url: string, whitelist: Option<seq<string>>)
  {
    var wl := WhitelistOrDefault(whitelist);
    var d := ExtractDomain(url);
    d in wl || "www." + d in wl
  }

  function ValidateWhitelistedUrl(url: string, whitelist: Option<seq<string>>): (r: UrlResult)
    ensures ValidateUrl(url).Invalid? ==> r == ValidateUrl(url)
    ensures ValidateUrl(url).Valid? && IsWhitelistedStore(ValidateUrl(url).url, whitelist)
            ==> r == ValidateUrl(url)
    ensures ValidateUrl(url).Valid? && !IsWhitelistedStore(ValidateUrl(url).url, whitelist)
            ==> r == Invalid(UnsupportedStore(ExtractDomain(ValidateUrl(url).url)))
  {
    match ValidateUrl(url)
    case Invalid(e) => Invalid(e)
    case Valid(n) =>
      if IsWhitelistedStore(n, whitelist) then Valid(n)
      else Invalid(UnsupportedStore(ExtractDomain(n)))
  }

  // ---------------------------------------------------------------
  // Private address ranges as integer intervals
  // ---------------------------------------------------------------

  datatype IpVersion = V4 | V6

  /** An address as its version and its value (32 or 128 bits). */
  datatype IpAddr = IpAddr(version: IpVersion, value: nat)

  /** The result of ipaddress.ip_address: a parsed address or a ValueError. */
  datatype ParsedIp = Unparseable | Addr(addr: IpAddr)

  /** A CIDR network as the interval [lo, lo + size). */
  datatype IpRange = IpRange(version: IpVersion, lo: nat, size: nat)

  function V4Value(a: nat, b: nat, c: nat, d: nat): nat
  {
    ((a * 256 + b) * 256 + c) * 256 + d
  }

  /** PRIVATE_IP_RANGES: RFC 1918 section 3, loopback, RFC 3927 link-local,
      the IPv6 loopback, RFC 4193 unique-local and RFC 4291 link-local. */
  function PrivateIpRanges(): seq<IpRange>
  {
    [ IpRange(V4, V4Value(10, 0, 0, 0), 0x100_0000),     // 10.0.0.0/8
      IpRange(V4, V4Value(172, 16, 0, 0), 0x10_0000),    // 172.16.0.0/12
      IpRange(V4, V4Value(192, 168, 0, 0), 0x1_0000),    // 192.168.0.0/16
      IpRange(V4, V4Value(127, 0, 0, 0), 0x100_0000),    // 127.0.0.0/8
      IpRange(V4, V4Value(169, 254, 0, 0), 0x1_0000),    // 169.254.0.0/16
      IpRange(V6, 1, 1),                                 // ::1/128
      IpRange(V6, 0xfc00_0000_0000_0000_0000_0000_0000_0000, 0x200_0000_0000_0000_0000_0000_0000_0000),  // fc00::/7
      IpRange(V6, 0xfe80_0000_0000_0000_0000_0000_0000_0000, 0x40_0000_0000_0000_0000_0000_0000_0000) ] // fe80::/10
  }

  /** `ip_obj in network`: same version and inside the interval. */
  predicate InRange(a: IpAddr, n: IpRange)
  {
    a.version == n.version && n.lo <= a.value < n.lo + n.size
  }

  /** The loop of is_private_ip: true at the first range that holds the address. */
  function AnyRangeHolds(a: IpAddr, ranges: seq<IpRange>): (r: bool)
    ensures r <==> exists k :: 0 <= k < |ranges| && InRange(a, ranges[k])
  {
    if ranges == [] then false
    else if InRange(a, ranges[0]) then true
    else
      var r := AnyRangeHolds(a, ranges[1..]);
      assert r ==> exists k :: 0 <= k < |ranges| && InRange(a, ranges[k]) by {
        if r { var k :| 0 <= k < |ranges[1..]| && InRange(a, ranges[1..][k]); assert InRange(a, ranges[k + 1]); }
      }
      r
  }

  /** is_private_ip: an unparseable address is treated as private. */
  predicate IsPrivateIp(ip: ParsedIp)
  {
    match ip
    case Unparseable => true
    case Addr(a) => AnyRangeHolds(a, PrivateIpRanges())
  }

  /** 10.x.x.x and 192.168.x.x are private; 8.8.8.8 is not. */
  lemma PrivateIpExamples(x: nat, y: nat)
    requires x < 256 && y < 256
    ensures IsPrivateIp(Addr(IpAddr(V4, V4Value(10, x, y, 1))))
    ensures IsPrivateIp(Addr(IpAddr(V4, V4Value(192, 168, x, y))))
    ensures !IsPrivateIp(Addr(IpAddr(V4, V4Value(8, 8, 8, 8))))
  {
    assert InRange(IpAddr(V4, V4Value(10, x, y, 1)), PrivateIpRanges()[0]);
    assert InRange(IpAddr(V4, V4Value(192, 168, x, y)), PrivateIpRanges()[2]);
  }

  /** resolve_and_validate_url. The resolver is a parameter: it maps a host name
      to its addresses, or to None when resolution fails. */
  datatype SsrfResult = SafeUrl(url: string) | Rejected(error: UrlError) | PrivateAddress(ip: ParsedIp)

  function ResolveAndValidateUrl(url: string, dns: string -> Option<seq<ParsedIp>>): (r: SsrfResult)
    ensures ValidateUrl(url).Invalid? ==> r == Rejected(ValidateUrl(url).error)
    ensures r.SafeUrl? ==> ValidateUrl(url) == Valid(r.url)
    ensures r.SafeUrl? ==> var ips := dns(Before(UrlParse(r.url).netloc, ':'));
                           ips.Some? && forall ip :: ip in ips.value ==> !IsPrivateIp(ip)
    ensures r.PrivateAddress? ==> IsPrivateIp(r.ip)
    ensures r.Rejected? && ValidateUrl(url).Valid? ==> r.error.DnsFailure?
  {
    var v := ValidateUrl(url);
    if v.Invalid? then Rejected(v.error)
    else
      var n := v.url;
      var host := Before(UrlParse(n).netloc, ':');
      match dns(host)
      case None => Rejected(DnsFailure(host))
      case Some(ips) => FirstPrivate(n, ips)
  }

  /** The resolved-address loop: the first private address aborts the check. */
  function FirstPrivate(url: string, ips: seq<ParsedIp>): (r: SsrfResult)
    ensures r.SafeUrl? <==> forall ip :: ip in ips ==> !IsPrivateIp(ip)
    ensures r.SafeUrl? ==> r.url == url
    ensures r.PrivateAddress? ==> IsPrivateIp(r.ip) && r.ip in ips
    ensures r.SafeUrl? || r.PrivateAddress?
  {
    if ips == [] then SafeUrl(url)
    else if IsPrivateIp(ips[0]) then PrivateAddress(ips[0])
    else
      var r := FirstPrivate(url, ips[1..]);
      assert r.SafeUrl? ==> forall k :: 0 <= k < |ips| ==> !IsPrivateIp(ips[k]) by {
        if r.SafeUrl? {
          forall k | 0 <= k < |ips| ensures !IsPrivateIp(ips[k]) {
            if k > 0 { assert ips[k] == ips[1..][k - 1]; }
          }
        }
      }
      assert !r.SafeUrl? ==> exists k :: 0 <= k < |ips| && IsPrivateIp(ips[k]) by {
        if !r.SafeUrl? { var k :| 0 <= k < |ips[1..]| && IsPrivateIp(ips[1..][k]); assert ips[k + 1] == ips[1..][k]; }
      }
      r
  }

  // ---------------------------------------------------------------
  // Prices
  // ---------------------------------------------------------------

  const MinValidPrice: real := 0.01
  const MaxValidPrice: real := 1000000.0

  /** validate_price. */
  predicate ValidPrice(p: real)
  {
    MinValidPrice <= p <= MaxValidPrice
  }

  predicate IsCurrencySymbol(c: char)
  {
    c == '$' || c == '€' || c == '£' || c == '¥'
  }

  /** Characters the cleaning step drops: ASCII letters, currency symbols, commas. */
  predicate DroppedByCleaning(c: char)
  {
    IsAlpha(c) || IsCurrencySymbol(c) || c == ','
  }

  /** Letters, $€£¥ and commas removed, then surrounding whitespace stripped. */
  function CleanPrice(s: string): (r: string)
    ensures forall c :: c in r ==> !DroppedByCleaning(c)
  {
    var f := Filter(s, c => !DroppedByCleaning(c));
    var r := Strip(f);
    assert forall k :: 0 <= k < |r| ==> r[k] in f by { StripIsInfix(f); }
    r
  }

  lemma StripIsInfix(s: string)
    ensures forall k :: 0 <= k < |Strip(s)| ==> Strip(s)[k] in s
  {
    var l := LStrip(s);
    forall k | 0 <= k < |Strip(s)| ensures Strip(s)[k] in s {
      assert Strip(s)[k] == l[k];
      assert l[k] == s[|s| - |l| + k];
    }
  }

  /** A range "a - b" (exactly one '-') keeps the text before the dash. */
  function LowerBoundOfRange(cleaned: string): string
  {
    if '-' in cleaned && Count(cleaned, '-') == 1 then Strip(Before(cleaned, '-')) else cleaned
  }

  /** Python's digitpart: digits, single underscores allowed between digits. */
  predicate IsDigitPart(s: string)
  {
    && s != [] && IsDigit(s[0]) && IsDigit(s[|s| - 1])
    && (forall k :: 0 <= k < |s| ==> IsDigit(s[k]) || s[k] == '_')
    && (forall k :: 0 <= k < |s| - 1 ==> s[k] == '_' ==> s[k + 1] != '_')
  }

  function DigitsOf(s: string): (r: string)
    ensures forall c :: c in r ==> IsDigit(c)
  {
    Filter(s, IsDigit)
  }

  /** The digits of an integer part and a fraction part as one exact value. */
  function DecimalValue(ip: string, fp: string): real
  {
    var fd := DigitsOf(fp);
    DigitsValue(DigitsOf(ip)) as real + DigitsValue(fd) as real / Pow10(|fd|) as real
  }

  /** digitpart ['.' [digitpart]] | '.' digitpart */
  predicate WellFormedDecimal(ip: string, fp: string)
  {
    (ip == [] || IsDigitPart(ip)) && (fp == [] || IsDigitPart(fp)) && (ip != [] || fp != [])
  }

  /** An optional leading sign: whether it is '-', and the rest. */
  function SplitSign(s: string): (bool, string)
  {
    if s != [] && (s[0] == '+' || s[0] == '-') then (s[0] == '-', s[1..]) else (false, s)
  }

  /** The text before and after the first '.'. */
  function SplitDecimalPoint(body: string): (string, string)
  {
    (Before(body, '.'), if '.' in body then After(body, '.') else "")
  }

  /** float() of a text without letters: [sign] (digitpart ['.' [digitpart]] | '.' digitpart). */
  function ParseFloat(s: string): (r: Option<real>)
    ensures r.Some? ==> s != []
  {
    var (neg, body) := SplitSign(s);
    var (ip, fp) := SplitDecimalPoint(body);
    if WellFormedDecimal(ip, fp) then
      var mag := DecimalValue(ip, fp);
      Some(if neg then -mag else mag)
    else None
  }

  /** Nearest integer, ties to the even one (Python's rounding of an exact value). */
  function RoundHalfEven(y: real): (n: int)
    ensures -0.5 <= n as real - y <= 0.5
    ensures y.Floor <= n && n as real < y + 1.0
  {
    var f := y.Floor;
    var frac := y - f as real;
    if frac < 0.5 then f else if frac > 0.5 then f + 1 else if f % 2 == 0 then f else f + 1
  }

  /** A whole number of cents. */
  predicate WholeCents(x: real)
  {
    (x * 100.0).Floor as real == x * 100.0
  }

  /** Python's round(x, 2) on the exact value: nearest cent, ties to the even cent. */
  function RoundCents(x: real): (r: real)
    ensures WholeCents(r)
    ensures -0.005 <= r - x <= 0.005
    ensures MinValidPrice <= x ==> MinValidPrice <= r
    ensures x <= MaxValidPrice ==> r <= MaxValidPrice
  {
    var y := x * 100.0;
    var n := RoundHalfEven(y);
    var r := n as real / 100.0;
    assert r * 100.0 == n as real;
    assert r - x == (n as real - y) / 100.0;
    assert MinValidPrice <= x ==> 1.0 <= y;
    assert x <= MaxValidPrice ==> y <= 100000000.0;
    r
  }

  /** The amount normalize_price reads: the cleaned text, cut at a range dash, as float(). */
  function ParsedAmount(priceStr: string): Option<real>
  {
    ParseFloat(LowerBoundOfRange(CleanPrice(priceStr)))
  }

  /** The range check and cent rounding normalize_price applies to a parsed amount. */
  function CheckedCents(x: Option<real>): (r: Option<real>)
    ensures r.Some? <==> x.Some? && ValidPrice(x.value)
    ensures r.Some? ==> ValidPrice(r.value)
    ensures r.Some? ==> WholeCents(r.value)
    ensures r.Some? ==> -0.005 <= r.value - x.value <= 0.005
  {
    if x.None? || x.value < MinValidPrice || x.value > MaxValidPrice then None
    else
      var r := RoundCents(x.value);
      assert ValidPrice(r);
      Some(r)
  }

  /** normalize_price. */
  function NormalizePrice(priceStr: string): (r: Option<real>)
    ensures r.Some? <==> priceStr != [] && ParsedAmount(priceStr).Some? && ValidPrice(ParsedAmount(priceStr).value)
    ensures r.Some? ==> ValidPrice(r.value)
    ensures r.Some? ==> WholeCents(r.value)
    ensures r.Some? ==> -0.005 <= r.value - ParsedAmount(priceStr).value <= 0.005
  {
    if priceStr == [] then None else CheckedCents(ParsedAmount(priceStr))
  }

  lemma DigitPartOfDigits(a: string)
    requires a != [] && forall c :: c in a ==> IsDigit(c)
    ensures IsDigitPart(a)
  {
    assert a[0] in a && a[|a| - 1] in a;
    assert forall k :: 0 <= k < |a| ==> a[k] in a;
  }

  /** A "digits.digits" text splits, without a sign, at its point into the two digit runs. */
  lemma SplitOfDecimalText(a: string, b: string)
    requires a != [] && forall c :: c in a ==> IsDigit(c)
    ensures SplitSign(a + ['.'] + b) == (false, a + ['.'] + b)
    ensures SplitDecimalPoint(a + ['.'] + b) == (a, b)
  {
    var s := a + ['.'] + b;
    assert s[0] == a[0] && a[0] in a;
    assert s[0] != '+' && s[0] != '-';
    assert '.' !in a by { assert !IsDigit('.'); }
    BeforeFirst(a, '.', b);
    assert '.' in s by { assert s[|a|] == '.'; }
  }

  /** Two digit runs form a well-formed decimal. */
  lemma WellFormedOfDigits(a: string, b: string)
    requires a != [] && b != []
    requires forall c :: c in a ==> IsDigit(c)
    requires forall c :: c in b ==> IsDigit(c)
    ensures WellFormedDecimal(a, b)
  {
    DigitPartOfDigits(a);
    DigitPartOfDigits(b);
  }

  /** The decimal value of two digit runs is read digit by digit. */
  lemma DecimalValueOfDigits(a: string, b: string)
    requires forall c :: c in a ==> IsDigit(c)
    requires forall c :: c in b ==> IsDigit(c)
    ensures DecimalValue(a, b) == DigitsValue(a) as real + DigitsValue(b) as real / Pow10(|b|) as real
  {
    FilterKeepsAll(a, IsDigit);
    FilterKeepsAll(b, IsDigit);
  }

  /** float() reads a "digits.digits" text as the decimal value of its two runs. */
  lemma ParseFloatOfDigits(a: string, b: string)
    requires a != [] && b != []
    requires forall c :: c in a ==> IsDigit(c)
    requires forall c :: c in b ==> IsDigit(c)
    ensures ParseFloat(a + ['.'] + b) == Some(DecimalValue(a, b))
  {
    SplitOfDecimalText(a, b);
    WellFormedOfDigits(a, b);
    ParseFloatOfSplit(a + ['.'] + b, a, b);
  }

  /** float() reads a plain "digits.digits" text as its decimal value. */
  lemma ParseFloatDecimal(a: string, b: string)
    requires a != [] && b != []
    requires forall c :: c in a ==> IsDigit(c)
    requires forall c :: c in b ==> IsDigit(c)
    ensures ParseFloat(a + ['.'] + b).Some?
    ensures ParseFloat(a + ['.'] + b).value == DigitsValue(a) as real + DigitsValue(b) as real / Pow10(|b|) as real
  {
    ParseFloatOfDigits(a, b);
    DecimalValueOfDigits(a, b);
  }

  /** float() of a sign-free text is the value of the two parts its point splits it into. */
  lemma ParseFloatOfSplit(s: string, a: string, b: string)
    requires SplitSign(s) == (false, s) && SplitDecimalPoint(s) == (a, b)
    requires WellFormedDecimal(a, b)
    ensures ParseFloat(s) == Some(DecimalValue(a, b))
  {
  }
}
