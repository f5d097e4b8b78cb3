/** Selector regeneration (healing/regenerator.py): validating a selector
    configuration, cutting a page down to the part the language model reads,
    pulling the JSON object out of its reply, the confidence gate on that
    reply, and merging accepted selectors into a store's configuration.
    The model call itself is an input: the reply text, or the message of the
    exception it raised. */
module Regenerator {
  import opened Common
  import opened JsonValue
  import M = Models

  const DefaultMaxAttempts: int := 3
  const DefaultMinConfidence: real := 0.7
  /** The confidence assumed when the reply gives none. */
  const MissingConfidence: real := 0.5
  const DefaultMaxChars: int := 50000
  /** How much of the page before a product marker the window keeps. */
  const Lead: int := 1000

  const ParseFailedText: string := "Failed to parse selector response"

  /** The product-container markers, lower-cased, in the order they are tried. */
  const ProductMarkers: seq<string> := [
    "<main", "class=\"product", "id=\"product", "itemtype=\"http://schema.org/product", "data-product"]

  /** RegenerationResult; `selectors` is JNull for None. */
  datatype RegenerationResult = RegenerationResult(
    success: bool, domain: string, selectors: Json, error: Option<string>,
    confidence: real, attemptsUsed: int)

  /** A failed result carrying only an error. */
  function Failed(domain: string, error: string): (r: RegenerationResult)
    ensures !r.success && r.domain == domain && r.error == Some(error) && r.selectors == JNull
  {
    RegenerationResult(false, domain, JNull, Some(error), 0.0, 0)
  }

  /** SelectorConfig; the optional fields are JNull for None. The fields
      hold whatever the dictionary held: nothing checks they are lists. */
  datatype SelectorConfig = SelectorConfig(
    price: Json, name: Json, availability: Json, image: Json,
    originalPrice: Json, waitFor: Json, jsonLd: Json)

  // ---------------------------------------------------------------
  // validate_selectors
  // ---------------------------------------------------------------

  /** selectors.get(field, {}).get("css", default): None when the field
      holds something without a .get (the AttributeError the method
      catches). */
  function CssOf(selectors: map<string, Json>, field: string, default: Json): (r: Option<Json>)
    ensures field !in selectors ==> r == Some(default)
    ensures field in selectors ==> (r.Some? <==> selectors[field].JObj?)
    ensures field in selectors && selectors[field].JObj? ==> r == Some(GetOr(selectors[field].m, "css", default))
  {
    match GetOr(selectors, field, JObj(map[]))
    case JObj(m) => Some(GetOr(m, "css", default))
    case _ => None
  }

  /** validate_selectors: None unless price, name and availability each give
      a non-empty css entry and image and original_price are dictionaries
      when present; otherwise their values, with json_ld defaulting to
      False. */
  function ValidateSelectors(selectors: map<string, Json>): (r: Option<SelectorConfig>)
    ensures r.Some? ==> Truthy(r.value.price) && Truthy(r.value.name) && Truthy(r.value.availability)
    ensures "price" !in selectors || "name" !in selectors || "availability" !in selectors ==> r.None?
    ensures r.Some? <==> (&& CssOf(selectors, "price", JArr([])).Some? && Truthy(CssOf(selectors, "price", JArr([])).value)
                         && CssOf(selectors, "name", JArr([])).Some? && Truthy(CssOf(selectors, "name", JArr([])).value)
                         && CssOf(selectors, "availability", JArr([])).Some?
                         && Truthy(CssOf(selectors, "availability", JArr([])).value)
                         && CssOf(selectors, "image", JNull).Some? && CssOf(selectors, "original_price", JNull).Some?)
    ensures r.Some? ==> && Some(r.value.price) == CssOf(selectors, "price", JArr([]))
                        && Some(r.value.name) == CssOf(selectors, "name", JArr([]))
                        && Some(r.value.availability) == CssOf(selectors, "availability", JArr([]))
                        && Some(r.value.image) == CssOf(selectors, "image", JNull)
                        && Some(r.value.originalPrice) == CssOf(selectors, "original_price", JNull)
    ensures r.Some? ==> r.value.waitFor == GetOr(selectors, "wait_for", JNull)
                        && r.value.jsonLd == GetOr(selectors, "json_ld", JBool(false))
  {
    var price := CssOf(selectors, "price", JArr([]));
    var name := CssOf(selectors, "name", JArr([]));
    var availability := CssOf(selectors, "availability", JArr([]));
    if price.None? || name.None? || availability.None? then None
    else if !Truthy(price.value) || !Truthy(name.value) || !Truthy(availability.value) then None
    else
      var image := CssOf(selectors, "image", JNull);
      var originalPrice := CssOf(selectors, "original_price", JNull);
      if image.None? || originalPrice.None? then None
      else Some(SelectorConfig(price.value, name.value, availability.value, image.value, originalPrice.value,
                               GetOr(selectors, "wait_for", JNull), GetOr(selectors, "json_ld", JBool(false))))
  }

  /** The selector dictionary the prompt asks the model for, written from a
      configuration. */
  function SelectorsOf(c: SelectorConfig): map<string, Json>
  {
    map["price" := JObj(map["css" := c.price]),
        "name" := JObj(map["css" := c.name]),
        "availability" := JObj(map["css" := c.availability]),
        "image" := JObj(map["css" := c.image]),
        "original_price" := JObj(map["css" := c.originalPrice]),
        "wait_for" := c.waitFor,
        "json_ld" := c.jsonLd]
  }

  /** Validation gives back exactly the configuration a dictionary was
      written from, when its three required entries are non-empty. */
  lemma ValidateSelectorsOf(c: SelectorConfig)
    requires Truthy(c.price) && Truthy(c.name) && Truthy(c.availability)
    ensures ValidateSelectors(SelectorsOf(c)) == Some(c)
  {
    var d := SelectorsOf(c);
    assert CssOf(d, "price", JArr([])) == Some(c.price);
    assert CssOf(d, "name", JArr([])) == Some(c.name);
    assert CssOf(d, "availability", JArr([])) == Some(c.availability);
    assert CssOf(d, "image", JNull) == Some(c.image);
    assert CssOf(d, "original_price", JNull) == Some(c.originalPrice);
  }

  // ---------------------------------------------------------------
  // _truncate_html
  // ---------------------------------------------------------------

  /** The position of the first marker, in list order, that the page holds. */
  function FirstMarker(lowered: string, markers: seq<string>): (r: Option<nat>)
    ensures r.Some? ==> r.value <= |lowered|
    ensures r.None? <==> forall k :: 0 <= k < |markers| ==> !Contains(lowered, markers[k])
    ensures r.Some? ==> exists k :: (&& 0 <= k < |markers| && Find(lowered, markers[k]) == r
                                     && forall j :: 0 <= j < k ==> !Contains(lowered, markers[j]))
  {
    if markers == [] then None
    else match Find(lowered, markers[0])
      case Some(i) =>
        assert Find(lowered, markers[0]) == Some(i);
        Some(i)
      case None =>
        var r := FirstMarker(lowered, markers[1..]);
        assert forall k :: 1 <= k < |markers| ==> markers[k] == markers[1..][k - 1];
        if r.Some? then
          var k :| (&& 0 <= k < |markers[1..]| && Find(lowered, markers[1..][k]) == r
                    && forall j :: 0 <= j < k ==> !Contains(lowered, markers[1..][j]));
          assert Find(lowered, markers[k + 1]) == r;
          r
        else r
  }

  /** The text _truncate_html returns: the page itself when short enough;
      else a window from `Lead` characters before the first product marker;
      else the first maxChars characters (Python slicing throughout). */
  function Truncated(html: string, maxChars: int): string
  {
    if |html| <= maxChars then html
    else Window(html, FirstMarker(LowerStr(html), ProductMarkers), maxChars)
  }

  /** The cut made for a long page, given where the first marker is. */
  function Window(html: string, at: Option<nat>, maxChars: int): string
  {
    match at
    case Some(idx) => PySlice(html, Max(0, idx - Lead), Min(|html|, idx + maxChars - Lead))
    case None => PySlice(html, 0, maxChars)
  }

  /** _truncate_html: tries the markers in order. */
  method TruncateHtml(html: string, maxChars: int) returns (r: string)
    ensures r == Truncated(html, maxChars)
  {
    if |html| <= maxChars {
      return html;
    }
    var lowered := LowerStr(html);
    var markers := ProductMarkers;
    var i := 0;
    while i < |markers|
      invariant 0 <= i <= |markers|
      invariant FirstMarker(lowered, markers) == FirstMarker(lowered, markers[i..])
    {
      var idx := Find(lowered, markers[i]);
      if idx.Some? {
        return Window(html, idx, maxChars);
      }
      assert markers[i..][1..] == markers[i + 1..];
      i := i + 1;
    }
    return Window(html, None, maxChars);
  }

  /** A short page is passed through unchanged. */
  lemma ShortPageKept(html: string, maxChars: int)
    requires |html| <= maxChars
    ensures Truncated(html, maxChars) == html
  {
  }

  /** For any limit of at least `Lead` characters (the default is 50000),
      the text fits the limit and is a piece of the page. */
  lemma TruncatedFits(html: string, maxChars: int)
    requires maxChars >= Lead
    ensures |Truncated(html, maxChars)| <= maxChars
    ensures Contains(html, Truncated(html, maxChars))
  {
    if |html| <= maxChars {
      PieceContained(html, 0, |html|);
      assert html[0..|html|] == html;
    } else {
      var at := FirstMarker(LowerStr(html), ProductMarkers);
      assert at.Some? ==> at.value <= |html|;
      WindowFits(html, at, maxChars);
    }
  }

  lemma WindowFits(html: string, at: Option<nat>, maxChars: int)
    requires maxChars >= Lead && maxChars < |html|
    requires at.Some? ==> at.value <= |html|
    ensures |Window(html, at, maxChars)| <= maxChars
    ensures Contains(html, Window(html, at, maxChars))
  {
    if at.Some? {
      var lo := Max(0, at.value - Lead);
      var hi := Min(|html|, at.value + maxChars - Lead);
      assert 0 <= lo <= hi <= |html|;
      assert Window(html, at, maxChars) == html[lo..hi];
      PieceContained(html, lo, hi);
    } else {
      assert Window(html, at, maxChars) == html[0..maxChars];
      PieceContained(html, 0, maxChars);
    }
  }

  lemma {:induction false} PieceContained(s: string, lo: nat, hi: nat)
    requires lo <= hi <= |s|
    ensures Contains(s, s[lo..hi])
    decreases lo
  {
    if lo == 0 {
      assert s[..hi] <= s;
    } else {
      PieceContained(s[1..], lo - 1, hi - 1);
      assert s[1..][lo - 1..hi - 1] == s[lo..hi];
    }
  }

  // ---------------------------------------------------------------
  // _parse_response
  // ---------------------------------------------------------------

  /** The text between an opening fence (of `fenceLen` characters, found at
      the start of the search) and the next fence, when that is non-empty. */
  const Fence := "```"
  const JsonFence := "```json"

  function Fenced(s: string, start: nat): (r: string)
    requires start <= |s|
  {
    match FindFrom(s, Fence, start)
    case Some(end) => if end > start then s[start..end] else s
    case None => s
  }

  /** The text handed to json.loads: the stripped reply, narrowed to the
      inside of a "```json" block, or else of a bare "```" block. */
  function JsonText(response: string): string
  {
    Unfenced(Strip(response))
  }

  /** The inside of the stripped reply's "```json" block, else of its bare
      "```" block, else the reply itself, stripped. */
  function Unfenced(s: string): string
  {
    match Find(s, JsonFence)
    case Some(i) => Strip(Fenced(s, i + 7))
    case None =>
      match Find(s, Fence)
      case Some(i) => Strip(Fenced(s, i + 3))
      case None => Strip(s)
  }

  /** _parse_response; json.loads is a parameter, None for a decode error. */
  function ParseResponse(response: string, loads: string -> Option<Json>): (r: Option<Json>)
    ensures r == loads(JsonText(response))
  {
    loads(JsonText(response))
  }

  /** A reply with no fence is parsed whole, stripped. */
  lemma UnfencedReply(response: string, loads: string -> Option<Json>)
    requires !Contains(Strip(response), Fence)
    ensures ParseResponse(response, loads) == loads(Strip(Strip(response)))
  {
    var s := Strip(response);
    assert !Contains(s, JsonFence) by {
      if Contains(s, JsonFence) {
        var i := Find(s, JsonFence).value;
        assert Fence <= s[i..];
        PrefixContained(s, i, Fence);
      }
    }
  }

  lemma {:induction false} PrefixContained(s: string, i: nat, sub: string)
    requires i <= |s| && sub <= s[i..]
    ensures Contains(s, sub)
    decreases i
  {
    if i > 0 {
      assert s[1..][i - 1..] == s[i..];
      PrefixContained(s[1..], i - 1, sub);
    }
  }

  /** A reply that is one "```json" block parses the block's inside. */
  lemma JsonBlockReply(body: string, loads: string -> Option<Json>)
    requires body != [] && !Contains(body, Fence) && body[|body| - 1] != '`'
    ensures ParseResponse(JsonFence + body + Fence, loads) == loads(Strip(body))
  {
    OpeningFenceFirst(body);
    ClosingFenceNext(body);
  }

  /** Such a reply strips to itself and opens with its "```json" fence. */
  lemma OpeningFenceFirst(body: string)
    ensures var s := JsonFence + body + Fence;
            JsonText(s) == Strip(Fenced(s, 7))
  {
    var s := JsonFence + body + Fence;
    OpensWith(JsonFence, body + Fence);
    assert s == JsonFence + (body + Fence);
    assert s[0] == '`' && s[|s| - 1] == '`';
    JsonBlockFirst(s);
  }

  lemma OpensWith(a: string, b: string)
    ensures a <= a + b
  {
  }

  /** A text with no surrounding white space that opens with a "```json"
      fence parses what follows that fence. */
  lemma JsonBlockFirst(s: string)
    requires JsonFence <= s && !IsSpace(s[0]) && !IsSpace(s[|s| - 1])
    ensures JsonText(s) == Strip(Fenced(s, 7))
  {
    FindAtStart(s, JsonFence);
    StripNoEdgeSpace(s);
    JsonBlockAt(s, 0);
  }

  lemma FindAtStart(s: string, sub: string)
    requires sub <= s
    ensures Find(s, sub) == Some(0)
  {
  }

  /** A stripped text whose first "```json" fence is at i parses what
      follows that fence. */
  lemma JsonBlockAt(s: string, i: nat)
    requires Strip(s) == s && Find(s, JsonFence) == Some(i)
    ensures JsonText(s) == Strip(Fenced(s, i + 7))
  {
    assert JsonText(s) == Unfenced(s);
  }

  /** Its first fence after the opening one closes the block. */
  lemma ClosingFenceNext(body: string)
    requires body != [] && !Contains(body, Fence) && body[|body| - 1] != '`'
    ensures Fenced(JsonFence + body + Fence, 7) == body
  {
    var s := JsonFence + body + Fence;
    assert s[7..] == body + Fence;
    FenceAtEnd(body);
    assert FindFrom(s, Fence, 7) == Some(7 + |body|);
    assert s[7..7 + |body|] == body;
  }

  /** A text with no surrounding white space strips to itself. */
  lemma StripNoEdgeSpace(s: string)
    requires s != [] && !IsSpace(s[0]) && !IsSpace(s[|s| - 1])
    ensures Strip(s) == s
  {
    RStripKeepsNonSpace(s);
  }

  /** The first fence of body + "```" is the closing one when body holds no
      fence and does not end in a backquote. */
  lemma {:induction false} FenceAtEnd(body: string)
    requires !Contains(body, Fence) && (body == [] || body[|body| - 1] != '`')
    ensures Find(body + Fence, Fence) == Some(|body|)
    decreases |body|
  {
    var t := body + Fence;
    if body == [] {
      assert Fence <= t;
    } else {
      if |body| >= 3 {
        assert !(Fence <= body);
        assert t[..3] == body[..3];
      } else {
        assert t[|body| - 1] != '`';
      }
      assert !(Fence <= t);
      assert t[1..] == body[1..] + Fence;
      FenceAtEnd(body[1..]);
    }
  }

  // ---------------------------------------------------------------
  // regenerate
  // ---------------------------------------------------------------

  /** What the model call gave: its reply text, or the message of the
      exception it raised. */
  datatype LlmReply = Reply(text: string) | Raised(message: string)

  /** Python's type name of a decoded JSON value, as error messages show it.
      JSON numbers are one kind here, so a whole-valued float such as 1.0,
      which json.loads gives as a float, is named "int". */
  function TypeName(j: Json): string
  {
    match j
    case JNull => "NoneType"
    case JBool(_) => "bool"
    case JNum(n) => if n.Floor as real == n then "int" else "float"
    case JStr(_) => "str"
    case JArr(_) => "list"
    case JObj(_) => "dict"
  }

  /** The number a confidence value compares as, or None when `>=` against
      a float raises TypeError. */
  function ConfidenceValue(j: Json): (r: Option<real>)
    ensures j.JNum? ==> r == Some(j.n)
    ensures r.None? <==> !(j.JNum? || j.JBool?)
  {
    match j
    case JNum(n) => Some(n)
    case JBool(b) => Some(if b then 1.0 else 0.0)
    case _ => None
  }

  class SelectorRegenerator {
    const maxAttempts: int
    const minConfidence: real

    constructor(maxAttempts: int, minConfidence: real)
      ensures this.maxAttempts == maxAttempts && this.minConfidence == minConfidence
    {
      this.maxAttempts := maxAttempts;
      this.minConfidence := minConfidence;
    }

    /** The checks regenerate makes on the parsed reply: a dictionary with
        truthy selectors and a confidence (0.5 when absent) of at least
        min_confidence succeeds; falsy or unparsable replies, low
        confidence, and the TypeError/AttributeError cases fail with their
        messages. `format2` is "{:.2f}". */
    function Gate(parsed: Option<Json>, domain: string, format2: real -> string): (r: RegenerationResult)
      ensures r.domain == domain
      ensures r.success <==> (&& parsed.Some? && parsed.value.JObj?
                              && Truthy(GetOr(parsed.value.m, "selectors", JNull))
                              && ConfidenceValue(GetOr(parsed.value.m, "confidence", JNum(MissingConfidence))).Some?
                              && ConfidenceValue(GetOr(parsed.value.m, "confidence", JNum(MissingConfidence))).value >= minConfidence)
      ensures r.success ==> r.error.None? && r.selectors == parsed.value.m["selectors"] && Truthy(r.selectors)
      ensures r.success ==> r.confidence >= minConfidence
      ensures !r.success ==> r.error.Some? && r.selectors == JNull
      ensures parsed.None? || !Truthy(parsed.value) ==> r == Failed(domain, ParseFailedText)
    {
      if parsed.None? || !Truthy(parsed.value) then Failed(domain, ParseFailedText)
      else
        var j := parsed.value;
        if !j.JObj? then Failed(domain, "'" + TypeName(j) + "' object has no attribute 'get'")
        else
          var sel := GetOr(j.m, "selectors", JNull);
          if !Truthy(sel) then Failed(domain, ParseFailedText)
          else
            var raw := GetOr(j.m, "confidence", JNum(MissingConfidence));
            match ConfidenceValue(raw)
            case None =>
              Failed(domain, "'>=' not supported between instances of '" + TypeName(raw) + "' and 'float'")
            case Some(confidence) =>
              if confidence >= minConfidence then RegenerationResult(true, domain, sel, None, confidence, 0)
              else RegenerationResult(false, domain, JNull, Some("Low confidence: " + format2(confidence)), confidence, 0)
    }

    /** regenerate, from the model's reply: an exception's message is the
        error; a reply goes through _parse_response and the gate. */
    function Regenerate(reply: LlmReply, domain: string, loads: string -> Option<Json>,
                        format2: real -> string): (r: RegenerationResult)
      ensures reply.Raised? ==> r == Failed(domain, reply.message)
      ensures reply.Reply? ==> r == Gate(ParseResponse(reply.text, loads), domain, format2)
    {
      match reply
      case Raised(message) => Failed(domain, message)
      case Reply(text) => Gate(ParseResponse(text, loads), domain, format2)
    }

    /** Without a confidence in the reply, the assumed 0.5 is below the
        default threshold, so the reply is refused however good its
        selectors are. */
    lemma MissingConfidenceRefused(m: map<string, Json>, domain: string, format2: real -> string)
      requires minConfidence == DefaultMinConfidence
      requires "confidence" !in m && Truthy(GetOr(m, "selectors", JNull))
      ensures Gate(Some(JObj(m)), domain, format2)
              == RegenerationResult(false, domain, JNull, Some("Low confidence: " + format2(MissingConfidence)),
                                    MissingConfidence, 0)
    {
    }

    /** update_store_selectors: False for an unknown store, or when either
        side is not a dictionary (the TypeError the method catches); else
        the stored selectors become the old ones overlaid by the new ones. */
    method UpdateStoreSelectors(store: M.Store?, newSelectors: Json, now: real) returns (ok: bool)
      modifies if store == null then {} else {store}
      ensures ok <==> (&& store != null && newSelectors.JObj?
                      && (!Truthy(old(store.selectors)) || old(store.selectors).JObj?))
      ensures ok ==> store.selectors == JObj(Merged(old(store.selectors), newSelectors.m)) && store.updatedAt == now
      ensures !ok && store != null ==> store.selectors == old(store.selectors) && store.updatedAt == old(store.updatedAt)
      ensures store != null ==> && store.domain == old(store.domain) && store.name == old(store.name)
                                && store.isActive == old(store.isActive) && store.isWhitelisted == old(store.isWhitelisted)
                                && store.rateLimitRpm == old(store.rateLimitRpm) && store.successRate == old(store.successRate)
                                && store.lastSuccessAt == old(store.lastSuccessAt) && store.createdAt == old(store.createdAt)
    {
      if store == null {
        return false;
      }
      var existing := store.selectors;
      if Truthy(existing) && !existing.JObj? {
        return false;
      }
      if !newSelectors.JObj? {
        return false;
      }
      store.selectors := JObj(Merged(existing, newSelectors.m));
      store.updatedAt := now;
      return true;
    }
  }

  /** {**(existing or {}), **new}. */
  function Merged(existing: Json, overlay: map<string, Json>): (r: map<string, Json>)
    ensures existing.JObj? ==> r.Keys == existing.m.Keys + overlay.Keys
    ensures !existing.JObj? ==> r == overlay
    ensures forall k :: k in overlay ==> k in r && r[k] == overlay[k]
    ensures existing.JObj? ==> forall k :: k in existing.m && k !in overlay ==> k in r && r[k] == existing.m[k]
  {
    if existing.JObj? then existing.m + overlay else overlay
  }
}
