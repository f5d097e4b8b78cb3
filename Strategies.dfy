/** Extraction strategies (scraper/strategies.py): JSON-LD structured data
    (schema.org Product, Offer and AggregateOffer embedded as JSON-LD 1.1,
    section 7), CSS selectors, XPath expressions and the LLM placeholder.
    The HTML parsers are parameters: a CSS selector gives an optional element,
    an XPath expression an optional text, json.loads an optional value. */
module Strategies {
  import opened Common
  import opened JsonValue
  import Security
  import Sanitization

  /** ExtractionStrategy, and the order get_extraction_strategies lists them in. */
  datatype StrategyKind = JsonLd | CssSelector | XPath | Llm

  const StrategyOrder: seq<StrategyKind> := [JsonLd, CssSelector, XPath, Llm]

  /** ProductData. The fields JSON-LD copies verbatim keep their JSON value. */
  datatype ProductData = ProductData(
    name: Option<string>,
    price: Option<real>,
    originalPrice: Option<real>,
    currency: Json,
    inStock: bool,
    imageUrl: Json,
    brand: Json,
    upc: Json,
    strategyUsed: Option<StrategyKind>)

  /** ProductData(strategy_used=kind) with the dataclass defaults. */
  function Blank(kind: StrategyKind): ProductData
  {
    ProductData(None, None, None, JStr("CAD"), true, JNull, JNull, JNull, Some(kind))
  }

  predicate PriceTruthy(p: Option<real>) { p.Some? && p.value != 0.0 }
  predicate NameTruthy(n: Option<string>) { n.Some? && n.value != [] }

  /** `result.name and result.price`: what every strategy needs to succeed. */
  predicate HasNameAndPrice(p: ProductData)
  {
    NameTruthy(p.name) && PriceTruthy(p.price)
  }

  /** The foreign pieces the strategies call: the bleach cleaner behind
      sanitize_html, and str() of a JSON number. */
  datatype Html = Html(bleach: string -> string, numText: real -> string)

  // ---------------------------------------------------------------
  // JSON-LD: _find_product
  // ---------------------------------------------------------------

  const ProductTypes: seq<string> := ["Product", "IndividualProduct", "ProductModel"]

  /** data.get("@type", ""), with a list replaced by its first element. */
  function ItemType(m: map<string, Json>): Json
  {
    var t := GetOr(m, "@type", JStr(""));
    if t.JArr? then (if t.items != [] then t.items[0] else JStr("")) else t
  }

  predicate IsProduct(m: map<string, Json>)
  {
    ItemType(m).JStr? && ItemType(m).s in ProductTypes
  }

  /** The object occurs somewhere inside the JSON value. */
  predicate Occurs(m: map<string, Json>, data: Json)
    decreases data
  {
    data == JObj(m)
    || (data.JArr? && exists i :: 0 <= i < |data.items| && Occurs(m, data.items[i]))
    || (data.JObj? && exists k :: k in data.m && Occurs(m, data.m[k]))
  }

  /** _find_product: a list is searched element by element, an object with
      "@graph" only through its graph, then the object itself, then its
      mainEntity and mainEntityOfPage; anything else has no product. */
  function FindProduct(data: Json): (r: Option<map<string, Json>>)
    ensures r.Some? ==> IsProduct(r.value) && "@type" in r.value
    ensures r.Some? ==> Occurs(r.value, data)
    ensures !data.JArr? && !data.JObj? ==> r.None?
    ensures data.JObj? && "@graph" !in data.m && IsProduct(data.m) ==> r == Some(data.m)
    decreases data
  {
    match data
    case JArr(items) => FindInList(items)
    case JObj(m) =>
      if "@graph" in m then
        var g := FindProduct(m["@graph"]);
        assert g.Some? ==> Occurs(g.value, data) by {
          if g.Some? { assert Occurs(g.value, m["@graph"]); }
        }
        g
      else if IsProduct(m) then Some(m)
      else
        var inMain := if "mainEntity" in m then FindProduct(m["mainEntity"]) else None;
        assert inMain.Some? ==> Occurs(inMain.value, data) by {
          if inMain.Some? { assert Occurs(inMain.value, m["mainEntity"]); }
        }
        if inMain.Some? then inMain
        else if "mainEntityOfPage" in m then
          var inPage := FindProduct(m["mainEntityOfPage"]);
          assert inPage.Some? ==> Occurs(inPage.value, data) by {
            if inPage.Some? { assert Occurs(inPage.value, m["mainEntityOfPage"]); }
          }
          inPage
        else None
    case _ => None
  }

  /** The loop over a list: the first element holding a product answers. */
  function FindInList(items: seq<Json>): (r: Option<map<string, Json>>)
    ensures r.Some? ==> IsProduct(r.value) && "@type" in r.value
    ensures r.Some? ==> exists i :: 0 <= i < |items| && FindProduct(items[i]) == r
                         && forall j :: 0 <= j < i ==> FindProduct(items[j]).None?
    ensures r.None? <==> forall i :: 0 <= i < |items| ==> FindProduct(items[i]).None?
    ensures r.Some? ==> Occurs(r.value, JArr(items))
    decreases items
  {
    if items == [] then None
    else
      var first := FindProduct(items[0]);
      if first.Some? then first
      else
        var rest := FindInList(items[1..]);
        assert forall i :: 1 <= i < |items| ==> items[i] == items[1..][i - 1];
        assert rest.Some? ==> Occurs(rest.value, JArr(items)) by {
          if rest.Some? {
            var i :| 0 <= i < |items[1..]| && Occurs(rest.value, items[1..][i]);
            assert Occurs(rest.value, items[i + 1]);
          }
        }
        rest
  }

  /** An object with "@graph" is answered by its graph alone: whatever else
      it holds, including a product @type of its own, changes nothing. */
  lemma GraphDecides(m1: map<string, Json>, m2: map<string, Json>)
    requires "@graph" in m1 && "@graph" in m2 && m1["@graph"] == m2["@graph"]
    ensures FindProduct(JObj(m1)) == FindProduct(JObj(m2))
  {
  }

  // ---------------------------------------------------------------
  // JSON-LD: _parse_product and _parse_offers
  // ---------------------------------------------------------------

  /** sanitize_product_name(data.get("name", "")): a falsy value gives "", a
      string is sanitised, any other value makes bleach raise TypeError. */
  function NameText(j: Json, h: Html): (r: Option<string>)
    ensures r.None? <==> Truthy(j) && !j.JStr?
    ensures r.Some? ==> |r.value| <= Sanitization.MaxProductNameLength + 3
  {
    if !Truthy(j) then Some([])
    else if j.JStr? then Some(Sanitization.CoreSanitizeProductName(j.s, h.bleach))
    else None
  }

  /** str(price_str). */
  function PriceText(j: Json, h: Html): string
  {
    match j
    case JStr(s) => s
    case JNum(n) => h.numText(n)
    case JBool(b) => if b then "True" else "False"
    case _ => "<unprintable>"
  }

  const InStockMarkers: seq<string> := ["instock", "in stock", "available", "preorder", "pre-order"]

  /** Some in-stock marker occurs in the (lower-cased) availability text. */
  predicate InStockText(t: string)
  {
    exists i :: 0 <= i < |InStockMarkers| && Contains(t, InStockMarkers[i])
  }

  /** The offer _parse_offers reads: the first of a list ({} for an empty
      list), or the value itself when it is an object. */
  function OfferOf(offers: Json): (o: Option<map<string, Json>>)
    ensures offers.JObj? ==> o == Some(offers.m)
    ensures offers.JArr? && offers.items == [] ==> o == Some(map[])
    ensures !offers.JObj? && !offers.JArr? ==> o.None?
  {
    var first := if offers.JArr? then (if offers.items != [] then offers.items[0] else JObj(map[])) else offers;
    if first.JObj? then Some(first.m) else None
  }

  /** The price field of an offer: lowPrice (else price) for an
      AggregateOffer, price otherwise. */
  function OfferPrice(o: map<string, Json>): Json
  {
    if GetOr(o, "@type", JStr("")) == JStr("AggregateOffer") then
      var low := GetOr(o, "lowPrice", JNull);
      if Truthy(low) then low else GetOr(o, "price", JNull)
    else GetOr(o, "price", JNull)
  }

  /** _parse_offers: price, currency (default "CAD") and availability from
      the offer; nothing else of the product changes. */
  function ParseOffers(offers: Json, p: ProductData, h: Html): (r: ProductData)
    ensures r.name == p.name && r.originalPrice == p.originalPrice && r.imageUrl == p.imageUrl
            && r.brand == p.brand && r.upc == p.upc && r.strategyUsed == p.strategyUsed
    ensures OfferOf(offers).None? ==> r == p
    ensures r.price != p.price ==> r.price.None? || Security.ValidPrice(r.price.value)
    ensures OfferOf(offers).Some? && "priceCurrency" !in OfferOf(offers).value ==> r.currency == JStr("CAD")
    ensures OfferOf(offers).Some? && "availability" !in OfferOf(offers).value ==> !r.inStock
    ensures OfferOf(offers).Some? && GetOr(OfferOf(offers).value, "availability", JNull).JStr?
            ==> (r.inStock <==> InStockText(LowerStr(OfferOf(offers).value["availability"].s)))
    ensures (OfferOf(offers).Some? && "availability" in OfferOf(offers).value
             && !OfferOf(offers).value["availability"].JStr?) ==> r.inStock == p.inStock
  {
    match OfferOf(offers)
    case None => p
    case Some(o) =>
      var priceJ := OfferPrice(o);
      var price := if Truthy(priceJ) then Security.NormalizePrice(PriceText(priceJ, h)) else p.price;
      var currency := GetOr(o, "priceCurrency", JStr("CAD"));
      var availability := GetOr(o, "availability", JStr(""));
      var inStock := if availability.JStr? then InStockText(LowerStr(availability.s)) else p.inStock;
      assert !InStockText(LowerStr("")) by {
        forall i | 0 <= i < |InStockMarkers| ensures !Contains(LowerStr(""), InStockMarkers[i]) { }
      }
      p.(price := price, currency := currency, inStock := inStock)
  }

  /** The brand: an object's "name", a string as it is, otherwise None. */
  function BrandOf(b: Json): Json
  {
    if b.JObj? then GetOr(b.m, "name", JNull) else if b.JStr? then b else JNull
  }

  /** `data.get("gtin13") or data.get("gtin") or data.get("sku")`. */
  function UpcOf(m: map<string, Json>): (u: Json)
    ensures Truthy(u) ==> u in {GetOr(m, "gtin13", JNull), GetOr(m, "gtin", JNull), GetOr(m, "sku", JNull)}
    ensures Truthy(GetOr(m, "gtin13", JNull)) ==> u == m["gtin13"]
  {
    var g13 := GetOr(m, "gtin13", JNull);
    var g := GetOr(m, "gtin", JNull);
    if Truthy(g13) then g13 else if Truthy(g) then g else GetOr(m, "sku", JNull)
  }

  /** The image: a list's first element, an object's "url", else the value. */
  function ImageOf(i: Json): Json
  {
    match i
    case JArr(items) => if items != [] then items[0] else JNull
    case JObj(m) => GetOr(m, "url", JNull)
    case _ => i
  }

  /** _parse_product; None where it raises TypeError (a truthy name that is
      not a string), which the extraction loop swallows. */
  function ParseProduct(m: map<string, Json>, h: Html): (r: Option<ProductData>)
    ensures r.None? <==> NameText(GetOr(m, "name", JStr("")), h).None?
    ensures r.Some? ==> r.value.strategyUsed == Some(JsonLd) && r.value.name.Some?
    ensures r.Some? && r.value.price.Some? ==> Security.ValidPrice(r.value.price.value)
    ensures r.Some? && !Truthy(GetOr(m, "offers", JNull))
            ==> r.value.price.None? && r.value.inStock && r.value.currency == JStr("CAD")
  {
    match NameText(GetOr(m, "name", JStr("")), h)
    case None => None
    case Some(name) =>
      var p := Blank(JsonLd).(
        name := Some(name),
        brand := BrandOf(GetOr(m, "brand", JNull)),
        upc := UpcOf(m),
        imageUrl := ImageOf(GetOr(m, "image", JNull)));
      var offers := GetOr(m, "offers", JNull);
      Some(if Truthy(offers) then ParseOffers(offers, p, h) else p)
  }

  /** JsonLdStrategy.extract over the page's ld+json scripts (a script
      without a string is None): the first script that parses, holds a
      product and parses as one gives the result; failures are skipped. */
  function JsonLdExtract(scripts: seq<Option<string>>, parse: string -> Option<Json>, h: Html): (r: Option<ProductData>)
    ensures r.Some? ==> r.value.strategyUsed == Some(JsonLd)
    ensures r.Some? ==> exists i :: 0 <= i < |scripts| && scripts[i].Some? && parse(scripts[i].value).Some?
                         && FindProduct(parse(scripts[i].value).value).Some?
                         && ParseProduct(FindProduct(parse(scripts[i].value).value).value, h) == r
    ensures scripts == [] ==> r.None?
  {
    if scripts == [] then None
    else
      var here :=
        if scripts[0].Some? && parse(scripts[0].value).Some? then
          match FindProduct(parse(scripts[0].value).value)
          case Some(prod) => ParseProduct(prod, h)
          case None => None
        else None;
      if here.Some? then here
      else
        var rest := JsonLdExtract(scripts[1..], parse, h);
        assert forall i :: 1 <= i < |scripts| ==> scripts[i] == scripts[1..][i - 1];
        rest
  }

  // ---------------------------------------------------------------
  // Selector loops
  // ---------------------------------------------------------------

  /** The probe found an element and its value is truthy. */
  predicate Hit<T>(o: Option<T>, truthy: T -> bool)
  {
    o.Some? && truthy(o.value)
  }

  /** The selector loop shared by the CSS and XPath strategies: each selector
      whose element exists overwrites the field; the first truthy value
      stops the loop. */
  function SelectFirst<T>(sels: seq<string>, probe: string -> Option<T>, truthy: T -> bool, cur: T): (r: T)
    ensures (exists i :: 0 <= i < |sels| && Hit(probe(sels[i]), truthy))
            ==> exists i :: 0 <= i < |sels| && Hit(probe(sels[i]), truthy) && probe(sels[i]).value == r
                            && forall j :: 0 <= j < i ==> !Hit(probe(sels[j]), truthy)
    ensures (forall i :: 0 <= i < |sels| ==> !Hit(probe(sels[i]), truthy)) ==> (truthy(r) ==> r == cur)
    ensures (forall i :: 0 <= i < |sels| ==> probe(sels[i]).None?) ==> r == cur
    ensures r == cur || exists i :: 0 <= i < |sels| && probe(sels[i]) == Some(r)
    decreases |sels|
  {
    if sels == [] then cur
    else
      var e := probe(sels[0]);
      assert forall i :: 1 <= i < |sels| ==> sels[i] == sels[1..][i - 1];
      if e.Some? && truthy(e.value) then e.value
      else
        var r := SelectFirst(sels[1..], probe, truthy, if e.Some? then e.value else cur);
        assert (exists i :: 0 <= i < |sels| && Hit(probe(sels[i]), truthy))
               ==> exists i :: 1 <= i < |sels| && Hit(probe(sels[i]), truthy);
        r
  }

  /** The loop itself: for each selector, probe; keep the value; stop at the
      first truthy one. */
  method SelectLoop<T>(sels: seq<string>, probe: string -> Option<T>, truthy: T -> bool, cur: T) returns (r: T)
    ensures r == SelectFirst(sels, probe, truthy, cur)
  {
    r := cur;
    var i := 0;
    while i < |sels|
      invariant 0 <= i <= |sels|
      invariant SelectFirst(sels[i..], probe, truthy, r) == SelectFirst(sels, probe, truthy, cur)
    {
      assert sels[i..][1..] == sels[i + 1..];
      var e := probe(sels[i]);
      if e.Some? {
        r := e.value;
        if truthy(r) {
          return;
        }
      }
      i := i + 1;
    }
  }

  // ---------------------------------------------------------------
  // CSS selectors
  // ---------------------------------------------------------------

  /** What select_one returns: the tag name, get_text(strip=True) and the
      src / data-src attributes. */
  datatype Element = Element(tag: string, text: string, src: Option<string>, dataSrc: Option<string>)

  /** selectors.get(field, {}).get("css", []): None where that raises (the
      entry is not an object) or the list is not a list of strings. */
  function CssList(selectors: map<string, Json>, field: string): Option<seq<string>>
  {
    var entry := GetOr(selectors, field, JObj(map[]));
    if entry.JObj? then Strings(GetOr(entry.m, "css", JArr([]))) else None
  }

  function PriceProbe(select: string -> Option<Element>): string -> Option<Option<real>>
  {
    s => match select(s) case None => None case Some(e) => Some(Security.NormalizePrice(e.text))
  }

  function NameProbe(select: string -> Option<Element>, h: Html): string -> Option<Option<string>>
  {
    s => match select(s) case None => None case Some(e) => Some(Some(Sanitization.CoreSanitizeProductName(e.text, h.bleach)))
  }

  /** `element.get("src") or element.get("data-src")`, with a
      protocol-relative URL given an "https:" prefix. */
  function ImageSource(e: Element): (j: Json)
    ensures Truthy(j) ==> j.JStr? && !("//" <= j.s)
  {
    var v := if e.src.Some? && e.src.value != [] then e.src else e.dataSrc;
    match v
    case None => JNull
    case Some(u) =>
      if "//" <= u then
        var full := "https:" + u;
        assert full[0] == 'h';
        JStr(full)
      else JStr(u)
  }

  function ImageProbe(select: string -> Option<Element>): string -> Option<Json>
  {
    s => match select(s) case None => None case Some(e) => Some(ImageSource(e))
  }

  /** The items `for pattern in in_stock_patterns` visits, as far as the
      answer depends on them: a list's elements; a string's characters and
      an object's keys are strings, whose matches cannot change the answer
      (every path answers True), so they stand as no items; None where
      iterating raises TypeError (a number, a boolean, null). */
  function PatternItems(j: Json): Option<seq<Json>>
  {
    match j
    case JArr(items) => Some(items)
    case JStr(_) => Some([])
    case JObj(_) => Some([])
    case _ => None
  }

  /** A pattern the loop passes over: a string that does not occur in the
      lowered text. */
  predicate PatternMiss(p: Json, text: string)
  {
    p.JStr? && !Contains(text, LowerStr(p.s))
  }

  /** The pattern loop over an element's lowered text: Some(true) at the
      first pattern that occurs, Some(false) when none does, None where
      `pattern.lower()` raises (an item that is not a string) before a
      match. */
  function PatternScan(items: seq<Json>, text: string): (r: Option<bool>)
    ensures r.None? <==> exists i :: 0 <= i < |items| && !items[i].JStr?
                                     && forall k :: 0 <= k < i ==> PatternMiss(items[k], text)
    ensures r == Some(false) <==> forall i :: 0 <= i < |items| ==> PatternMiss(items[i], text)
    decreases |items|
  {
    if items == [] then Some(false)
    else
      assert forall i :: 1 <= i < |items| ==> items[i] == items[1..][i - 1];
      match items[0]
      case JStr(p) =>
        if Contains(text, LowerStr(p)) then Some(true)
        else
          var rest := PatternScan(items[1..], text);
          assert rest.None? ==> exists i :: 1 <= i < |items| && !items[i].JStr?
                                            && forall k :: 0 <= k < i ==> PatternMiss(items[k], text) by {
            if rest.None? {
              var i :| 0 <= i < |items[1..]| && !items[1..][i].JStr?
                       && forall k :: 0 <= k < i ==> PatternMiss(items[1..][k], text);
              assert forall k :: 0 <= k < i + 1 ==> PatternMiss(items[k], text) by {
                forall k | 0 <= k < i + 1 ensures PatternMiss(items[k], text) {
                  if k > 0 { assert items[k] == items[1..][k - 1]; }
                }
              }
            }
          }
          rest
      case _ => None
  }

  /** The selector loop of _extract_availability stops here with an answer
      or an exception: the element exists and its text matches a pattern,
      raises in the pattern loop, or belongs to a button. */
  predicate AvailabilityStops(e: Option<Element>, patterns: Option<seq<Json>>)
  {
    e.Some? && (patterns.None? || PatternScan(patterns.value, LowerStr(e.value.text)) != Some(false) || e.value.tag == "button")
  }

  /** ... and stops with an exception. */
  predicate AvailabilityRaises(e: Option<Element>, patterns: Option<seq<Json>>)
  {
    e.Some? && (patterns.None? || PatternScan(patterns.value, LowerStr(e.value.text)).None?)
  }

  /** The selector loop of _extract_availability: each selector's element,
      when it exists, is tested against the patterns and for being a button;
      the default after the loop is True. None where the loop raises. */
  function AvailabilityScan(css: seq<string>, patterns: Option<seq<Json>>, select: string -> Option<Element>): (r: Option<bool>)
    ensures r.Some? ==> r.value
    ensures r.None? <==> exists i :: 0 <= i < |css| && AvailabilityRaises(select(css[i]), patterns)
                                     && forall k :: 0 <= k < i ==> !AvailabilityStops(select(css[k]), patterns)
    decreases |css|
  {
    if css == [] then Some(true)
    else
      var e := select(css[0]);
      if AvailabilityRaises(e, patterns) then None
      else if AvailabilityStops(e, patterns) then Some(true)
      else
        var rest := AvailabilityScan(css[1..], patterns, select);
        assert rest.None? ==> exists i :: 1 <= i < |css| && AvailabilityRaises(select(css[i]), patterns)
                                          && forall k :: 0 <= k < i ==> !AvailabilityStops(select(css[k]), patterns) by {
          if rest.None? {
            var i :| 0 <= i < |css[1..]| && AvailabilityRaises(select(css[1..][i]), patterns)
                     && forall k :: 0 <= k < i ==> !AvailabilityStops(select(css[1..][k]), patterns);
            assert css[1..][i] == css[i + 1];
            forall k | 0 <= k < i + 1 ensures !AvailabilityStops(select(css[k]), patterns) {
              if k > 0 { assert css[k] == css[1..][k - 1]; }
            }
          }
        }
        assert rest.Some? ==> forall i :: 1 <= i < |css| && AvailabilityRaises(select(css[i]), patterns)
                                          ==> exists k :: 0 <= k < i && AvailabilityStops(select(css[k]), patterns) by {
          if rest.Some? {
            forall i | 1 <= i < |css| && AvailabilityRaises(select(css[i]), patterns)
              ensures exists k :: 0 <= k < i && AvailabilityStops(select(css[k]), patterns)
            {
              assert css[1..][i - 1] == css[i];
              var k :| 0 <= k < i - 1 && AvailabilityStops(select(css[1..][k]), patterns);
              assert css[1..][k] == css[k + 1];
            }
          }
        }
        rest
  }

  /** _extract_availability: every path that returns answers in stock; None
      where it raises — the "availability" entry is not an object (a
      string, a list, null), its "css" value is not a list of strings, or
      the pattern loop raises on an element it reaches. Without an
      "availability" entry the answer is in stock. */
  function ExtractAvailability(selectors: map<string, Json>, select: string -> Option<Element>): (r: Option<bool>)
    ensures r.Some? ==> r.value
    ensures "availability" !in selectors ==> r == Some(true)
    ensures !GetOr(selectors, "availability", JObj(map[])).JObj? ==> r.None?
    ensures CssList(selectors, "availability").None? ==> r.None?
    ensures r.None? && CssList(selectors, "availability").Some?
            ==> exists i :: 0 <= i < |CssList(selectors, "availability").value|
                            && select(CssList(selectors, "availability").value[i]).Some?
  {
    var entry := GetOr(selectors, "availability", JObj(map[]));
    if !entry.JObj? then None
    else
      match Strings(GetOr(entry.m, "css", JArr([])))
      case None => None
      case Some(css) => AvailabilityScan(css, PatternItems(GetOr(entry.m, "in_stock_patterns", JArr([]))), select)
  }

  function IsSomeTruthyPrice(p: Option<real>): bool { PriceTruthy(p) }
  function IsSomeTruthyName(n: Option<string>): bool { NameTruthy(n) }
  function IsTruthyJson(j: Json): bool { Truthy(j) }

  /** CssSelectorStrategy.extract as a value: None without selectors; each
      field takes the first truthy selector value; None where a field's
      entry is malformed or _extract_availability raises (the exception
      leaves the strategy); the product only with a name and a price. */
  function CssResult(selectors: Json, select: string -> Option<Element>, h: Html): (r: Option<ProductData>)
    ensures !Truthy(selectors) ==> r.None?
    ensures r.Some? ==> HasNameAndPrice(r.value) && r.value.inStock && r.value.strategyUsed == Some(CssSelector)
    ensures r.Some? ==> selectors.JObj? && CssList(selectors.m, "price").Some? && CssList(selectors.m, "name").Some?
                        && ExtractAvailability(selectors.m, select) == Some(true)
    ensures r.Some? ==> r.value.price == SelectFirst(CssList(selectors.m, "price").value, PriceProbe(select), IsSomeTruthyPrice, None)
    ensures r.Some? ==> r.value.name == SelectFirst(CssList(selectors.m, "name").value, NameProbe(select, h), IsSomeTruthyName, None)
    ensures r.Some? && Truthy(r.value.imageUrl) ==> r.value.imageUrl.JStr? && !("//" <= r.value.imageUrl.s)
    ensures selectors.JObj? && ExtractAvailability(selectors.m, select).None? ==> r.None?
    ensures Truthy(selectors) && selectors.JObj?
            && CssList(selectors.m, "price").Some? && CssList(selectors.m, "name").Some?
            && CssList(selectors.m, "original_price").Some? && CssList(selectors.m, "image").Some?
            && ExtractAvailability(selectors.m, select).Some?
            && PriceTruthy(SelectFirst(CssList(selectors.m, "price").value, PriceProbe(select), IsSomeTruthyPrice, None))
            && NameTruthy(SelectFirst(CssList(selectors.m, "name").value, NameProbe(select, h), IsSomeTruthyName, None))
            ==> r.Some?
  {
    if !Truthy(selectors) || !selectors.JObj? then None
    else
      var sel := selectors.m;
      var prices := CssList(sel, "price");
      var names := CssList(sel, "name");
      var originals := CssList(sel, "original_price");
      var available := ExtractAvailability(sel, select);
      var images := CssList(sel, "image");
      if prices.None? || names.None? || originals.None? || available.None? || images.None? then None
      else
        var image := SelectFirst(images.value, ImageProbe(select), IsTruthyJson, JNull);
        assert Truthy(image) ==> image.JStr? && !("//" <= image.s) by {
          if Truthy(image) {
            var i :| 0 <= i < |images.value| && Hit(ImageProbe(select)(images.value[i]), IsTruthyJson)
                     && ImageProbe(select)(images.value[i]).value == image;
          }
        }
        var result := Blank(CssSelector).(
          price := SelectFirst(prices.value, PriceProbe(select), IsSomeTruthyPrice, None),
          name := SelectFirst(names.value, NameProbe(select, h), IsSomeTruthyName, None),
          originalPrice := SelectFirst(originals.value, PriceProbe(select), IsSomeTruthyPrice, None),
          inStock := available.value,
          imageUrl := image);
        if HasNameAndPrice(result) then Some(result) else None
  }

  /** CssSelectorStrategy.extract: the selector loops run field by field in
      the source's order (price, name, original price, availability,
      image); a malformed entry or a raising availability check ends the
      strategy without a result. */
  method CssExtract(selectors: Json, select: string -> Option<Element>, h: Html) returns (r: Option<ProductData>)
    ensures r == CssResult(selectors, select, h)
  {
    if !Truthy(selectors) || !selectors.JObj? {
      return None;
    }
    var sel := selectors.m;
    var result := Blank(CssSelector);
    var priceSels := CssList(sel, "price");
    if priceSels.None? {
      return None;
    }
    var price := SelectLoop(priceSels.value, PriceProbe(select), IsSomeTruthyPrice, None);
    result := result.(price := price);
    var nameSels := CssList(sel, "name");
    if nameSels.None? {
      return None;
    }
    var name := SelectLoop(nameSels.value, NameProbe(select, h), IsSomeTruthyName, None);
    result := result.(name := name);
    var originalSels := CssList(sel, "original_price");
    if originalSels.None? {
      return None;
    }
    var original := SelectLoop(originalSels.value, PriceProbe(select), IsSomeTruthyPrice, None);
    result := result.(originalPrice := original);
    var available := ExtractAvailability(sel, select);
    if available.None? {
      return None;
    }
    result := result.(inStock := available.value);
    var imageSels := CssList(sel, "image");
    if imageSels.None? {
      return None;
    }
    var image := SelectLoop(imageSels.value, ImageProbe(select), IsTruthyJson, JNull);
    result := result.(imageUrl := image);
    if HasNameAndPrice(result) {
      return Some(result);
    }
    return None;
  }

  // ---------------------------------------------------------------
  // XPath and LLM
  // ---------------------------------------------------------------

  /** xpath_selectors.get(field, []) as a list of strings; None where it
      raises (caught by the strategy). */
  function XPathList(xpaths: map<string, Json>, field: string): Option<seq<string>>
  {
    Strings(GetOr(xpaths, field, JArr([])))
  }

  function XPathPriceProbe(evaluate: string -> Option<string>): string -> Option<Option<real>>
  {
    s => match evaluate(s) case None => None case Some(t) => Some(Security.NormalizePrice(t))
  }

  function XPathNameProbe(evaluate: string -> Option<string>, h: Html): string -> Option<Option<string>>
  {
    s => match evaluate(s) case None => None case Some(t) => Some(Some(Sanitization.CoreSanitizeProductName(t, h.bleach)))
  }

  /** A price the XPath loop settles on is a valid price. */
  lemma XPathPriceValid(sels: seq<string>, evaluate: string -> Option<string>)
    ensures var p := SelectFirst(sels, XPathPriceProbe(evaluate), IsSomeTruthyPrice, None);
            p.Some? ==> Security.ValidPrice(p.value)
  {
    var p := SelectFirst(sels, XPathPriceProbe(evaluate), IsSomeTruthyPrice, None);
    if p.Some? {
      var i :| 0 <= i < |sels| && XPathPriceProbe(evaluate)(sels[i]) == Some(p);
    }
  }

  /** XPathStrategy.extract as a value: None without selectors, without an
      "xpath" entry, when the page does not parse, on any exception (a
      malformed entry), or without a name and a price. `evaluate` gives the
      first matching element's text ("" for an element without text). */
  function XPathResult(selectors: Json, parsed: bool, evaluate: string -> Option<string>, h: Html): (r: Option<ProductData>)
    ensures !Truthy(selectors) ==> r.None?
    ensures selectors.JObj? && !Truthy(GetOr(selectors.m, "xpath", JObj(map[]))) ==> r.None?
    ensures !parsed ==> r.None?
    ensures r.Some? ==> HasNameAndPrice(r.value) && r.value.strategyUsed == Some(XPath)
    ensures r.Some? && r.value.price.Some? ==> Security.ValidPrice(r.value.price.value)
  {
    if !Truthy(selectors) || !selectors.JObj? then None
    else
      var xp := GetOr(selectors.m, "xpath", JObj(map[]));
      if !Truthy(xp) || !xp.JObj? || !parsed then None
      else
        var prices := XPathList(xp.m, "price");
        var names := XPathList(xp.m, "name");
        if prices.None? || names.None? then None
        else
          XPathPriceValid(prices.value, evaluate);
          var result := Blank(XPath).(
            price := SelectFirst(prices.value, XPathPriceProbe(evaluate), IsSomeTruthyPrice, None),
            name := SelectFirst(names.value, XPathNameProbe(evaluate, h), IsSomeTruthyName, None));
          if HasNameAndPrice(result) then Some(result) else None
  }

  /** XPathStrategy.extract: the price loop, then the name loop. */
  method XPathExtract(selectors: Json, parsed: bool, evaluate: string -> Option<string>, h: Html) returns (r: Option<ProductData>)
    ensures r == XPathResult(selectors, parsed, evaluate, h)
  {
    if !Truthy(selectors) || !selectors.JObj? {
      return None;
    }
    var xp := GetOr(selectors.m, "xpath", JObj(map[]));
    if !Truthy(xp) || !xp.JObj? || !parsed {
      return None;
    }
    var priceSels := XPathList(xp.m, "price");
    if priceSels.None? {
      return None;
    }
    var price := SelectLoop(priceSels.value, XPathPriceProbe(evaluate), IsSomeTruthyPrice, None);
    var nameSels := XPathList(xp.m, "name");
    if nameSels.None? {
      return None;
    }
    var name := SelectLoop(nameSels.value, XPathNameProbe(evaluate, h), IsSomeTruthyName, None);
    var result := Blank(XPath).(price := price, name := name);
    if HasNameAndPrice(result) {
      return Some(result);
    }
    return None;
  }

  /** LlmExtractionStrategy.extract: the integration is not written, so the
      strategy never produces a result, with or without a client. */
  function LlmExtract(hasClient: bool): (r: Option<ProductData>)
    ensures r.None?
  {
    if !hasClient then None else None
  }
}
